/** Properties of the merge engine, each proved over all inputs. */
module Laws {
  import opened Values
  import opened Resolver

  /** A value the resolver may hold as its state: a non-dict, or a dict whose
      keys are distinct and none of which is computed. */
  ghost predicate Clean(argmap: map<string, Value -> Value>, v: Value)
  {
    v.Dict? ==> DistinctKeys(v.entries) && NoComputedKeys(argmap, v.entries)
  }

  /** A computed key is never stored: merging into a clean target leaves it
      clean, on success and when an error stops the merge half-way. */
  lemma {:induction false} MergeKeepsInvariant(cfg: Config, d: nat, t: Value, src: Value)
    requires Clean(cfg.argmap, t)
    ensures Clean(cfg.argmap, Merge(cfg, d, t, src).value)
    decreases d, 3, 0
  {
    if src.Dict? {
      var pre := ApplyMixins(cfg, d, t, src.entries);
      ApplyMixinsKeepsInvariant(cfg, d, t, src.entries);
      if pre.failure.None? {
        MergeItemsKeepInvariant(cfg, d, pre.value, ComputedFirst(cfg.argmap, src.entries));
      }
    }
  }

  lemma {:induction false} ApplyMixinsKeepsInvariant(cfg: Config, d: nat, t: Value, es: Entries)
    requires Clean(cfg.argmap, t)
    ensures Clean(cfg.argmap, ApplyMixins(cfg, d, t, es).value)
    decreases d, 2, 0
  {
    var mv := Find(es, MixinKey);
    if mv.Some? && d > 0 {
      var m := ResolveGroups(cfg, d - 1, mv.value, Dict([]));
      ResolveKeepsInvariant(cfg, d - 1, mv.value, Dict([]));
      if m.failure.None? && t.Dict? {
        var u := UpdateWith(t.entries, m.value.entries);
        assert KeySet(u) == KeySet(t.entries) + KeySet(m.value.entries);
      }
    }
  }

  lemma {:induction false} MergeItemsKeepInvariant(cfg: Config, d: nat, t: Value, items: Entries)
    requires Clean(cfg.argmap, t)
    ensures Clean(cfg.argmap, MergeItems(cfg, d, t, items).value)
    decreases d, 2, |items|
  {
    if items != [] {
      var s := MergeItem(cfg, d, t, items[0].0, items[0].1);
      MergeItemKeepsInvariant(cfg, d, t, items[0].0, items[0].1);
      if s.failure.None? {
        MergeItemsKeepInvariant(cfg, d, s.value, items[1..]);
      }
    }
  }

  lemma {:induction false} MergeItemKeepsInvariant(cfg: Config, d: nat, t: Value, attr: string, val: Value)
    requires Clean(cfg.argmap, t)
    ensures Clean(cfg.argmap, MergeItem(cfg, d, t, attr, val).value)
    decreases d, 1, 0
  {
    if attr != MixinKey {
      var w := Restore(cfg, attr, val);
      if w.Ok? && attr in cfg.argmap && d > 0 {
        MergeKeepsInvariant(cfg, d - 1, t, cfg.argmap[attr](w.value));
      }
    }
  }

  lemma {:induction false} ResolveKeepsInvariant(cfg: Config, d: nat, groups: Value, seed: Value)
    requires Clean(cfg.argmap, seed)
    ensures Clean(cfg.argmap, ResolveGroups(cfg, d, groups, seed).value)
    decreases d, 5, 0
  {
    var ns := Iterate(groups);
    if ns.Ok? {
      ResolveNamesKeepInvariant(cfg, d, ns.value, seed);
    }
  }

  lemma {:induction false} ResolveNamesKeepInvariant(cfg: Config, d: nat, names: seq<Value>, acc: Value)
    requires Clean(cfg.argmap, acc)
    ensures Clean(cfg.argmap, ResolveNames(cfg, d, names, acc).value)
    decreases d, 4, |names|
  {
    if names != [] {
      var g := GroupBody(cfg, names[0]);
      if g.Ok? {
        var m := Merge(cfg, d, acc, g.value);
        MergeKeepsInvariant(cfg, d, acc, g.value);
        if m.failure.None? {
          ResolveNamesKeepInvariant(cfg, d, names[1..], m.value);
        }
      }
    }
  }

  /** The top-level keys a merge of `src` may write: the keys its mixins
      resolve to, its ordinary keys, and the keys its computed keys'
      fragments may write. */
  ghost function Touched(cfg: Config, d: nat, src: Value): set<string>
    decreases d, 3, 0
  {
    if !src.Dict? then {}
    else MixinKeys(cfg, d, src.entries) + TouchedItems(cfg, d, src.entries)
  }

  /** The keys of the dict a group's mixin list resolves to. */
  ghost function MixinKeys(cfg: Config, d: nat, es: Entries): set<string>
  {
    match Find(es, MixinKey)
    case None => {}
    case Some(mv) =>
      if d == 0 then {}
      else KeySet(ResolveGroups(cfg, d - 1, mv, Dict([])).value.entries)
  }

  ghost function TouchedItems(cfg: Config, d: nat, items: Entries): set<string>
    decreases d, 2, |items|
  {
    if items == [] then {}
    else TouchedItem(cfg, d, items[0].0, items[0].1) + TouchedItems(cfg, d, items[1..])
  }

  ghost function TouchedItem(cfg: Config, d: nat, attr: string, val: Value): set<string>
    decreases d, 1, 0
  {
    if attr == MixinKey then {}
    else if attr !in cfg.argmap then {attr}
    else match Restore(cfg, attr, val)
      case Err(_) => {}
      case Ok(w) => if d == 0 then {} else Touched(cfg, d - 1, cfg.argmap[attr](w))
  }

  lemma {:induction false} TouchedItemsMember(cfg: Config, d: nat, items: Entries, k: string)
    ensures k in TouchedItems(cfg, d, items) <==>
            exists p :: p in items && k in TouchedItem(cfg, d, p.0, p.1)
  {
    if items != [] {
      TouchedItemsMember(cfg, d, items[1..], k);
      assert forall p :: p in items <==> p == items[0] || p in items[1..];
    }
  }

  /** The order in which the items are processed does not change which keys
      they may write. */
  lemma {:induction false} TouchedItemsSorted(cfg: Config, d: nat, es: Entries)
    ensures TouchedItems(cfg, d, ComputedFirst(cfg.argmap, es)) == TouchedItems(cfg, d, es)
  {
    var sorted := ComputedFirst(cfg.argmap, es);
    forall k ensures k in TouchedItems(cfg, d, sorted) <==> k in TouchedItems(cfg, d, es) {
      TouchedItemsMember(cfg, d, sorted, k);
      TouchedItemsMember(cfg, d, es, k);
      assert forall p :: p in sorted <==> p in es by {
        forall p ensures p in sorted <==> p in es {
          assert p in sorted <==> p in multiset(sorted);
          assert p in es <==> p in multiset(es);
        }
      }
    }
  }

  /** Overlay: a merge never removes a key, and it leaves every key it does
      not touch as it was -- on success and when an error stops it. */
  lemma {:induction false} MergeFrame(cfg: Config, d: nat, t: Value, src: Value)
    requires t.Dict?
    ensures KeySet(t.entries) <= KeySet(Merge(cfg, d, t, src).value.entries)
    ensures forall k :: k !in Touched(cfg, d, src) ==>
              Find(Merge(cfg, d, t, src).value.entries, k) == Find(t.entries, k)
    decreases d, 3, 0
  {
    if src.Dict? {
      var pre := ApplyMixins(cfg, d, t, src.entries);
      ApplyMixinsFrame(cfg, d, t, src.entries);
      if pre.failure.None? {
        var items := ComputedFirst(cfg.argmap, src.entries);
        MergeItemsFrame(cfg, d, pre.value, items);
        TouchedItemsSorted(cfg, d, src.entries);
      }
    }
  }

  lemma {:induction false} ApplyMixinsFrame(cfg: Config, d: nat, t: Value, es: Entries)
    requires t.Dict?
    ensures KeySet(t.entries) <= KeySet(ApplyMixins(cfg, d, t, es).value.entries)
    ensures forall k :: k !in MixinKeys(cfg, d, es) ==>
              Find(ApplyMixins(cfg, d, t, es).value.entries, k) == Find(t.entries, k)
  {
    var mv := Find(es, MixinKey);
    if mv.Some? && d > 0 {
      var m := ResolveGroups(cfg, d - 1, mv.value, Dict([]));
      ResolveKeepsInvariant(cfg, d - 1, mv.value, Dict([]));
    }
  }

  lemma {:induction false} MergeItemsFrame(cfg: Config, d: nat, t: Value, items: Entries)
    requires t.Dict?
    ensures KeySet(t.entries) <= KeySet(MergeItems(cfg, d, t, items).value.entries)
    ensures forall k :: k !in TouchedItems(cfg, d, items) ==>
              Find(MergeItems(cfg, d, t, items).value.entries, k) == Find(t.entries, k)
    decreases d, 2, |items|
  {
    if items != [] {
      var s := MergeItem(cfg, d, t, items[0].0, items[0].1);
      MergeItemFrame(cfg, d, t, items[0].0, items[0].1);
      if s.failure.None? {
        MergeItemsFrame(cfg, d, s.value, items[1..]);
      }
    }
  }

  lemma {:induction false} MergeItemFrame(cfg: Config, d: nat, t: Value, attr: string, val: Value)
    requires t.Dict?
    ensures KeySet(t.entries) <= KeySet(MergeItem(cfg, d, t, attr, val).value.entries)
    ensures forall k :: k !in TouchedItem(cfg, d, attr, val) ==>
              Find(MergeItem(cfg, d, t, attr, val).value.entries, k) == Find(t.entries, k)
    decreases d, 1, 0
  {
    if attr != MixinKey && attr in cfg.argmap {
      var w := Restore(cfg, attr, val);
      if w.Ok? && d > 0 {
        MergeFrame(cfg, d - 1, t, cfg.argmap[attr](w.value));
      }
    }
  }
}
