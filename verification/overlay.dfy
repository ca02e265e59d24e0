/** How the items of one group land in the target: precedence between
    mixins, computed keys and ordinary keys, the sentinel, deep merge, and
    resolving several groups. */
module Overlay {
  import opened Values
  import opened Resolver
  import opened Laws

  /** A group with neither a mixin list nor a computed key at its top level. */
  ghost predicate Plain(argmap: map<string, Value -> Value>, es: Entries)
  {
    MixinKey !in KeySet(es) && NoComputedKeys(argmap, es)
  }

  /** What merging the plain group `g` leaves at key `k` of the dict `t`,
      described key by key: keys `g` does not mention keep their value; a
      dict value for a key that already exists is merged into the existing
      value; any other value replaces it (`None` where the merge fails). */
  ghost function OverlayAt(cfg: Config, d: nat, t: Entries, g: Entries, k: string): Option<Value>
  {
    match Find(g, k)
    case None => Find(t, k)
    case Some(v) =>
      match Restore(cfg, k, v)
      case Err(_) => None
      case Ok(w) =>
        match Find(t, k)
        case Some(cur) =>
          if !w.Dict? then Some(w)
          else if d == 0 then None
          else Some(Merge(cfg, d - 1, cur, w).value)
        case None => Some(w)
  }

  lemma {:induction false} PlainPartition(argmap: map<string, Value -> Value>, es: Entries)
    requires NoComputedKeys(argmap, es)
    ensures ComputedItems(argmap, es) == [] && OrdinaryItems(argmap, es) == es
  {
    if es != [] {
      assert es[0].0 in KeySet(es);
      PlainPartition(argmap, es[1..]);
      assert [es[0]] + es[1..] == es;
    }
  }

  lemma {:induction false} PlainIsSorted(argmap: map<string, Value -> Value>, es: Entries)
    requires NoComputedKeys(argmap, es)
    ensures ComputedFirst(argmap, es) == es
  {
    PlainPartition(argmap, es);
    assert [] + es == es;
  }

  lemma {:induction false} PlainItemsOverlay(cfg: Config, d: nat, t: Value, items: Entries, k: string)
    requires t.Dict? && DistinctKeys(items) && Plain(cfg.argmap, items)
    requires MergeItems(cfg, d, t, items).failure.None?
    ensures Find(MergeItems(cfg, d, t, items).value.entries, k) == OverlayAt(cfg, d, t.entries, items, k)
    decreases |items|
  {
    if items != [] {
      var (a, v) := items[0];
      var s := MergeItem(cfg, d, t, a, v);
      assert s.failure.None?;
      PlainItemsOverlay(cfg, d, s.value, items[1..], k);
      if a == k {
        assert Find(items[1..], k).None?;
      }
    }
  }

  /** Merging a plain group is a key-by-key overlay, as `OverlayAt` says. */
  lemma {:induction false} PlainOverlay(cfg: Config, d: nat, t: Value, g: Value)
    requires t.Dict? && g.Dict? && DistinctKeys(g.entries) && Plain(cfg.argmap, g.entries)
    requires Merge(cfg, d, t, g).failure.None?
    ensures forall k :: Find(Merge(cfg, d, t, g).value.entries, k) == OverlayAt(cfg, d, t.entries, g.entries, k)
  {
    PlainIsSorted(cfg.argmap, g.entries);
    assert ApplyMixins(cfg, d, t, g.entries) == Merged(t, None);
    forall k ensures Find(Merge(cfg, d, t, g).value.entries, k) == OverlayAt(cfg, d, t.entries, g.entries, k) {
      PlainItemsOverlay(cfg, d, t, g.entries, k);
    }
  }

  lemma {:induction false} PlainTouchedItems(cfg: Config, d: nat, es: Entries)
    requires Plain(cfg.argmap, es)
    ensures TouchedItems(cfg, d, es) == KeySet(es)
  {
    if es != [] {
      PlainTouchedItems(cfg, d, es[1..]);
    }
  }

  /** A plain dict may write exactly its own keys. */
  lemma {:induction false} PlainTouched(cfg: Config, d: nat, es: Entries)
    requires Plain(cfg.argmap, es)
    ensures Touched(cfg, d, Dict(es)) == KeySet(es)
  {
    PlainTouchedItems(cfg, d, es);
    assert Find(es, MixinKey).None?;
    assert MixinKeys(cfg, d, es) == {};
  }

  /** In a plain group, a dict value for a key that already exists is merged
      into the existing value, one level deeper. */
  lemma {:induction false} PlainNestedMerge(cfg: Config, d: nat, t: Value, g: Value, k: string, inner: Entries)
    requires t.Dict? && g.Dict? && DistinctKeys(g.entries) && Plain(cfg.argmap, g.entries)
    requires Find(g.entries, k) == Some(Dict(inner)) && Find(t.entries, k).Some?
    requires Merge(cfg, d, t, g).failure.None?
    ensures d > 0
    ensures Find(Merge(cfg, d, t, g).value.entries, k)
         == Some(Merge(cfg, d - 1, Find(t.entries, k).value, Dict(inner)).value)
  {
    var r := Merge(cfg, d, t, g).value.entries;
    PlainOverlay(cfg, d, t, g);
    assert Find(r, k) == OverlayAt(cfg, d, t.entries, g.entries, k);
    MergeFrame(cfg, d, t, g);
    assert k in KeySet(r);
    assert Restore(cfg, k, Dict(inner)) == Ok(Dict(inner));
  }

  /** Deep merge: the nested keys the value does not mention survive. The
      merge is given at least one level of budget, which the nested merge
      needs. */
  lemma {:induction false} DeepMergeKeepsSiblings(cfg: Config, e: nat, t: Value, g: Value, k: string,
                                                  inner: Entries, nested: Entries, j: string)
    requires t.Dict? && g.Dict? && DistinctKeys(g.entries) && Plain(cfg.argmap, g.entries)
    requires Find(g.entries, k) == Some(Dict(inner)) && Plain(cfg.argmap, inner)
    requires Find(t.entries, k) == Some(Dict(nested)) && j !in KeySet(inner)
    requires Merge(cfg, e + 1, t, g).failure.None?
    ensures Find(Merge(cfg, e + 1, t, g).value.entries, k).Some?
    ensures var r := Find(Merge(cfg, e + 1, t, g).value.entries, k).value;
            r.Dict? && Find(r.entries, j) == Find(nested, j)
  {
    PlainNestedMerge(cfg, e + 1, t, g, k, inner);
    PlainKeepsOtherKeys(cfg, e, Dict(nested), inner, j);
  }

  /** Merging a plain dict leaves the keys it does not mention as they were. */
  lemma {:induction false} PlainKeepsOtherKeys(cfg: Config, d: nat, t: Value, es: Entries, j: string)
    requires t.Dict? && Plain(cfg.argmap, es) && j !in KeySet(es)
    ensures Find(Merge(cfg, d, t, Dict(es)).value.entries, j) == Find(t.entries, j)
  {
    PlainTouched(cfg, d, es);
    MergeFrame(cfg, d, t, Dict(es));
  }

  lemma {:induction false} PlainItemsReproduced(cfg: Config, d: nat, pre: Entries, rest: Entries)
    requires DistinctKeys(pre + rest) && Plain(cfg.argmap, rest)
    requires forall i :: 0 <= i < |rest| ==> rest[i].1 != Sentinel
    ensures MergeItems(cfg, d, Dict(pre), rest) == Merged(Dict(pre + rest), None)
    decreases |rest|
  {
    if rest == [] {
      assert pre + rest == pre;
    } else {
      var (k, v) := rest[0];
      DistinctConcat(pre, rest);
      assert k !in KeySet(pre);
      PutNew(pre, k, v);
      assert (pre + [(k, v)]) + rest[1..] == pre + rest;
      PlainItemsReproduced(cfg, d, pre + [(k, v)], rest[1..]);
    }
  }

  /** A default group without mixins, computed keys or sentinels at its top
      level is reproduced exactly when merged into an empty state. */
  lemma {:induction false} PlainDefaultReproduced(cfg: Config, d: nat, g: Value)
    requires g.Dict? && DistinctKeys(g.entries) && Plain(cfg.argmap, g.entries)
    requires forall i :: 0 <= i < |g.entries| ==> g.entries[i].1 != Sentinel
    ensures Merge(cfg, d, Dict([]), g) == Merged(g, None)
  {
    PlainIsSorted(cfg.argmap, g.entries);
    assert ApplyMixins(cfg, d, Dict([]), g.entries) == Merged(Dict([]), None);
    assert [] + g.entries == g.entries;
    PlainItemsReproduced(cfg, d, [], g.entries);
  }

  /** An object built without a default starts from an empty state. */
  lemma {:induction false} NoDefaultLeavesEmpty(cfg: Config, d: nat)
    ensures Merge(cfg, d, Dict([]), DefaultOr(None)) == Merged(Dict([]), None)
  {
    assert ComputedFirst(cfg.argmap, []) == [];
  }

  lemma {:induction false} ItemsLeafWins(cfg: Config, d: nat, t: Value, items: Entries, idx: nat, w: Value)
    requires t.Dict? && idx < |items|
    requires items[idx].0 != MixinKey && items[idx].0 !in cfg.argmap
    requires Restore(cfg, items[idx].0, items[idx].1) == Ok(w) && !w.Dict?
    requires forall j :: idx < j < |items| ==> items[j].0 != items[idx].0 && items[j].0 !in cfg.argmap
    requires MergeItems(cfg, d, t, items).failure.None?
    ensures Find(MergeItems(cfg, d, t, items).value.entries, items[idx].0) == Some(w)
    decreases idx
  {
    var k := items[idx].0;
    var s := MergeItem(cfg, d, t, items[0].0, items[0].1);
    assert s.failure.None?;
    if idx == 0 {
      assert Find(s.value.entries, k) == Some(w);
      MergeItemsFrame(cfg, d, s.value, items[1..]);
      TouchedItemsMember(cfg, d, items[1..], k);
      assert k !in TouchedItems(cfg, d, items[1..]);
    } else {
      ItemsLeafWins(cfg, d, s.value, items[1..], idx - 1, w);
    }
  }

  /** Computed keys go first and the mixins before both, so an ordinary key
      of the group whose value is not a dict has the last word: whatever the
      mixins and the computed keys' fragments wrote there, the group's own
      value (with the sentinel replaced) is what the key holds. */
  lemma {:induction false} OrdinaryLeafWins(cfg: Config, d: nat, t: Value, g: Value, k: string, v: Value, w: Value)
    requires t.Dict? && g.Dict? && DistinctKeys(g.entries) && (k, v) in g.entries
    requires k != MixinKey && k !in cfg.argmap
    requires Restore(cfg, k, v) == Ok(w) && !w.Dict?
    requires Merge(cfg, d, t, g).failure.None?
    ensures Find(Merge(cfg, d, t, g).value.entries, k) == Some(w)
  {
    var pre := ApplyMixins(cfg, d, t, g.entries);
    assert pre.failure.None?;
    var idx := SortedPosition(cfg.argmap, g.entries, k, v);
    ItemsLeafWins(cfg, d, pre.value, ComputedFirst(cfg.argmap, g.entries), idx, w);
  }

  /** Where an ordinary item sits after the sort: only ordinary items with
      other keys come after it. */
  lemma {:induction false} SortedPosition(argmap: map<string, Value -> Value>, es: Entries, k: string, v: Value) returns (idx: nat)
    requires DistinctKeys(es) && (k, v) in es && k !in argmap
    ensures var items := ComputedFirst(argmap, es);
            idx < |items| && items[idx] == (k, v)
            && forall i :: idx < i < |items| ==> items[i].0 != k && items[i].0 !in argmap
  {
    var cs, os := ComputedItems(argmap, es), OrdinaryItems(argmap, es);
    var items := ComputedFirst(argmap, es);
    assert items == cs + os;
    assert (k, v) in os;
    var j :| 0 <= j < |os| && os[j] == (k, v);
    idx := |cs| + j;
    assert items[idx] == (k, v);
    OrdinaryItemsDistinct(argmap, es);
    OrdinaryTail(argmap, cs, os, j);
  }

  /** Behind the `j`-th ordinary item come only ordinary items with other keys. */
  lemma {:induction false} OrdinaryTail(argmap: map<string, Value -> Value>, cs: Entries, os: Entries, j: nat)
    requires DistinctKeys(os) && j < |os| && forall i :: 0 <= i < |os| ==> os[i].0 !in argmap
    ensures forall i :: |cs| + j < i < |cs + os| ==> (cs + os)[i].0 != os[j].0 && (cs + os)[i].0 !in argmap
  {
    forall i | |cs| + j < i < |cs + os| ensures (cs + os)[i].0 != os[j].0 && (cs + os)[i].0 !in argmap {
      var n := i - |cs|;
      assert (cs + os)[i] == os[n];
      DistinctIndex(os, j, n);
    }
  }

  /** The mixins' keys survive unless the group's own items may write them:
      after the merge, such a key holds what the mixin groups resolved to. */
  lemma {:induction false} MixinSurvives(cfg: Config, d: nat, t: Value, g: Value, mv: Value, k: string)
    requires t.Dict? && g.Dict? && Find(g.entries, MixinKey) == Some(mv) && d > 0
    requires ResolveGroups(cfg, d - 1, mv, Dict([])).failure.None?
    requires k in KeySet(ResolveGroups(cfg, d - 1, mv, Dict([])).value.entries)
    requires k !in TouchedItems(cfg, d, g.entries)
    ensures Find(Merge(cfg, d, t, g).value.entries, k)
         == Find(ResolveGroups(cfg, d - 1, mv, Dict([])).value.entries, k)
  {
    var m := ResolveGroups(cfg, d - 1, mv, Dict([]));
    ResolveKeepsInvariant(cfg, d - 1, mv, Dict([]));
    var pre := ApplyMixins(cfg, d, t, g.entries);
    assert Find(pre.value.entries, k) == Find(m.value.entries, k);
    MergeItemsFrame(cfg, d, pre.value, ComputedFirst(cfg.argmap, g.entries));
    TouchedItemsSorted(cfg, d, g.entries);
  }

  lemma {:induction false} ItemsHitFailure(cfg: Config, d: nat, t: Value, items: Entries, idx: nat)
    requires idx < |items| && items[idx].0 != MixinKey
    requires Restore(cfg, items[idx].0, items[idx].1).Err?
    ensures MergeItems(cfg, d, t, items).failure.Some?
    decreases idx
  {
    var s := MergeItem(cfg, d, t, items[0].0, items[0].1);
    if idx > 0 && s.failure.None? {
      ItemsHitFailure(cfg, d, s.value, items[1..], idx - 1);
    }
  }

  /** An ordinary item whose value is neither a dict nor the sentinel is
      written as it is (`odict[attr] = val`). */
  lemma {:induction false} LeafItem(cfg: Config, d: nat, t: Entries, attr: string, w: Value)
    requires attr != MixinKey && attr !in cfg.argmap && w != Sentinel && !w.Dict?
    ensures MergeItem(cfg, d, Dict(t), attr, w) == Merged(Dict(Put(t, attr, w)), None)
  {
  }

  /** A dict value for an ordinary key that already exists is merged into
      the existing value one level down, and the result stored there. */
  lemma {:induction false} NestedItem(cfg: Config, d: nat, t: Entries, attr: string, w: Value, cur: Value)
    requires attr != MixinKey && attr !in cfg.argmap && w.Dict? && Find(t, attr) == Some(cur) && d > 0
    ensures var n := Merge(cfg, d - 1, cur, w);
            MergeItem(cfg, d, Dict(t), attr, w) == Merged(Dict(Put(t, attr, n.value)), n.failure)
  {
    assert w != Sentinel;
  }

  /** A computed key is not stored: its handler's fragment is merged into
      the target one level down. */
  lemma {:induction false} ComputedItem(cfg: Config, d: nat, t: Value, attr: string, v: Value)
    requires attr != MixinKey && attr in cfg.argmap && v != Sentinel && d > 0
    ensures MergeItem(cfg, d, t, attr, v) == Merge(cfg, d - 1, t, cfg.argmap[attr](v))
  {
  }

  /** Merging a one-item dict is merging its item. */
  lemma {:induction false} SingleItem(cfg: Config, d: nat, t: Value, k: string, v: Value)
    requires k != MixinKey
    ensures Merge(cfg, d, t, Dict([(k, v)])) == MergeItem(cfg, d, t, k, v)
  {
    var es := [(k, v)];
    assert es[1..] == [];
    assert ComputedFirst(cfg.argmap, es) == es;
    assert Find(es, MixinKey) == None;
    var r := MergeItem(cfg, d, t, k, v);
    assert MergeItems(cfg, d, t, es) == if r.failure.Some? then r else MergeItems(cfg, d, r.value, []);
  }

  /** A sentinel for a key the default group lacks makes the merge fail,
      whichever kind of key carries it. */
  lemma {:induction false} SentinelWithoutDefaultFails(cfg: Config, d: nat, t: Value, g: Value, k: string)
    requires g.Dict? && (k, Sentinel) in g.entries && k != MixinKey
    requires DefaultFor(cfg, k).Err?
    ensures Merge(cfg, d, t, g).failure.Some?
  {
    var pre := ApplyMixins(cfg, d, t, g.entries);
    if pre.failure.None? {
      var items := ComputedFirst(cfg.argmap, g.entries);
      assert (k, Sentinel) in multiset(g.entries);
      assert (k, Sentinel) in items;
      var idx :| 0 <= idx < |items| && items[idx] == (k, Sentinel);
      ItemsHitFailure(cfg, d, pre.value, items, idx);
    }
  }

  lemma {:induction false} ResolveNamesAppend(cfg: Config, d: nat, n1: seq<Value>, n2: seq<Value>, acc: Value)
    ensures ResolveNames(cfg, d, n1 + n2, acc)
         == var m := ResolveNames(cfg, d, n1, acc);
            if m.failure.Some? then m else ResolveNames(cfg, d, n2, m.value)
  {
    if n1 == [] {
      assert n1 + n2 == n2;
    } else {
      assert (n1 + n2)[0] == n1[0] && (n1 + n2)[1..] == n1[1..] + n2;
      var g := GroupBody(cfg, n1[0]);
      if g.Ok? {
        var m := Merge(cfg, d, acc, g.value);
        if m.failure.None? {
          ResolveNamesAppend(cfg, d, n1[1..], n2, m.value);
        }
      }
    }
  }

  /** `_resolve(name)`: a registered group is merged into the state; an
      unregistered name fails and leaves the state as it was. */
  lemma {:induction false} ResolveSingle(cfg: Config, d: nat, name: string, seed: Value)
    ensures ResolveGroups(cfg, d, ResolveArg(Str(name)), seed)
         == if name in cfg.groups then Merge(cfg, d, seed, cfg.groups[name])
            else Merged(seed, Some(UnknownGroup(Str(name))))
  {
    var names := [Str(name)];
    assert names[1..] == [];
    assert ResolveArg(Str(name)) == List(names);
    if name in cfg.groups {
      var m := Merge(cfg, d, seed, cfg.groups[name]);
      assert ResolveNames(cfg, d, names, seed) == if m.failure.Some? then m else ResolveNames(cfg, d, [], m.value);
    }
  }

  /** Resolving a list of group names is resolving them one at a time, left
      to right: `_resolve([a, b])` is `_resolve(a)` followed by `_resolve(b)`,
      and later groups win. */
  lemma {:induction false} ResolveListIsSequential(cfg: Config, d: nat, a: string, b: string, seed: Value)
    ensures ResolveGroups(cfg, d, List([Str(a), Str(b)]), seed)
         == var m := ResolveGroups(cfg, d, ResolveArg(Str(a)), seed);
            if m.failure.Some? then m else ResolveGroups(cfg, d, ResolveArg(Str(b)), m.value)
  {
    ResolveNamesAppend(cfg, d, [Str(a)], [Str(b)], seed);
    assert [Str(a)] + [Str(b)] == [Str(a), Str(b)];
  }

  lemma {:induction false} ResolveNamesUnknownFails(cfg: Config, d: nat, names: seq<Value>, acc: Value, i: nat)
    requires i < |names| && GroupBody(cfg, names[i]).Err?
    ensures ResolveNames(cfg, d, names, acc).failure.Some?
  {
    if i > 0 {
      var g := GroupBody(cfg, names[0]);
      if g.Ok? {
        var m := Merge(cfg, d, acc, g.value);
        if m.failure.None? {
          ResolveNamesUnknownFails(cfg, d, names[1..], m.value, i - 1);
        }
      }
    }
  }

  /** Resolving a list that names an unregistered group fails. */
  lemma {:induction false} ResolveUnknownFails(cfg: Config, d: nat, names: seq<string>, seed: Value, i: nat)
    requires i < |names| && names[i] !in cfg.groups
    ensures ResolveGroups(cfg, d, List(seq(|names|, n requires 0 <= n < |names| => Str(names[n]))), seed).failure.Some?
  {
    var listed := seq(|names|, n requires 0 <= n < |names| => Str(names[n]));
    ResolveNamesUnknownFails(cfg, d, listed, seed, i);
  }

  /** A registered group whose body is not a dict is a silent no-op. */
  lemma {:induction false} NonDictGroupIsNoOp(cfg: Config, d: nat, name: string, seed: Value)
    requires name in cfg.groups && !cfg.groups[name].Dict?
    ensures ResolveGroups(cfg, d, ResolveArg(Str(name)), seed) == Merged(seed, None)
  {
    ResolveSingle(cfg, d, name, seed);
  }

  /** In `_resolve([a, b])` the later group wins: a key that `b` itself sets
      to a leaf holds that leaf afterwards, whatever `a` wrote there. */
  lemma {:induction false} LaterGroupWins(cfg: Config, d: nat, a: string, b: string, seed: Value, k: string, v: Value)
    requires a in cfg.groups && b in cfg.groups && seed.Dict?
    requires cfg.groups[b].Dict? && DistinctKeys(cfg.groups[b].entries) && (k, v) in cfg.groups[b].entries
    requires k != MixinKey && k !in cfg.argmap && v != Sentinel && !v.Dict?
    requires ResolveGroups(cfg, d, List([Str(a), Str(b)]), seed).failure.None?
    ensures Find(ResolveGroups(cfg, d, List([Str(a), Str(b)]), seed).value.entries, k) == Some(v)
  {
    ResolveListIsSequential(cfg, d, a, b, seed);
    ResolveSingle(cfg, d, a, seed);
    var m := Merge(cfg, d, seed, cfg.groups[a]);
    assert m.failure.None?;
    ResolveSingle(cfg, d, b, m.value);
    OrdinaryLeafWins(cfg, d, m.value, cfg.groups[b], k, v, v);
  }
}
