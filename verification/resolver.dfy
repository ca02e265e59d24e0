/** The merge engine of `Options` as pure functions over values.

    Python mutates the target dict in place and may raise half-way; every
    function here therefore returns a `Merged`: the target as it stands when
    the operation stops, and the error it stopped with, if any. */
module Resolver {
  import opened Values

  /** Name of the registry entry that holds the defaults. */
  const DefaultName: string := "default"
  /** A value equal to this string means "the default group's value for this key". */
  const Sentinel: Value := Str("__default__")
  /** The key whose value lists the groups mixed into a group. */
  const MixinKey: string := "mixin"

  datatype Error =
    | UnknownGroup(name: Value)   // KeyError from the registry lookup
    | MissingDefault(key: string) // KeyError from the default group lookup
    | TypeMismatch                // TypeError / AttributeError: a dict operation on a non-dict
    | Exhausted                   // the depth budget that stands for Python's recursion limit ran out
    | MissingKey(key: string)     // KeyError from reading the resolved options

  datatype Result<T> = Ok(value: T) | Err(error: Error)

  /** The target as it stands after a merge, and the error that stopped it. */
  datatype Merged = Merged(value: Value, failure: Option<Error>)

  /** The registry of groups and the computed-key handlers. */
  datatype Config = Config(groups: map<string, Value>, argmap: map<string, Value -> Value>)

  /** `default if default is not None else {}`. */
  function DefaultOr(default: Option<Value>): (r: Value)
    ensures default.Some? ==> r == default.value
    ensures default.None? ==> r == Dict([])
  {
    match default
    case Some(v) => v
    case None => Dict([])
  }

  /** `[groups] if isinstance(groups, str) else groups`. */
  function ResolveArg(names: Value): (r: Value)
    ensures names.Str? ==> Iterate(r) == Ok([names])
    ensures !names.Str? ==> Iterate(r) == Iterate(names)
  {
    if names.Str? then List([names]) else names
  }

  /** No key of the dict has a handler. */
  ghost predicate NoComputedKeys(argmap: map<string, Value -> Value>, es: Entries)
  {
    forall k :: k in KeySet(es) ==> k !in argmap
  }

  /** What `for x in v` yields: the characters of a string, the items of a
      list, the keys of a dict; any other value raises a TypeError. */
  function Iterate(v: Value): (r: Result<seq<Value>>)
    ensures r.Err? <==> v.Atom?
    ensures v.List? ==> r == Ok(v.items)
  {
    match v
    case Str(s) => Ok(seq(|s|, i requires 0 <= i < |s| => Str([s[i]])))
    case Atom(_) => Err(TypeMismatch)
    case List(items) => Ok(items)
    case Dict(es) => Ok(seq(|es|, i requires 0 <= i < |es| => Str(es[i].0)))
  }

  /** `self.__groups[name]`: lists and dicts are unhashable, any other name
      that is not a registered group name is a KeyError. */
  function GroupBody(cfg: Config, name: Value): (r: Result<Value>)
    ensures r.Ok? <==> name.Str? && name.s in cfg.groups
    ensures r.Ok? ==> r.value == cfg.groups[name.s]
  {
    match name
    case Str(s) => if s in cfg.groups then Ok(cfg.groups[s]) else Err(UnknownGroup(name))
    case Atom(_) => Err(UnknownGroup(name))
    case _ => Err(TypeMismatch)
  }

  /** `self.__groups["default"][attr]`. */
  function DefaultFor(cfg: Config, attr: string): (r: Result<Value>)
    ensures r.Ok? <==> DefaultName in cfg.groups && cfg.groups[DefaultName].Dict?
                       && attr in KeySet(cfg.groups[DefaultName].entries)
    ensures r.Ok? ==> Some(r.value) == Find(cfg.groups[DefaultName].entries, attr)
  {
    if DefaultName !in cfg.groups then Err(UnknownGroup(Str(DefaultName)))
    else match cfg.groups[DefaultName]
      case Dict(des) =>
        (match Find(des, attr)
         case Some(v) => Ok(v)
         case None => Err(MissingDefault(attr)))
      case _ => Err(TypeMismatch)
  }

  /** The value a group's item contributes once the sentinel is replaced. */
  function Restore(cfg: Config, attr: string, val: Value): (r: Result<Value>)
    ensures val != Sentinel ==> r == Ok(val)
    ensures val == Sentinel ==>
      (r.Ok? <==> DefaultName in cfg.groups && cfg.groups[DefaultName].Dict?
                  && attr in KeySet(cfg.groups[DefaultName].entries))
    ensures val == Sentinel && r.Ok? ==> Some(r.value) == Find(cfg.groups[DefaultName].entries, attr)
    ensures val == Sentinel ==> r == DefaultFor(cfg, attr)
  {
    if val == Sentinel then DefaultFor(cfg, attr) else Ok(val)
  }

  /** The items whose key has a handler, in their original order. */
  function ComputedItems(argmap: map<string, Value -> Value>, es: Entries): (r: Entries)
    ensures forall i :: 0 <= i < |r| ==> r[i] in es && r[i].0 in argmap
    ensures forall p :: p in es && p.0 in argmap ==> p in r
  {
    if es == [] then []
    else if es[0].0 in argmap then [es[0]] + ComputedItems(argmap, es[1..])
    else ComputedItems(argmap, es[1..])
  }

  /** The items whose key has no handler, in their original order. */
  function OrdinaryItems(argmap: map<string, Value -> Value>, es: Entries): (r: Entries)
    ensures forall i :: 0 <= i < |r| ==> r[i] in es && r[i].0 !in argmap
    ensures forall p :: p in es && p.0 !in argmap ==> p in r
  {
    if es == [] then []
    else if es[0].0 !in argmap then [es[0]] + OrdinaryItems(argmap, es[1..])
    else OrdinaryItems(argmap, es[1..])
  }

  /** The ordinary items of a dict keep its keys distinct. */
  lemma {:induction false} OrdinaryItemsDistinct(argmap: map<string, Value -> Value>, es: Entries)
    ensures KeySet(OrdinaryItems(argmap, es)) <= KeySet(es)
    ensures DistinctKeys(es) ==> DistinctKeys(OrdinaryItems(argmap, es))
  {
    if es != [] {
      OrdinaryItemsDistinct(argmap, es[1..]);
    }
  }

  /** `sorted(ndict.items(), key=lambda t: t[0] not in argmap)`: a stable sort
      on a boolean key puts the computed items first, each part in order. */
  function ComputedFirst(argmap: map<string, Value -> Value>, es: Entries): (r: Entries)
    ensures multiset(r) == multiset(es)
    ensures forall i, j :: 0 <= i < j < |r| && r[j].0 in argmap ==> r[i].0 in argmap
  {
    PartitionPermutes(argmap, es);
    ComputedItems(argmap, es) + OrdinaryItems(argmap, es)
  }

  lemma {:induction false} PartitionPermutes(argmap: map<string, Value -> Value>, es: Entries)
    ensures multiset(ComputedItems(argmap, es)) + multiset(OrdinaryItems(argmap, es)) == multiset(es)
  {
    if es != [] {
      PartitionPermutes(argmap, es[1..]);
      assert es == [es[0]] + es[1..];
      assert multiset(es) == multiset{es[0]} + multiset(es[1..]);
      if es[0].0 in argmap {
        assert ComputedItems(argmap, es) == [es[0]] + ComputedItems(argmap, es[1..]);
        assert OrdinaryItems(argmap, es) == OrdinaryItems(argmap, es[1..]);
      } else {
        assert ComputedItems(argmap, es) == ComputedItems(argmap, es[1..]);
        assert OrdinaryItems(argmap, es) == [es[0]] + OrdinaryItems(argmap, es[1..]);
      }
    }
  }

  lemma {:induction false} ComputedItemsConcat(argmap: map<string, Value -> Value>, a: Entries, b: Entries)
    ensures ComputedItems(argmap, a + b) == ComputedItems(argmap, a) + ComputedItems(argmap, b)
  {
    if a == [] {
      assert a + b == b;
    } else {
      assert (a + b)[0] == a[0] && (a + b)[1..] == a[1..] + b;
      ComputedItemsConcat(argmap, a[1..], b);
    }
  }

  lemma {:induction false} OrdinaryItemsConcat(argmap: map<string, Value -> Value>, a: Entries, b: Entries)
    ensures OrdinaryItems(argmap, a + b) == OrdinaryItems(argmap, a) + OrdinaryItems(argmap, b)
  {
    if a == [] {
      assert a + b == b;
    } else {
      assert (a + b)[0] == a[0] && (a + b)[1..] == a[1..] + b;
      OrdinaryItemsConcat(argmap, a[1..], b);
    }
  }

  /** Splitting the computed part again finds it all computed. */
  lemma {:induction false} ComputedPartSplit(argmap: map<string, Value -> Value>, es: Entries)
    ensures ComputedItems(argmap, ComputedItems(argmap, es)) == ComputedItems(argmap, es)
    ensures OrdinaryItems(argmap, ComputedItems(argmap, es)) == []
  {
    if es != [] {
      ComputedPartSplit(argmap, es[1..]);
      var rest := ComputedItems(argmap, es[1..]);
      if es[0].0 in argmap {
        assert ([es[0]] + rest)[1..] == rest;
      }
    }
  }

  /** Splitting the ordinary part again finds it all ordinary. */
  lemma {:induction false} OrdinaryPartSplit(argmap: map<string, Value -> Value>, es: Entries)
    ensures ComputedItems(argmap, OrdinaryItems(argmap, es)) == []
    ensures OrdinaryItems(argmap, OrdinaryItems(argmap, es)) == OrdinaryItems(argmap, es)
  {
    if es != [] {
      OrdinaryPartSplit(argmap, es[1..]);
      var rest := OrdinaryItems(argmap, es[1..]);
      if es[0].0 !in argmap {
        assert ([es[0]] + rest)[1..] == rest;
      }
    }
  }

  /** The sort of line 53 is stable: the computed items come out in the order
      they went in, and so do the ordinary ones. */
  lemma {:induction false} SortIsStable(argmap: map<string, Value -> Value>, es: Entries)
    ensures ComputedItems(argmap, ComputedFirst(argmap, es)) == ComputedItems(argmap, es)
    ensures OrdinaryItems(argmap, ComputedFirst(argmap, es)) == OrdinaryItems(argmap, es)
  {
    var cs, os := ComputedItems(argmap, es), OrdinaryItems(argmap, es);
    assert ComputedFirst(argmap, es) == cs + os;
    ComputedItemsConcat(argmap, cs, os);
    OrdinaryItemsConcat(argmap, cs, os);
    ComputedPartSplit(argmap, es);
    OrdinaryPartSplit(argmap, es);
    assert cs + [] == cs && [] + os == os;
  }

  /** `__update_dict(odict, ndict)` with `d` further levels of recursion allowed. */
  function Merge(cfg: Config, d: nat, t: Value, src: Value): (r: Merged)
    ensures r.value.Dict? == t.Dict?
    ensures !t.Dict? ==> r.value == t
    decreases d, 3, 0
  {
    if !src.Dict? then Merged(t, None)
    else
      var pre := ApplyMixins(cfg, d, t, src.entries);
      if pre.failure.Some? then pre
      else MergeItems(cfg, d, pre.value, ComputedFirst(cfg.argmap, src.entries))
  }

  /** Lines 47-49: the mixin groups resolved into a fresh dict, then written
      over the target with a shallow `update`. */
  function ApplyMixins(cfg: Config, d: nat, t: Value, es: Entries): (r: Merged)
    ensures r.value.Dict? == t.Dict?
    ensures !t.Dict? ==> r.value == t
    decreases d, 2, 0
  {
    match Find(es, MixinKey)
    case None => Merged(t, None)
    case Some(mv) =>
      if d == 0 then Merged(t, Some(Exhausted))
      else
        var m := ResolveGroups(cfg, d - 1, mv, Dict([]));
        if m.failure.Some? then Merged(t, m.failure)
        else if !t.Dict? then Merged(t, Some(TypeMismatch))
        else Merged(Dict(UpdateWith(t.entries, m.value.entries)), None)
  }

  /** The loop of lines 55-72 over the sorted items. */
  function MergeItems(cfg: Config, d: nat, t: Value, items: Entries): (r: Merged)
    ensures r.value.Dict? == t.Dict?
    ensures !t.Dict? ==> r.value == t
    decreases d, 2, |items|
  {
    if items == [] then Merged(t, None)
    else
      var s := MergeItem(cfg, d, t, items[0].0, items[0].1);
      if s.failure.Some? then s
      else MergeItems(cfg, d, s.value, items[1..])
  }

  /** One iteration of the loop of lines 55-72. */
  function MergeItem(cfg: Config, d: nat, t: Value, attr: string, val: Value): (r: Merged)
    ensures r.value.Dict? == t.Dict?
    ensures !t.Dict? ==> r.value == t
    decreases d, 1, 0
  {
    if attr == MixinKey then Merged(t, None)
    else match Restore(cfg, attr, val)
      case Err(e) => Merged(t, Some(e))
      case Ok(w) =>
        if attr in cfg.argmap then
          if d == 0 then Merged(t, Some(Exhausted))
          else Merge(cfg, d - 1, t, cfg.argmap[attr](w))
        else if !t.Dict? then Merged(t, Some(TypeMismatch))
        else match Find(t.entries, attr)
          case Some(cur) =>
            if !w.Dict? then Merged(Dict(Put(t.entries, attr, w)), None)
            else if d == 0 then Merged(t, Some(Exhausted))
            else
              var n := Merge(cfg, d - 1, cur, w);
              Merged(Dict(Put(t.entries, attr, n.value)), n.failure)
          case None => Merged(Dict(Put(t.entries, attr, w)), None)
  }

  /** `__resolve_groups(groups, opts)`: each named group merged, in order,
      into `seed`. */
  function ResolveGroups(cfg: Config, d: nat, groups: Value, seed: Value): (r: Merged)
    ensures r.value.Dict? == seed.Dict?
    ensures !seed.Dict? ==> r.value == seed
    decreases d, 5, 0
  {
    match Iterate(groups)
    case Err(e) => Merged(seed, Some(e))
    case Ok(names) => ResolveNames(cfg, d, names, seed)
  }

  function ResolveNames(cfg: Config, d: nat, names: seq<Value>, acc: Value): (r: Merged)
    ensures r.value.Dict? == acc.Dict?
    ensures !acc.Dict? ==> r.value == acc
    decreases d, 4, |names|
  {
    if names == [] then Merged(acc, None)
    else match GroupBody(cfg, names[0])
      case Err(e) => Merged(acc, Some(e))
      case Ok(g) =>
        var m := Merge(cfg, d, acc, g);
        if m.failure.Some? then m
        else ResolveNames(cfg, d, names[1..], m.value)
  }
}
