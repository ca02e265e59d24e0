/** The `Options` object: a registry of named option groups, the computed-key
    handlers, and the resolved options it updates in place. */
module Optr {
  import opened Values
  import opened Resolver
  import opened Laws

  class Options {
    /** `__groups`: the caller's groups over the seeded default group. */
    const groups: map<string, Value>
    /** `__argmap`: the computed keys and their handlers. */
    const argmap: map<string, Value -> Value>
    /** How deep `__update_dict` may recurse (Python's recursion limit). */
    const depth: nat
    /** `__opts`: the resolved options. */
    var opts: Entries

    function Cfg(): Config
    {
      Config(groups, argmap)
    }

    /** The default group is registered, the resolved options form a dict
        and no computed key is ever stored in them. */
    ghost predicate Valid()
      reads this
    {
      DefaultName in groups && DistinctKeys(opts) && NoComputedKeys(argmap, opts)
    }

    /** Lines 10-24: the registry and an empty state (lines 22-26 as a whole
        are `Create`). */
    constructor (groups: map<string, Value>, default: Option<Value>,
                 argmap: map<string, Value -> Value>, depth: nat)
      ensures this.groups == map[DefaultName := DefaultOr(default)] + groups
      ensures this.argmap == argmap && this.depth == depth
      ensures opts == [] && Valid()
    {
      this.groups := map[DefaultName := DefaultOr(default)] + groups;
      this.argmap := argmap;
      this.depth := depth;
      opts := [];
    }

    /** `Options(groups, default, argmap)`: the deep-copied default merged
        into an empty state. A non-`None` error is the exception `__init__`
        raises, after which the caller holds no object. */
    static method Create(groups: map<string, Value>, default: Option<Value>,
                         argmap: map<string, Value -> Value>, depth: nat)
      returns (o: Options, err: Option<Error>)
      ensures fresh(o) && o.Valid()
      ensures o.groups == map[DefaultName := DefaultOr(default)] + groups
      ensures o.argmap == argmap && o.depth == depth
      ensures var m := Merge(o.Cfg(), depth, Dict([]), DefaultOr(default));
              o.opts == m.value.entries && err == m.failure
    {
      o := new Options(groups, default, argmap, depth);
      err := o.Add(DefaultOr(default));
    }

    /** `_add(ndict)`: merge one dict into the resolved options. */
    method Add(ndict: Value) returns (err: Option<Error>)
      requires Valid()
      modifies this
      ensures Valid()
      ensures var m := Merge(Cfg(), depth, Dict(old(opts)), ndict);
              opts == m.value.entries && err == m.failure
    {
      var m := UpdateDict(depth, Dict(opts), ndict);
      MergeKeepsInvariant(Cfg(), depth, Dict(opts), ndict);
      opts := m.value.entries;
      err := m.failure;
    }

    /** `_resolve(groups)`: one group name, or a list of them, merged in order
        into the resolved options themselves. */
    method Resolve(names: Value) returns (err: Option<Error>)
      requires Valid()
      modifies this
      ensures Valid()
      ensures var m := ResolveGroups(Cfg(), depth, ResolveArg(names), Dict(old(opts)));
              opts == m.value.entries && err == m.failure
    {
      var listed := ResolveArg(names);
      var m := ResolveGroupsInto(depth, listed, Dict(opts));
      ResolveKeepsInvariant(Cfg(), depth, listed, Dict(opts));
      opts := m.value.entries;
      err := m.failure;
    }

    /** `_reset()`: the resolved options rebuilt from the registered default
        group alone. */
    method Reset() returns (err: Option<Error>)
      requires Valid()
      modifies this
      ensures Valid()
      ensures var m := Merge(Cfg(), depth, Dict([]), groups[DefaultName]);
              opts == m.value.entries && err == m.failure
    {
      opts := [];
      err := Add(groups[DefaultName]);
    }

    /** `__update_dict(odict, ndict)` on values: returns what `odict` has
        become, and the error raised, if any. */
    method UpdateDict(d: nat, odict: Value, ndict: Value) returns (r: Merged)
      ensures r == Merge(Cfg(), d, odict, ndict)
      decreases d, 3
    {
      if !ndict.Dict? {
        return Merged(odict, None);
      }
      var pre := MixIn(d, odict, ndict.entries);
      if pre.failure.Some? {
        return pre;
      }
      var t := pre.value;
      var items := ComputedFirst(argmap, ndict.entries);
      var i := 0;
      while i < |items|
        invariant 0 <= i <= |items|
        invariant MergeItems(Cfg(), d, t, items[i..]) == Merge(Cfg(), d, odict, ndict)
      {
        assert items[i..][1..] == items[i + 1..];
        var step := UpdateItem(d, t, items[i].0, items[i].1);
        if step.failure.Some? {
          return step;
        }
        t := step.value;
        i := i + 1;
      }
      return Merged(t, None);
    }

    /** One pass of the loop of lines 55-72: the item `attr: val` merged into
        `odict`. */
    method UpdateItem(d: nat, odict: Value, attr: string, val: Value) returns (r: Merged)
      ensures r == MergeItem(Cfg(), d, odict, attr, val)
      decreases d, 1
    {
      if attr == MixinKey {
        return Merged(odict, None);
      }
      var v := val;
      if v == Sentinel {
        var dv := DefaultFor(Cfg(), attr);
        if dv.Err? {
          return Merged(odict, Some(dv.error));
        }
        v := dv.value;
      }
      if attr in argmap {
        if d == 0 {
          return Merged(odict, Some(Exhausted));
        }
        r := UpdateDict(d - 1, odict, argmap[attr](v));
        return;
      }
      if !odict.Dict? {
        return Merged(odict, Some(TypeMismatch));
      }
      var cur := Find(odict.entries, attr);
      if v.Dict? && cur.Some? {
        if d == 0 {
          return Merged(odict, Some(Exhausted));
        }
        var n := UpdateDict(d - 1, cur.value, v);
        return Merged(Dict(Put(odict.entries, attr, n.value)), n.failure);
      }
      return Merged(Dict(Put(odict.entries, attr, v)), None);
    }

    /** Lines 47-49: the mixin groups resolved into a fresh dict and written
        over `odict` with a shallow `update`. */
    method MixIn(d: nat, odict: Value, es: Entries) returns (r: Merged)
      ensures r == ApplyMixins(Cfg(), d, odict, es)
      decreases d, 2
    {
      var mixin := Find(es, MixinKey);
      if mixin.None? {
        return Merged(odict, None);
      }
      if d == 0 {
        return Merged(odict, Some(Exhausted));
      }
      var m := ResolveGroupsInto(d - 1, mixin.value, Dict([]));
      if m.failure.Some? {
        return Merged(odict, m.failure);
      }
      if !odict.Dict? {
        return Merged(odict, Some(TypeMismatch));
      }
      return Merged(Dict(UpdateWith(odict.entries, m.value.entries)), None);
    }

    /** `__resolve_groups(groups, opts)`: each named group merged, in order,
        into `seed`. */
    method ResolveGroupsInto(d: nat, names: Value, seed: Value) returns (r: Merged)
      ensures r == ResolveGroups(Cfg(), d, names, seed)
      decreases d, 5
    {
      var listed := Iterate(names);
      if listed.Err? {
        return Merged(seed, Some(listed.error));
      }
      var ns := listed.value;
      var acc := seed;
      for i := 0 to |ns|
        invariant ResolveNames(Cfg(), d, ns[i..], acc) == ResolveGroups(Cfg(), d, names, seed)
      {
        assert ns[i..][1..] == ns[i + 1..];
        var g := GroupBody(Cfg(), ns[i]);
        if g.Err? {
          return Merged(acc, Some(g.error));
        }
        var m := UpdateDict(d, acc, g.value);
        if m.failure.Some? {
          return m;
        }
        acc := m.value;
      }
      return Merged(acc, None);
    }

    /** `keys()`: the resolved top-level keys, in order. */
    function Keys(): (ks: seq<string>)
      reads this
      requires Valid()
      ensures forall k :: k in ks <==> Find(opts, k).Some?
      ensures forall k :: k in ks ==> k !in argmap
    {
      KeyListHasKeys(opts);
      KeyList(opts)
    }

    /** `o[k]` (and `o.k`): the resolved value, or the KeyError. */
    function Get(k: string): (r: Result<Value>)
      reads this
      ensures r.Ok? <==> k in KeySet(opts)
      ensures r.Ok? ==> Find(opts, k) == Some(r.value)
      ensures r.Err? ==> r.error == MissingKey(k)
    {
      match Find(opts, k)
      case Some(v) => Ok(v)
      case None => Err(MissingKey(k))
    }
  }
}
