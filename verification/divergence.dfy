/** Merging the same group twice is not always the same as merging it once:
    a dict stored under a new key is stored raw, so a sentinel inside it is
    kept the first time and replaced the second time, when the key exists
    and the dict is merged into it. */
module Divergence {
  import opened Values
  import opened Resolver
  import opened Overlay

  const One: Value := Atom("1")
  /** A nested dict holding the sentinel. */
  const Inner: Entries := [("x", Sentinel)]
  const Group: Entries := [("a", Dict(Inner))]

  function Registry(): Config
  {
    Config(map[DefaultName := Dict([("x", One)]), "g" := Dict(Group)], map[])
  }

  /** The first merge stores the group as it is, sentinel included. */
  lemma {:induction false} FirstMergeStoresRaw()
    ensures Merge(Registry(), 2, Dict([]), Dict(Group)) == Merged(Dict(Group), None)
  {
    var cfg := Registry();
    assert KeySet(Group) == {"a"};
    PlainDefaultReproduced(cfg, 2, Dict(Group));
  }

  /** Inside the nested dict the sentinel is replaced by the top-level
      default's value. */
  lemma {:induction false} InnerRestored()
    ensures Merge(Registry(), 1, Dict(Inner), Dict(Inner)) == Merged(Dict([("x", One)]), None)
  {
    var cfg := Registry();
    SingleItem(cfg, 1, Dict(Inner), "x", Sentinel);
    assert Find([("x", One)], "x") == Some(One);
    assert Restore(cfg, "x", Sentinel) == Ok(One);
    assert Put(Inner, "x", One) == [("x", One)];
  }

  /** The second merge finds `a` present and merges into it. */
  lemma {:induction false} SecondMergeRestores()
    ensures Merge(Registry(), 2, Dict(Group), Dict(Group)) == Merged(Dict([("a", Dict([("x", One)]))]), None)
  {
    var cfg := Registry();
    SingleItem(cfg, 2, Dict(Group), "a", Dict(Inner));
    NestedItem(cfg, 2, Group, "a", Dict(Inner), Dict(Inner));
    InnerRestored();
    assert Put(Group, "a", Dict([("x", One)])) == [("a", Dict([("x", One)]))];
  }

  /** `_resolve("g")` twice from an empty state does not give the state
      `_resolve("g")` once gives. */
  lemma {:induction false} ResolveTwiceDiffers()
    ensures var once := ResolveGroups(Registry(), 2, ResolveArg(Str("g")), Dict([]));
            var twice := ResolveGroups(Registry(), 2, ResolveArg(Str("g")), once.value);
            once == Merged(Dict(Group), None) && twice.value != once.value
  {
    var cfg := Registry();
    ResolveSingle(cfg, 2, "g", Dict([]));
    FirstMergeStoresRaw();
    ResolveSingle(cfg, 2, "g", Dict(Group));
    SecondMergeRestores();
    assert Dict([("x", One)]) != Dict(Inner);
    assert Find([("a", Dict([("x", One)]))], "a") != Find(Group, "a");
  }
}
