/** The permission groups of the package's own tests, resolved concretely:
    basic reads, an editor is a basic user who also writes, an admin is an
    editor who also creates and deletes. */
module Scenarios {
  import opened Values
  import opened Resolver
  import opened Overlay

  const T: Value := Atom("True")
  const F: Value := Atom("False")

  /** Every permission off. */
  const Defaults: Entries := [("read", F), ("write", F), ("create", F), ("delete", F)]
  const Basic: Entries := [("read", T)]
  const Editor: Entries := [("mixin", List([Str("basic")])), ("write", T)]
  const Admin: Entries := [("mixin", List([Str("editor")])), ("create", T), ("delete", T)]
  /** An editor whose read permission is put back to the default. */
  const BlindEditor: Entries := [("mixin", List([Str("editor")])), ("read", Sentinel)]

  /** The states the examples pass through. */
  const ReadOnly: Entries := [("read", T), ("write", F), ("create", F), ("delete", F)]
  const AsEditor: Entries := [("read", T), ("write", T)]
  const Mixed: Entries := [("read", T), ("write", T), ("create", F), ("delete", F)]
  const Created: Entries := [("read", T), ("write", T), ("create", T), ("delete", F)]
  const AllOn: Entries := [("read", T), ("write", T), ("create", T), ("delete", T)]
  const Blind: Entries := [("read", F), ("write", T), ("create", F), ("delete", F)]

  function Permissions(): Config
  {
    Config(map[DefaultName := Dict(Defaults), "basic" := Dict(Basic),
               "editor" := Dict(Editor), "admin" := Dict(Admin),
               "blindeditor" := Dict(BlindEditor)],
           map[])
  }

  /** The recursion budget the examples run with. */
  const Depth: nat := 3

  lemma {:induction false} DefaultsDistinct()
    ensures DistinctKeys(Defaults)
  {
    DistinctByIndex(Defaults);
  }

  lemma {:induction false} DefaultsPlain()
    ensures Plain(Permissions().argmap, Defaults)
  {
    KeyListHasKeys(Defaults);
    assert KeyList(Defaults) == ["read", "write", "create", "delete"];
  }

  /** Construction reproduces the defaults. */
  lemma {:induction false} DefaultsReproduced()
    ensures Merge(Permissions(), Depth, Dict([]), Dict(Defaults)) == Merged(Dict(Defaults), None)
  {
    DefaultsDistinct();
    DefaultsPlain();
    PlainDefaultReproduced(Permissions(), Depth, Dict(Defaults));
  }

  /** Resolving basic into any state switches read on and nothing else. */
  lemma {:induction false} BasicMerge(d: nat, t: Entries)
    ensures Merge(Permissions(), d, Dict(t), Dict(Basic)) == Merged(Dict(Put(t, "read", T)), None)
  {
    var cfg := Permissions();
    PlainIsSorted(cfg.argmap, Basic);
    assert Find(Basic, MixinKey) == None;
    assert ApplyMixins(cfg, d, Dict(t), Basic) == Merged(Dict(t), None);
    LeafItem(cfg, d, t, "read", T);
    assert Basic[1..] == [];
    assert MergeItems(cfg, d, Dict(t), Basic) == MergeItems(cfg, d, Dict(Put(t, "read", T)), []);
  }

  lemma {:induction false} ResolveBasicAlone()
    ensures ResolveGroups(Permissions(), 1, List([Str("basic")]), Dict([])) == Merged(Dict(Basic), None)
  {
    ResolveSingle(Permissions(), 1, "basic", Dict([]));
    BasicMerge(1, []);
  }

  lemma {:induction false} EditorMixins()
    ensures ApplyMixins(Permissions(), 2, Dict([]), Editor) == Merged(Dict(Basic), None)
  {
    ResolveBasicAlone();
    assert Find(Editor, MixinKey) == Some(List([Str("basic")]));
    assert UpdateWith([], Basic) == Basic;
  }

  lemma {:induction false} EditorItems()
    ensures MergeItems(Permissions(), 2, Dict(Basic), Editor) == Merged(Dict(AsEditor), None)
  {
    var cfg := Permissions();
    assert MergeItem(cfg, 2, Dict(Basic), MixinKey, List([Str("basic")])) == Merged(Dict(Basic), None);
    LeafItem(cfg, 2, Basic, "write", T);
    assert Put(Basic, "write", T) == AsEditor;
    assert Editor[1..] == [("write", T)] && Editor[1..][1..] == [];
    assert MergeItems(cfg, 2, Dict(Basic), Editor[1..]) == MergeItems(cfg, 2, Dict(AsEditor), []);
  }

  /** An editor's mixin brings in `read`. */
  lemma {:induction false} ResolveEditorAlone()
    ensures ResolveGroups(Permissions(), 2, List([Str("editor")]), Dict([])) == Merged(Dict(AsEditor), None)
  {
    var cfg := Permissions();
    ResolveSingle(cfg, 2, "editor", Dict([]));
    EditorMixins();
    PlainIsSorted(cfg.argmap, Editor);
    EditorItems();
  }

  lemma {:induction false} ReadOn()
    ensures Put(Defaults, "read", T) == ReadOnly
  {
  }

  lemma {:induction false} WriteOn()
    ensures Put(ReadOnly, "write", T) == Mixed
  {
  }

  lemma {:induction false} CreateOn()
    ensures Put(Mixed, "create", T) == Created
  {
    assert Find([("read", T), ("write", T)], "create") == None;
    PutExisting([("read", T), ("write", T)], "create", F, [("delete", F)], T);
    assert [("read", T), ("write", T)] + [("create", F)] + [("delete", F)] == Mixed;
  }

  lemma {:induction false} DeleteOn()
    ensures Put(Created, "delete", T) == AllOn
  {
    assert Find([("write", T), ("create", T)], "delete") == None;
    assert [("read", T), ("write", T), ("create", T)][1..] == [("write", T), ("create", T)];
    assert Find([("read", T), ("write", T), ("create", T)], "delete") == None;
    PutExisting([("read", T), ("write", T), ("create", T)], "delete", F, [], T);
    assert [("read", T), ("write", T), ("create", T)] + [("delete", F)] + [] == Created;
  }

  /** Editor's keys written over the defaults with a shallow update. */
  lemma {:induction false} EditorOverDefaults()
    ensures UpdateWith(Defaults, AsEditor) == Mixed
  {
    ReadOn();
    WriteOn();
    assert AsEditor[1..] == [("write", T)] && AsEditor[1..][1..] == [];
    assert UpdateWith(Defaults, AsEditor) == UpdateWith(ReadOnly, [("write", T)]);
    assert UpdateWith(ReadOnly, [("write", T)]) == UpdateWith(Mixed, []);
  }

  /** Admin's mixin resolves to an editor's keys, written over the target. */
  lemma {:induction false} AdminMixins()
    ensures ApplyMixins(Permissions(), Depth, Dict(Defaults), Admin) == Merged(Dict(Mixed), None)
  {
    ResolveEditorAlone();
    EditorOverDefaults();
    assert Find(Admin, MixinKey) == Some(List([Str("editor")]));
  }

  /** Admin's own keys switch on create and delete. */
  lemma {:induction false} AdminItems()
    ensures MergeItems(Permissions(), Depth, Dict(Mixed), Admin) == Merged(Dict(AllOn), None)
  {
    var cfg := Permissions();
    LeafItem(cfg, Depth, Mixed, "create", T);
    CreateOn();
    LeafItem(cfg, Depth, Created, "delete", T);
    DeleteOn();
    assert Admin[1..] == [("create", T), ("delete", T)] && Admin[1..][1..] == [("delete", T)];
    assert Admin[1..][1..][1..] == [];
    assert MergeItem(cfg, Depth, Dict(Mixed), MixinKey, List([Str("editor")])) == Merged(Dict(Mixed), None);
    assert MergeItems(cfg, Depth, Dict(Mixed), Admin) == MergeItems(cfg, Depth, Dict(Mixed), Admin[1..]);
    assert MergeItems(cfg, Depth, Dict(Mixed), Admin[1..]) == MergeItems(cfg, Depth, Dict(Created), Admin[1..][1..]);
    assert MergeItems(cfg, Depth, Dict(Created), Admin[1..][1..]) == MergeItems(cfg, Depth, Dict(AllOn), []);
  }

  /** `_resolve("admin")` on the defaults turns every permission on: the
      mixins are followed transitively, admin to editor to basic. */
  lemma {:induction false} ResolveAdmin()
    ensures ResolveGroups(Permissions(), Depth, ResolveArg(Str("admin")), Dict(Defaults))
         == Merged(Dict(AllOn), None)
  {
    var cfg := Permissions();
    ResolveSingle(cfg, Depth, "admin", Dict(Defaults));
    AdminMixins();
    PlainIsSorted(cfg.argmap, Admin);
    AdminItems();
  }

  /** `_resolve("basic")` after `_resolve("admin")` changes nothing: basic
      only mentions `read`, which admin already switched on. */
  lemma {:induction false} AdminThenBasic()
    ensures ResolveGroups(Permissions(), Depth, ResolveArg(Str("basic")), Dict(AllOn))
         == Merged(Dict(AllOn), None)
  {
    ResolveSingle(Permissions(), Depth, "basic", Dict(AllOn));
    BasicMerge(Depth, AllOn);
    assert Put(AllOn, "read", T) == AllOn;
  }

  /** `_resolve("basic")` on the defaults switches on read alone. */
  lemma {:induction false} BasicOverDefaults()
    ensures ResolveGroups(Permissions(), Depth, ResolveArg(Str("basic")), Dict(Defaults))
         == Merged(Dict(ReadOnly), None)
  {
    ResolveSingle(Permissions(), Depth, "basic", Dict(Defaults));
    BasicMerge(Depth, Defaults);
    ReadOn();
  }

  /** `_reset()` followed by `_resolve("basic")`: whatever was resolved
      before, only read is on. */
  lemma {:induction false} ResetThenBasic()
    ensures var reset := Merge(Permissions(), Depth, Dict([]), Permissions().groups[DefaultName]);
            reset == Merged(Dict(Defaults), None)
            && ResolveGroups(Permissions(), Depth, ResolveArg(Str("basic")), reset.value)
            == Merged(Dict(ReadOnly), None)
  {
    assert Permissions().groups[DefaultName] == Dict(Defaults);
    DefaultsReproduced();
    BasicOverDefaults();
  }

  /** The sentinel puts `read` back to the default's value after the editor
      mixin switched it on. */
  lemma {:induction false} BlindEditorItems()
    ensures MergeItems(Permissions(), Depth, Dict(Mixed), BlindEditor) == Merged(Dict(Blind), None)
  {
    var cfg := Permissions();
    assert Find(Defaults, "read") == Some(F);
    assert Restore(cfg, "read", Sentinel) == Ok(F);
    assert Put(Mixed, "read", F) == Blind;
    assert BlindEditor[1..] == [("read", Sentinel)] && BlindEditor[1..][1..] == [];
    assert MergeItem(cfg, Depth, Dict(Mixed), MixinKey, List([Str("editor")])) == Merged(Dict(Mixed), None);
    assert MergeItem(cfg, Depth, Dict(Mixed), "read", Sentinel) == Merged(Dict(Blind), None);
    assert MergeItems(cfg, Depth, Dict(Mixed), BlindEditor) == MergeItems(cfg, Depth, Dict(Mixed), BlindEditor[1..]);
    assert MergeItems(cfg, Depth, Dict(Mixed), BlindEditor[1..]) == MergeItems(cfg, Depth, Dict(Blind), []);
  }

  /** `_resolve("blindeditor")`: an editor who cannot read. */
  lemma {:induction false} ResolveBlindEditor()
    ensures ResolveGroups(Permissions(), Depth, ResolveArg(Str("blindeditor")), Dict(Defaults))
         == Merged(Dict(Blind), None)
  {
    var cfg := Permissions();
    ResolveSingle(cfg, Depth, "blindeditor", Dict(Defaults));
    ResolveEditorAlone();
    EditorOverDefaults();
    assert Find(BlindEditor, MixinKey) == Some(List([Str("editor")]));
    PlainIsSorted(cfg.argmap, BlindEditor);
    BlindEditorItems();
  }
}
