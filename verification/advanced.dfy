/** The package's computed-key example: `optimise_level` is not stored but
    expands, through its handler, into graphics and sound settings. */
module Advanced {
  import opened Values
  import opened Resolver
  import opened Overlay

  const Driver: string := "REALTEK_DRIVER_0.0.1"
  const FilterOn: Value := Str("__SOUND_FILTER_ON")
  const FilterOff: Value := Str("__SOUND_FILTER_OFF")

  const Sound: Entries := [("LOUD", Str("very")), (Driver, FilterOn)]
  const QuietSound: Entries := [("LOUD", Str("very")), (Driver, FilterOff)]
  const Graphics: Entries := [("light-density", Str("sparse")), ("draw-distance", Str("LOW")),
                              ("textureQuality-xz", Atom("0.001"))]
  const DenseGraphics: Entries := [("light-density", Str("not-sparse")), ("draw-distance", Str("LOW")),
                                   ("textureQuality-xz", Atom("0.001"))]
  /** What level 1 expands to. */
  const Fragment: Entries := [("graphics", Dict(Graphics)), ("sound", Dict([(Driver, FilterOff)]))]

  /** The handler: level 1 yields low-end graphics and a filtered sound
      driver, any other level nothing. */
  function OptimiseOpts(level: Value): (r: Value)
    ensures r.Dict?
  {
    if level == Atom("1") then Dict(Fragment) else Dict([])
  }

  const AdvDefault: Entries := [("optimise_level", Atom("0")), ("sound", Dict(Sound))]
  const OldPc: Entries := [("optimise_level", Atom("1"))]
  /** Listed with `graphics` first: the sort still expands the computed key
      before the ordinary one. */
  const NotSoOldPc: Entries := [("graphics", Dict([("light-density", Str("not-sparse"))])),
                                ("optimise_level", Atom("1"))]

  function Machines(): Config
  {
    Config(map[DefaultName := Dict(AdvDefault), "old-pc" := Dict(OldPc),
               "not-so-old-pc" := Dict(NotSoOldPc)],
           map["optimise_level" := OptimiseOpts])
  }

  const Depth: nat := 3

  /** The state after construction. */
  const Stored: Entries := [("sound", Dict(Sound))]
  /** The state once level 1's `graphics` is stored. */
  const WithGraphics: Entries := [("sound", Dict(Sound)), ("graphics", Dict(Graphics))]
  /** The state after resolving `old-pc`. */
  const OldPcState: Entries := [("sound", Dict(QuietSound)), ("graphics", Dict(Graphics))]
  /** The state after resolving `not-so-old-pc`. */
  const NotSoOldPcState: Entries := [("sound", Dict(QuietSound)), ("graphics", Dict(DenseGraphics))]

  /** Level 0 expands to nothing. */
  lemma {:induction false} LevelZero(d: nat, t: Value)
    ensures Merge(Machines(), d, t, OptimiseOpts(Atom("0"))) == Merged(t, None)
  {
    assert OptimiseOpts(Atom("0")) == Dict([]);
    assert ComputedFirst(Machines().argmap, []) == [];
  }

  lemma {:induction false} AdvDefaultSorted()
    ensures ComputedFirst(Machines().argmap, AdvDefault) == AdvDefault
  {
    var argmap := Machines().argmap;
    assert AdvDefault[1..] == [("sound", Dict(Sound))] && AdvDefault[1..][1..] == [];
    assert "optimise_level" in argmap && "sound" !in argmap;
    assert ComputedItems(argmap, AdvDefault[1..]) == [];
    assert ComputedItems(argmap, AdvDefault) == [AdvDefault[0]];
    assert OrdinaryItems(argmap, AdvDefault[1..]) == [AdvDefault[1]];
    assert OrdinaryItems(argmap, AdvDefault) == [AdvDefault[1]];
  }

  /** Level 0 of the computed default expands to nothing. */
  lemma {:induction false} LevelZeroItem()
    ensures MergeItem(Machines(), Depth, Dict([]), "optimise_level", Atom("0")) == Merged(Dict([]), None)
  {
    ComputedItem(Machines(), Depth, Dict([]), "optimise_level", Atom("0"));
    LevelZero(Depth - 1, Dict([]));
  }

  lemma {:induction false} SoundStored()
    ensures MergeItem(Machines(), Depth, Dict([]), "sound", Dict(Sound)) == Merged(Dict(Stored), None)
  {
  }

  /** Construction: the computed default is expanded (to nothing) and is not
      stored; only `sound` remains. */
  lemma {:induction false} Constructed()
    ensures Merge(Machines(), Depth, Dict([]), Dict(AdvDefault)) == Merged(Dict(Stored), None)
  {
    var cfg := Machines();
    AdvDefaultSorted();
    assert Find(AdvDefault, MixinKey) == None;
    LevelZeroItem();
    SoundStored();
    assert AdvDefault[1..] == [("sound", Dict(Sound))] && AdvDefault[1..][1..] == [];
    assert MergeItems(cfg, Depth, Dict([]), AdvDefault) == MergeItems(cfg, Depth, Dict([]), AdvDefault[1..]);
    assert MergeItems(cfg, Depth, Dict([]), AdvDefault[1..]) == MergeItems(cfg, Depth, Dict(Stored), []);
  }

  /** Deep merge: the fragment's driver setting replaces the default's and
      `LOUD` survives. */
  lemma {:induction false} QuietDriver(d: nat)
    ensures Merge(Machines(), d, Dict(Sound), Dict([(Driver, FilterOff)])) == Merged(Dict(QuietSound), None)
  {
    var cfg := Machines();
    SingleItem(cfg, d, Dict(Sound), Driver, FilterOff);
    LeafItem(cfg, d, Sound, Driver, FilterOff);
    DriverReplaced();
  }

  lemma {:induction false} DriverReplaced()
    ensures Put(Sound, Driver, FilterOff) == QuietSound
  {
    assert Sound == [("LOUD", Str("very"))] + [(Driver, FilterOn)] + [];
    PutExisting([("LOUD", Str("very"))], Driver, FilterOn, [], FilterOff);
  }

  /** `graphics` is a new key: its dict is stored as it is. */
  lemma {:induction false} GraphicsStored()
    ensures MergeItem(Machines(), 2, Dict(Stored), "graphics", Dict(Graphics)) == Merged(Dict(WithGraphics), None)
  {
    assert Find(Stored, "graphics") == None;
    PutNew(Stored, "graphics", Dict(Graphics));
  }

  /** `sound` exists: the fragment's dict is merged into it one level down. */
  lemma {:induction false} SoundQuietened()
    ensures MergeItem(Machines(), 2, Dict(WithGraphics), "sound", Dict([(Driver, FilterOff)]))
         == Merged(Dict(OldPcState), None)
  {
    NestedItem(Machines(), 2, WithGraphics, "sound", Dict([(Driver, FilterOff)]), Dict(Sound));
    QuietDriver(1);
    SoundReplaced();
  }

  lemma {:induction false} SoundReplaced()
    ensures Put(WithGraphics, "sound", Dict(QuietSound)) == OldPcState
  {
    assert WithGraphics == [] + [("sound", Dict(Sound))] + [("graphics", Dict(Graphics))];
    PutExisting([], "sound", Dict(Sound), [("graphics", Dict(Graphics))], Dict(QuietSound));
  }

  lemma {:induction false} FragmentPlain()
    ensures ComputedFirst(Machines().argmap, Fragment) == Fragment && Find(Fragment, MixinKey) == None
  {
    var argmap := Machines().argmap;
    assert Fragment[1..] == [("sound", Dict([(Driver, FilterOff)]))] && Fragment[1..][1..] == [];
    assert "graphics" !in argmap && "sound" !in argmap;
    assert KeySet(Fragment[1..]) == {"sound"};
    assert KeySet(Fragment) == {"graphics", "sound"};
    PlainIsSorted(argmap, Fragment);
  }

  lemma {:induction false} FragmentItems()
    ensures MergeItems(Machines(), 2, Dict(Stored), Fragment) == Merged(Dict(OldPcState), None)
  {
    var cfg := Machines();
    GraphicsStored();
    SoundQuietened();
    assert Fragment[1..] == [("sound", Dict([(Driver, FilterOff)]))] && Fragment[1..][1..] == [];
    assert MergeItems(cfg, 2, Dict(Stored), Fragment) == MergeItems(cfg, 2, Dict(WithGraphics), Fragment[1..]);
    assert MergeItems(cfg, 2, Dict(WithGraphics), Fragment[1..]) == MergeItems(cfg, 2, Dict(OldPcState), []);
  }

  /** Level 1's fragment merged into the constructed state: `graphics` is
      new and is stored, `sound` exists and is merged one level down. */
  lemma {:induction false} LevelOne()
    ensures Merge(Machines(), 2, Dict(Stored), OptimiseOpts(Atom("1"))) == Merged(Dict(OldPcState), None)
  {
    assert OptimiseOpts(Atom("1")) == Dict(Fragment);
    FragmentPlain();
    FragmentItems();
  }

  /** `_resolve("old-pc")` after construction: the computed key expands into
      low-end graphics and the filtered driver, and is not itself stored. */
  lemma {:induction false} ResolveOldPc()
    ensures ResolveGroups(Machines(), Depth, ResolveArg(Str("old-pc")), Dict(Stored)) == Merged(Dict(OldPcState), None)
  {
    var cfg := Machines();
    ResolveSingle(cfg, Depth, "old-pc", Dict(Stored));
    SingleItem(cfg, Depth, Dict(Stored), "optimise_level", Atom("1"));
    ComputedItem(cfg, Depth, Dict(Stored), "optimise_level", Atom("1"));
    LevelOne();
  }

  /** Level 1's graphics merged with the group's own `light-density`. */
  lemma {:induction false} DenserGraphics(d: nat)
    ensures Merge(Machines(), d, Dict(Graphics), Dict([("light-density", Str("not-sparse"))]))
         == Merged(Dict(DenseGraphics), None)
  {
    var cfg := Machines();
    SingleItem(cfg, d, Dict(Graphics), "light-density", Str("not-sparse"));
    LeafItem(cfg, d, Graphics, "light-density", Str("not-sparse"));
    DensityReplaced();
  }

  lemma {:induction false} DensityReplaced()
    ensures Put(Graphics, "light-density", Str("not-sparse")) == DenseGraphics
  {
    assert Graphics == [] + [("light-density", Str("sparse"))] + Graphics[1..];
    PutExisting([], "light-density", Str("sparse"), Graphics[1..], Str("not-sparse"));
    assert DenseGraphics == [] + [("light-density", Str("not-sparse"))] + Graphics[1..];
  }

  /** The computed key is moved ahead of `graphics`. */
  lemma {:induction false} NotSoOldPcSorted()
    ensures ComputedFirst(Machines().argmap, NotSoOldPc) == [NotSoOldPc[1], NotSoOldPc[0]]
  {
    var argmap := Machines().argmap;
    assert NotSoOldPc[1..][1..] == [];
    assert ComputedItems(argmap, NotSoOldPc[1..]) == [NotSoOldPc[1]];
    assert ComputedItems(argmap, NotSoOldPc) == [NotSoOldPc[1]];
    assert OrdinaryItems(argmap, NotSoOldPc[1..]) == [];
    assert OrdinaryItems(argmap, NotSoOldPc) == [NotSoOldPc[0]];
  }

  /** The group's own `graphics` is merged into the expanded one. */
  lemma {:induction false} DenseGraphicsStored()
    ensures MergeItem(Machines(), Depth, Dict(OldPcState), "graphics", Dict([("light-density", Str("not-sparse"))]))
         == Merged(Dict(NotSoOldPcState), None)
  {
    NestedItem(Machines(), Depth, OldPcState, "graphics", Dict([("light-density", Str("not-sparse"))]), Dict(Graphics));
    DenserGraphics(Depth - 1);
    GraphicsReplaced();
  }

  lemma {:induction false} GraphicsReplaced()
    ensures Put(OldPcState, "graphics", Dict(DenseGraphics)) == NotSoOldPcState
  {
    assert OldPcState == [("sound", Dict(QuietSound))] + [("graphics", Dict(Graphics))] + [];
    PutExisting([("sound", Dict(QuietSound))], "graphics", Dict(Graphics), [], Dict(DenseGraphics));
  }

  /** `_resolve("not-so-old-pc")` after construction: although `graphics` is
      listed first, the computed key is expanded first, so the group's own
      `light-density` overrides the expanded one while its siblings stay. */
  lemma {:induction false} ResolveNotSoOldPc()
    ensures ResolveGroups(Machines(), Depth, ResolveArg(Str("not-so-old-pc")), Dict(Stored))
         == Merged(Dict(NotSoOldPcState), None)
  {
    var cfg := Machines();
    ResolveSingle(cfg, Depth, "not-so-old-pc", Dict(Stored));
    NotSoOldPcSorted();
    assert Find(NotSoOldPc, MixinKey) == None;
    ComputedItem(cfg, Depth, Dict(Stored), "optimise_level", Atom("1"));
    LevelOne();
    DenseGraphicsStored();
    var items := [NotSoOldPc[1], NotSoOldPc[0]];
    assert items[1..] == [NotSoOldPc[0]] && items[1..][1..] == [];
    assert MergeItems(cfg, Depth, Dict(Stored), items) == MergeItems(cfg, Depth, Dict(OldPcState), items[1..]);
    assert MergeItems(cfg, Depth, Dict(OldPcState), items[1..]) == MergeItems(cfg, Depth, Dict(NotSoOldPcState), []);
  }
}
