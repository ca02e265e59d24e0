# optr: the option resolver, modelled in Dafny

`Options` (optr.py) keeps a registry of named option groups. The caller's
`default` is seeded in it under the name `"default"`. It also keeps one
mutable dict of resolved options, `__opts`. Everything goes through
`__update_dict(odict, ndict)`, which merges `ndict` into `odict` in place:

- a non-dict `ndict` is ignored;
- the groups listed under `mixin` are resolved into a fresh dict first, and
  written over the target with a shallow `update`;
- the remaining items are stably sorted so that computed keys (keys with a
  handler in `argmap`) come first;
- `"__default__"` is replaced by the top-level default group's value;
- a computed key is not stored: its handler's fragment is merged instead;
- a dict value for an existing key is merged into it one level down, and
  any other value is stored as it is.

`_resolve`, `_reset`, `_add` and the constructor are thin drivers around it.

The project has these modules:

- `Values` (values.dfy): Python values and the dict operations used. A dict
  is its entries in iteration order, with distinct keys. `d[k] = v` keeps an
  existing key in place and appends a new one.
- `Resolver` (resolver.dfy): the merge as pure functions. Each one returns a
  `Merged`: the target as it stands when the operation stops, together with
  the error that stopped it, if any. Python mutates in place before raising,
  so a failed merge still leaves its partial state behind. A depth budget
  `d` stands for Python's recursion limit. Every recursive call of
  `__update_dict` (a mixin list, a handler's fragment, a nested dict) spends
  one unit, and running out yields `Exhausted`.
- `Laws` (laws.dfy): properties of the merge proved over all inputs:
  - no computed key is ever stored at the top level of the state (a dict
    stored raw under a new key keeps whatever it holds);
  - a merge never drops a key;
  - a merge changes only the keys that its mixins, its ordinary keys and its
    computed keys' fragments may write.
- `Overlay` (overlay.dfy): precedence and the per-item behaviour:
  - a plain group is a key-by-key overlay;
  - a group's own leaf beats its mixins and its fragments;
  - deep merge keeps sibling keys;
  - a sentinel fails without a default;
  - `_resolve` on a list is sequential, and a list naming an unknown group
    fails.
- `Optr` (optr.dfy): the `Options` class. Its `opts` field is updated by
  `Add`, `Resolve` and `Reset`. The `__update_dict` loop and the
  `__resolve_groups` loop are methods with loop invariants, each proved
  equal to the functions of `Resolver`.
- `Scenarios` (scenarios.dfy) and `Advanced` (advanced.dfy): the package's
  own test cases, worked out on the model. These cover:
  - permission groups with transitive mixins, reset and the sentinel;
  - the `optimise_level` computed key, which expands into graphics and
    sound settings.
- `Divergence` (divergence.dfy): a concrete group for which resolving twice
  differs from resolving once.

Two properties of the code that a reader might assume otherwise:

- **Resolving twice is not idempotent.** A dict stored under a new key is
  stored raw, with any sentinel, mixin or computed key inside it. A second
  merge of the same group finds the key present and processes that dict,
  so the state changes again (`Divergence.ResolveTwiceDiffers`).
- **Construction reproduces a plain default.** A default whose top level
  has no mixin, no computed key and no sentinel is reproduced exactly
  (`Overlay.PlainDefaultReproduced`). Other defaults may or may not be:
  `Advanced.Constructed` shows a computed key in the default being
  dropped.

## Model

| member | source | states |
|---|---|---|
| Values.Find | optr.py:87 | `d[k]` yields a value exactly when `k` is a key of the dict |
| Values.FindIsStored | optr.py:87 | what `d[k]` yields is an entry of the dict under `k`, and in a dict with distinct keys it is the value stored under `k` |
| Values.Put | optr.py:72 | `odict.update({attr: val})`: afterwards `attr` holds `val`, every other key holds what it held, the key set gains `attr`, and keys stay distinct |
| Values.UpdateWith | optr.py:49 | `odict.update(mixin)`: the keys of `mixin` take its values and every other key is unchanged; keys stay distinct |
| Resolver.ResolveArg | optr.py:33 | a bare string is iterated as one group name, not as its characters; any other argument is iterated as it is |
| Resolver.Iterate | optr.py:78 | iterating fails exactly for a non-iterable; a list yields its items |
| Resolver.GroupBody | optr.py:79 | the registry lookup succeeds exactly for a registered string name, and yields that group |
| Resolver.DefaultFor | optr.py:61 | the default lookup succeeds exactly when the registry's default is a dict holding the key, and yields its value |
| Resolver.Restore | optr.py:60-61 | any value other than the sentinel is kept; the sentinel fails exactly when the registry's default is missing, is not a dict or lacks the key, and otherwise becomes the default's value for the key |
| Resolver.ComputedFirst | optr.py:53 | the sorted items are a permutation of the group's items, and no computed item comes after an ordinary one (stability is `Resolver.SortIsStable`) |
| Resolver.SortIsStable | optr.py:53 | the sort is stable: the computed items of the result, in order, are those of the group, and so are the ordinary ones |
| Resolver.PartitionPermutes | optr.py:53 | the computed and ordinary parts together are the group's items |
| Resolver.Merge | optr.py:42-74 | a merge into a dict leaves a dict, and into a non-dict leaves the target as it was (what it leaves there is stated by the `Laws` and `Overlay` lemmas) |
| Resolver.ApplyMixins | optr.py:47-49 | same shape guarantee for the mixin step |
| Resolver.MergeItems | optr.py:55-72 | same shape guarantee for the item loop |
| Resolver.MergeItem | optr.py:56-72 | same shape guarantee for one item |
| Resolver.ResolveGroups | optr.py:76-80 | same shape guarantee for `__resolve_groups` |
| Resolver.ResolveNames | optr.py:78-79 | same shape guarantee for the loop over the names |
| Laws.MergeKeepsInvariant | optr.py:63-66 | merging into a state with distinct keys and no computed key keeps it so, even when the merge fails half-way |
| Laws.ApplyMixinsKeepsInvariant | optr.py:47-49 | the mixin step keeps distinct keys and stores no computed key |
| Laws.MergeItemsKeepInvariant | optr.py:55-72 | the item loop keeps the invariant |
| Laws.MergeItemKeepsInvariant | optr.py:63-72 | one item keeps it: a computed key only merges its fragment |
| Laws.ResolveKeepsInvariant | optr.py:76-80 | resolving groups keeps the invariant |
| Laws.ResolveNamesKeepInvariant | optr.py:78-79 | each resolved group keeps it |
| Laws.TouchedItemsSorted | optr.py:53 | sorting does not change which keys the items may write |
| Laws.MergeFrame | optr.py:42-74 | a merge never removes a key, and every key outside what its mixins, ordinary keys and fragments may write keeps its value, on success and on failure |
| Laws.ApplyMixinsFrame | optr.py:47-49 | the mixin step keeps all keys, and changes only the keys the mixins resolve to |
| Laws.MergeItemsFrame | optr.py:55-72 | the item loop keeps all keys, and changes only the keys the items may write |
| Laws.MergeItemFrame | optr.py:55-72 | one item keeps all keys, and changes only its own key or its fragment's keys |
| Overlay.PlainIsSorted | optr.py:53 | a group without computed keys keeps its order |
| Overlay.PlainItemsOverlay | optr.py:55-72 | the item loop over a plain group is the key-by-key overlay `OverlayAt` |
| Overlay.PlainOverlay | optr.py:42-74 | merging a plain group is the key-by-key overlay: unmentioned keys unchanged, leaves replaced, dicts merged one level down |
| Overlay.PlainTouched | optr.py:55-72 | a plain group may write exactly its own keys |
| Overlay.PlainNestedMerge | optr.py:69-70 | a dict value for an existing key is merged into the existing value one level down |
| Overlay.DeepMergeKeepsSiblings | optr.py:69-72 | after that deep merge, the nested keys the value does not mention keep their values |
| Overlay.PlainKeepsOtherKeys | optr.py:55-72 | merging a plain dict leaves the keys it does not mention as they were |
| Overlay.PlainItemsReproduced | optr.py:55-72 | the items of a plain group without sentinels are appended to a target that lacks them, in order |
| Overlay.NoDefaultLeavesEmpty | optr.py:22 | an object built without a default starts from an empty state |
| Overlay.PlainDefaultReproduced | optr.py:22-26 | a default with no mixin, computed key or sentinel at top level is reproduced exactly by construction |
| Overlay.ItemsLeafWins | optr.py:55-72 | a leaf item followed only by ordinary items with other keys is what its key holds after the loop |
| Overlay.OrdinaryLeafWins | optr.py:47-72 | a group's own ordinary leaf beats whatever its mixins and its computed keys' fragments wrote there |
| Overlay.SortedPosition | optr.py:53 | after the sort, only ordinary items with other keys follow an ordinary item |
| Overlay.MixinSurvives | optr.py:47-49 | a key resolved from the mixins that the group's items may not write keeps the mixins' value |
| Overlay.ItemsHitFailure | optr.py:60-61 | a failing sentinel lookup anywhere among the items makes the loop fail |
| Overlay.SentinelWithoutDefaultFails | optr.py:60-61 | a sentinel for a key the default group lacks makes the merge fail |
| Overlay.LeafItem | optr.py:72 | an ordinary non-dict, non-sentinel item is stored as it is |
| Overlay.NestedItem | optr.py:69-72 | a dict item for an existing ordinary key stores the nested merge's result, and carries its error |
| Overlay.ComputedItem | optr.py:64-66 | a computed item is the merge of its handler's fragment into the target, one level down |
| Overlay.SingleItem | optr.py:53-72 | merging a one-item dict is merging that item |
| Overlay.ResolveNamesAppend | optr.py:78-79 | resolving `n1 + n2` is resolving `n1`, then `n2` on its result, unless `n1` failed |
| Overlay.ResolveSingle | optr.py:32-35 | `_resolve(name)` merges a registered group into the state, and fails on an unknown name, leaving the state as it was |
| Overlay.ResolveListIsSequential | optr.py:76-80 | `_resolve([a, b])` is `_resolve(a)` followed by `_resolve(b)` |
| Overlay.ResolveNamesUnknownFails | optr.py:79 | an unresolvable name anywhere in the list makes resolution fail |
| Overlay.ResolveUnknownFails | optr.py:76-80 | a list naming an unregistered group fails |
| Overlay.NonDictGroupIsNoOp | optr.py:43-44 | a registered group whose body is not a dict leaves the state unchanged, without error |
| Overlay.LaterGroupWins | optr.py:76-80 | in `_resolve([a, b])`, a leaf that `b` sets is what its key holds afterwards |
| Optr.Options.constructor | optr.py:10-24 | the registry is the default under `"default"` overridden by the caller's groups; the state starts empty |
| Optr.Options.Create | optr.py:5-26 | construction sets the state to the merge of the given default into an empty dict, and reports the error raised |
| Optr.Options.Add | optr.py:28-30 | `_add` sets the state to the merge of `ndict` into it, and keeps the invariant |
| Optr.Options.Resolve | optr.py:32-35 | `_resolve` merges the named group or groups, in order, into the state itself, and keeps the invariant |
| Optr.Options.Reset | optr.py:37-40 | `_reset` discards the state and sets it to the merge of the registry's default into an empty dict |
| Optr.Options.UpdateDict | optr.py:42-74 | the mixin step followed by the loop over the sorted items computes `Merge` |
| Optr.Options.UpdateItem | optr.py:55-72 | one pass of the loop computes `MergeItem` |
| Optr.Options.MixIn | optr.py:47-49 | the mixin step computes `ApplyMixins` |
| Optr.Options.ResolveGroupsInto | optr.py:76-80 | the loop over the names computes `ResolveGroups` |
| Optr.Options.Keys | optr.py:83 | `keys()` lists exactly the stored keys, none of them computed |
| Optr.Options.Get | optr.py:86-87 | `o[k]` yields the stored value, or a KeyError exactly when `k` is not stored |
| Scenarios.DefaultsReproduced | tests/tests_optr.py:66-68 | construction reproduces the all-off permission defaults |
| Scenarios.ResolveEditorAlone | tests/tests_optr.py:22-25 | an editor's mixin brings in basic's `read`, next to its own `write` |
| Scenarios.BasicOverDefaults | tests/tests_optr.py:70-73 | resolving `basic` switches on `read` alone |
| Scenarios.ResolveAdmin | tests/tests_optr.py:75-78 | resolving `admin` switches every permission on, through admin, editor and basic |
| Scenarios.AdminThenBasic | tests/tests_optr.py:80-88 | resolving `basic` after `admin` changes nothing |
| Scenarios.ResetThenBasic | tests/tests_optr.py:90-95 | reset gives the defaults back, and `basic` then switches on `read` alone |
| Scenarios.ResolveBlindEditor | tests/tests_optr.py:97-110 | the sentinel puts `read` back to the default after the editor mixin switched it on |
| Advanced.Constructed | tests/tests_optr.py:112-116 | the computed default expands to nothing and is not stored; only `sound` remains |
| Advanced.QuietDriver | tests/tests_optr.py:118-130 | the fragment's driver setting replaces the default's, and `LOUD` survives |
| Advanced.LevelOne | tests/tests_optr.py:36-47 | level 1's fragment stores new `graphics` and merges `sound` one level down |
| Advanced.ResolveOldPc | tests/tests_optr.py:118-130 | resolving `old-pc` gives low-end graphics and the filtered driver, without storing the computed key |
| Advanced.NotSoOldPcSorted | tests/tests_optr.py:133-137 | the computed key is moved ahead of `graphics` |
| Advanced.DenserGraphics | tests/tests_optr.py:136 | the group's own `light-density` replaces the expanded one, and the other graphics keys stay |
| Advanced.ResolveNotSoOldPc | tests/tests_optr.py:132-152 | resolving `not-so-old-pc` expands the computed key first, so the group's own graphics setting wins |
| Divergence.FirstMergeStoresRaw | optr.py:72 | a dict under a new key is stored raw, sentinel included |
| Divergence.SecondMergeRestores | optr.py:60-70 | merging the same dict again goes one level down and replaces the nested sentinel |
| Divergence.ResolveTwiceDiffers | optr.py:69-72 | resolving a group twice can leave a different state than resolving it once |

## Left out

- Aliasing: the model has value semantics. In Python, a nested dict stored as it is (optr.py:72) is shared with the registry, so a later nested merge (optr.py:69-70) also changes the registry's group, including the default used by `_reset`. The deep copy of the default (optr.py:22) is the identity here.
- `__str__`, `__cmp__` and `__getattr__`: printing and Python 2 comparison are not modelled. Attribute access is the same lookup as `Get`.
- Handlers are total functions from values to values. A handler that raises, or that has side effects, is not modelled.
- Non-termination: a mixin cycle, or a handler whose fragment expands itself, recurses until Python's recursion limit. The model replaces that limit by the depth budget `d` and reports `Exhausted`. The true limit depends on the interpreter's stack.
- Dict order: Python 2 dicts have an order chosen by hashing. The model fixes one order, the order of the entries as given, and the sort at optr.py:53 keeps it within the computed and within the ordinary items (`Resolver.SortIsStable`).
- Scalars are opaque atoms compared structurally. Python's cross-type equalities (`1 == True == 1.0`, `u"__default__" == "__default__"`) are not modelled.
- Error kinds: the TypeError or AttributeError of a dict operation on a non-dict (optr.py:49, optr.py:69-72), of iterating a non-iterable (optr.py:78), and of looking up an unhashable group name (optr.py:79) are all `TypeMismatch`. Lists and tuples are both `List`, so a tuple used as a group name also gives `TypeMismatch`, where Python raises a KeyError because a tuple is hashable. A string target with a dict value first runs a substring test (optr.py:69); every such path still ends in one of these errors.
- Method chaining: `_add`, `_resolve` and `_reset` return `self` in Python. The methods here return the error, if any, instead of raising it.
- The reserved `"default"` name is not special-cased: when the caller's groups also define it, construction merges the `default` parameter but `Reset` merges the caller's group (optr.py:24, optr.py:26, optr.py:39), and the model keeps that difference.
- The worked examples fix a depth budget: 3 for the resolves that start from a constructed state in `Scenarios` and `Advanced`, 2 or 1 for the merges nested inside them (such as `Scenarios.ResolveEditorAlone` and `Advanced.LevelOne`) and for `Divergence`. These cover their mixin chains and nested dicts. Other budgets are not worked out for them.
