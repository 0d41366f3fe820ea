# grape-entity-preloader, modelled in Dafny

grape-entity-preloader adds batch loading to Grape::Entity. Before a
collection is rendered, `Grape::Entity::Preloader` walks the entity's
exposure tree. It collects every association named by an exposure's
`:preload` option into one nested hash, such as `{ author: { books: {} } }`.
It then hands that hash and the objects to a single
`ActiveRecord::Associations::Preloader` call, so the associations are
loaded once rather than once per object.

This project models that core:

- the exposure tree (`Exposures`): static or dynamic keys, plain, nesting
  and represent exposures, and the `preload` name;
- the in-place walk `extract_associations` (`EntityPreloader.Preloader.ExtractAssociations`).
  It works over a heap tree of hash objects (`AssocHeap.AssocHash`), and the
  recursive calls mutate aliased sub-hashes. It is proved to compute the pure
  function `Extraction.Walk`;
- `initialize` and `call` of the preloader. The loader call is recorded in
  `loaderCalls`, holding the wrapped objects and the built hash;
- the construction-time check on `:preload` (`PreloadOption`).

The main theorem is `Extraction.WalkIsMerge`. Walking exposures over a hash is
the same as taking the deep union (`AssociationPlans.Merge`) of that hash with
a contribution defined exposure by exposure (`Extraction.Contribution`). From
it follow several results:

- The walk only grows the hash.
- Repeated paths merge.
- Walking twice adds nothing.
- The order of the exposures does not matter: any permutation of them gives
  the same hash (`ExtractionProperties.WalkPermutation`).

The host library's `should_return_key?(options)` and
`Options#for_nesting(key)` are black boxes. They are passed in as a
`Host<O>` of two function values over an opaque options type `O`.

The repository's specs also stub `preload_association` and `preload_callback`
and expect a callback hash (spec/grape/entity/preloader_spec.rb:33-36 and
117-200). The library code does not implement them: `extract_associations`
reads only `exposure.preload`, and `Base#initialize` reads only `:preload`.
The model follows the code.

## Model

| member | source | states |
|---|---|---|
| `EntityPreloader.Preloader.constructor` | lib/grape/entity/preloader.rb:14-18 | stores the exposures and options as given and the objects through `Array.wrap`; no loader call yet |
| `EntityPreloader.Preloader.Call` | lib/grape/entity/preloader.rb:21-25 | makes exactly one new loader call, with the wrapped objects and a fresh hash whose value is the walk of the exposures from `{}` |
| `EntityPreloader.Preloader.ExtractAssociations` | lib/grape/entity/preloader.rb:34-49 | updating the hash in place keeps it a tree of distinct hash objects, only adds new objects, and its new value is `Walk` of the exposures over its old value |
| `EntityPreloader.Preloader.ExtractInto` | lib/grape/entity/preloader.rb:45-46 | the recursive call on the aliased sub-hash at `p` changes the parent at `p` only, to the walk of the linked entity's root exposures |
| `AssocHeap.AssocHash.constructor` | lib/grape/entity/preloader.rb:22 | `{}`: a fresh, valid hash whose value is the empty plan |
| `AssocHeap.AssocHash.FetchOrCreate` | lib/grape/entity/preloader.rb:38 | `associations[p] ||= {}` on the heap: returns the existing sub-hash unchanged if present, else a newly allocated empty one now stored at `p` |
| `Extraction.Touch` | lib/grape/entity/preloader.rb:38 | afterwards `p` is a key; every entry already there is kept as it was; a new entry is empty |
| `Extraction.TouchPreload` | lib/grape/entity/preloader.rb:38 | `... if exposure.preload`: without `preload` the level is unchanged; with it, `p` is added and every existing entry is kept as it was |
| `Extraction.Step` | lib/grape/entity/preloader.rb:36-47 | one run of the loop body; its contract is `Extraction.StepIsMerge`: the level merged with the exposure's `ContributionOf` |
| `Extraction.Walk` | lib/grape/entity/preloader.rb:35 | `exposures.each`, stepping through the exposures in order; its contract is `Extraction.WalkIsMerge`: the start hash merged with the list's `Contribution` |
| `Extraction.StepIsMerge` | lib/grape/entity/preloader.rb:36-47 | one iteration merges the exposure's own contribution into the current level, whatever that level already holds |
| `Extraction.WalkIsMerge` | lib/grape/entity/preloader.rb:34-49 | the whole walk equals the deep union of the given hash with the exposures' contribution |
| `ExtractionProperties.HiddenExposureChangesNothing` | lib/grape/entity/preloader.rb:36 | an exposure whose `should_return_key?` is false adds no entry and is not descended into |
| `ExtractionProperties.PreloadEntryCreatedOrKept` | lib/grape/entity/preloader.rb:38 | a visible exposure with `preload = p` leaves `p` in the level; an existing sub-hash at `p` is kept and only grows |
| `ExtractionProperties.DynamicKeyStopsDescent` | lib/grape/entity/preloader.rb:38-41 | a callable key still gets its `preload` entry, but nothing else is added or changed: no descent |
| `ExtractionProperties.NestingWritesSameLevel` | lib/grape/entity/preloader.rb:43-44 | a nesting exposure's children, under `for_nesting(key)`, contribute to the same level as the exposure itself |
| `ExtractionProperties.NestedPreloadIsSibling` | lib/grape/entity/preloader.rb:43-44 | a visible nested child's `preload` key ends up next to the parent's own `preload` key, at the same level |
| `ExtractionProperties.RepresentDescendsIntoPreload` | lib/grape/entity/preloader.rb:45-46 | a represent exposure with `preload = p` merges the linked entity's contribution, under `for_nesting(key)`, into the sub-hash at `p` only |
| `ExtractionProperties.RepresentWithoutPreloadStops` | lib/grape/entity/preloader.rb:45 | a represent exposure without `preload` leaves the hash unchanged |
| `ExtractionProperties.PlainWithoutPreloadUnchanged` | lib/grape/entity/preloader.rb:38-47 | an exposure with no `preload` that neither nests nor represents leaves the hash unchanged |
| `ExtractionProperties.WalkGrows` | lib/grape/entity/preloader.rb:38-46 | every key present before the walk is present after it, and every sub-hash includes its former self |
| `ExtractionProperties.WalkFromEmpty` | lib/grape/entity/preloader.rb:22-23 | started from `{}`, the walk yields exactly the exposures' contribution |
| `ExtractionProperties.WalkAppend` | lib/grape/entity/preloader.rb:35 | walking `a + b` is walking `a` and then `b` over its result |
| `ExtractionProperties.WalkOrderIndependent` | lib/grape/entity/preloader.rb:35-48 | swapping two consecutive blocks of exposures gives the same hash |
| `ExtractionProperties.ContributionPermutation` | lib/grape/entity/preloader.rb:35-48 | two lists holding the same exposures, in any order, have the same contribution |
| `ExtractionProperties.WalkPermutation` | lib/grape/entity/preloader.rb:35-48 | any reordering of the exposures (the same multiset) gives the same hash |
| `ExtractionProperties.WalkFixedIffIncludes` | lib/grape/entity/preloader.rb:35-48 | the walk leaves the hash unchanged exactly when the hash already deeply includes the exposures' contribution |
| `ExtractionProperties.WalkIdempotent` | lib/grape/entity/preloader.rb:38-46 | walking the same exposures again over the result changes nothing |
| `AssociationPlans.GrowsIffMergeAbsorbs` | lib/grape/entity/preloader.rb:38 | one hash is deeply included in another exactly when merging it in adds nothing |
| `RubyValues.ArrayWrap` | lib/grape/entity/preloader.rb:16 | `nil` becomes `[]`, an array is kept, any other object becomes a one-element array |
| `RubyValues.Lookup` | lib/grape/entity/preloader/exposure/base.rb:13 | reading an absent option gives `nil` |
| `PreloadOption.CheckPreload` | lib/grape/entity/preloader/exposure/base.rb:14 | the value is accepted exactly when it is `nil`, `false` or a Symbol; otherwise ArgumentError with the source's message |
| `PreloadOption.PreloadName` | lib/grape/entity/preloader.rb:38 | an accepted value names an association exactly when it is truthy, and then it is that Symbol |
| `PreloadOption.SymbolRoundTrip` | lib/grape/entity/preloader/exposure/base.rb:10-13 | a Symbol is accepted and read back as the same name |
| `PreloadOption.AbsentPreloadAccepted` | lib/grape/entity/preloader/exposure/base.rb:13-14 | without `:preload`, construction succeeds and no association is named |
| `PreloadOption.ExposureBase.Initialize` | lib/grape/entity/preloader/exposure/base.rb:12-17 | stores `options[:preload]` unchanged; raises exactly when the check fails; the host initializer runs exactly when nothing was raised |
| `PreloadOption.ExposureBase.HostInitialize` | lib/grape/entity/preloader/exposure/base.rb:16 | `super` sets up the host state and leaves the stored `preload` alone |
| `PreloaderScenarios.NoExposuresGiveEmptyHash` | spec/grape/entity/preloader_spec.rb:18-23 | no exposures give `{}` |
| `PreloaderScenarios.PreloadedLeafGivesEntry` | spec/grape/entity/preloader_spec.rb:25-50 | `books`, stubbed with association `:books`, next to `name` with none gives `{ books: {} }` |
| `PreloaderScenarios.NestedExposuresAreSiblings` | spec/grape/entity/preloader_spec.rb:78-94 | nesting `author` around `books` gives `{ author: {}, books: {} }` |
| `PreloaderScenarios.RepresentWithEmptyEntity` | spec/grape/entity/preloader_spec.rb:97-113 | a represent exposure of an entity without exposures gives `{ related_items: {} }` |
| `PreloaderScenarios.RepresentNestsUnderPreload` | lib/grape/entity/preloader.rb:45-46 | a represent exposure `author` whose entity preloads `books` gives `{ author: { books: {} } }` |
| `PreloaderScenarios.HiddenExposureGivesEmptyHash` | spec/grape/entity/preloader_spec.rb:147-158 | an exposure that should not return its key gives `{}` |
| `PreloaderScenarios.DynamicPlainKeepsEntry` | spec/grape/entity/preloader_spec.rb:161-179 | an exposure under a dynamic key, neither nesting nor represent, stubbed with association `:books`, gives `{ books: {} }` |
| `PreloaderScenarios.DynamicKeyKeepsEntry` | lib/grape/entity/preloader.rb:38-41 | a represent exposure under a dynamic key with `preload` `books` gives `{ books: {} }`; its linked exposures are not visited |

## Left out

- The bulk loader backend, `ActiveRecord::Associations::Preloader.new(...).call`, is a foreign call. The model records each call, with its records and hash, and does not model hydration.
- The ActiveRecord version gate and its `warn` fallback (lib/grape/entity/preloader.rb:20-30) are left out. The model is the `call` defined when ActiveRecord 7.0 or later is loaded.
- `preload_and_represent` and the global `OPTIONS` rewrite (lib/grape/entity/preloader/entity.rb) are left out. They are host rendering and a process-wide constant.
- The Grape endpoint hook (lib/grape/entity/preloader/endpoint.rb) and the `Options` delegator (lib/grape/entity/preloader/options.rb) are thin host wrappers and are left out.
- `preload_association`, `preload_callback`, their mutual exclusion and the callback dispatch are left out. The tests mention them, but no library code implements them.
- `should_return_key?` and `for_nesting` belong to the host library. They appear only as the function values of `Host`, with no properties assumed.
- Linked entities are inlined as finite trees. A cyclic entity graph whose cycle runs only through visible, statically keyed represent exposures with `preload` set makes the source recurse without end (lib/grape/entity/preloader.rb:45-46); finite trees cannot express it. A cycle through a represent exposure without `preload` ends there, and the model writes that exposure with no linked roots.
- The association hash is a `map`. Ruby's Hash also keeps insertion order, but Hash equality, and the loader, ignore that order.
- `PreloadOption.ExposureBase.Initialize`: the `_conditions` argument is not modelled. The host initializer's work is reduced to storing the attribute and options.
- `PreloadOption.ExposureBase.Initialize`: no lemma ties an `ExposureBase` object to the `Exposures.Exposure` value the walk reads. `PreloadOption.PreloadName` gives the `preload` field of that value from the stored option.
- The scenarios in `PreloaderScenarios` take the specs' `preload_association` stub as the `preload` option the library reads. The specs as written are out of date with lib/grape/entity/preloader.rb: they never stub `preload`, and lines 117-200 call an `extract_preload_options` the library does not define.
- `PreloadOption.ExposureBase.Initialize`: the model assumes the module's `initialize` runs first and reaches the host initializer through `super`. The module is mixed in with `include` (lib/grape/entity/preloader/exposure/base.rb:24), so this holds only when the host exposure class does not define its own `initialize` that bypasses it; the host classes are not part of this model.
- `RubyValues.ArrayWrap`: objects answering `to_ary` other than arrays are treated as plain objects.
