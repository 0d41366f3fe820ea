/**
 * Grape::Entity::Preloader: collects the associations an exposure tree will
 * touch into one nested hash and hands that hash, with the objects, to a
 * single bulk-loader call (ActiveRecord::Associations::Preloader). The loader
 * itself is not modelled; each call to it is recorded in `loaderCalls`.
 */
module EntityPreloader {
  import opened RubyValues
  import opened AssociationPlans
  import opened Exposures
  import opened Extraction
  import opened AssocHeap

  /** One invocation of the bulk loader: `Preloader.new(records:, associations:).call`. */
  datatype LoaderCall = LoaderCall(records: seq<RubyValue>, associations: AssocHash)

  class Preloader<O> {
    var exposures: seq<Exposure>
    var objects: seq<RubyValue>
    var options: O
    /** The bulk-loader invocations made so far, oldest first. */
    var loaderCalls: seq<LoaderCall>

    /** `initialize`: the objects are stored through `Array.wrap`. */
    constructor (exposures: seq<Exposure>, objects: RubyValue, options: O)
      ensures this.exposures == exposures
      ensures this.objects == ArrayWrap(objects)
      ensures this.options == options
      ensures loaderCalls == []
    {
      this.exposures := exposures;
      this.objects := ArrayWrap(objects);
      this.options := options;
      loaderCalls := [];
    }

    /**
     * `call`: builds the hash from `{}` and makes exactly one loader call with
     * the wrapped objects and that hash, whose value is the walk of the
     * exposures from the empty plan.
     */
    method Call(h: Host<O>)
      modifies this`loaderCalls
      ensures |loaderCalls| == |old(loaderCalls)| + 1
      ensures loaderCalls[..|old(loaderCalls)|] == old(loaderCalls)
      ensures var c := loaderCalls[|loaderCalls| - 1];
        && c.records == objects
        && fresh(c.associations) && c.associations.Valid()
        && c.associations.model == Walk(h, exposures, Empty(), options)
    {
      var associations := new AssocHash();
      ExtractAssociations(h, exposures, associations, options);
      loaderCalls := loaderCalls + [LoaderCall(objects, associations)];
    }

    /**
     * `extract_associations`: walks the exposures in order and updates the
     * hash `associations` in place, handing sub-hashes of it to the recursive
     * calls. Its effect on the value of the hash is exactly Walk; the objects
     * it adds are new ones.
     */
    method ExtractAssociations(h: Host<O>, exposures: seq<Exposure>, associations: AssocHash, options: O)
      requires associations.Valid()
      modifies associations.repr
      ensures associations.Valid()
      ensures old(associations.repr) <= associations.repr
      ensures fresh(associations.repr - old(associations.repr))
      ensures associations.model == Walk(h, exposures, old(associations.model), options)
      decreases exposures, 0
    {
      ghost var start := associations.model;
      for i := 0 to |exposures|
        invariant associations.Valid()
        invariant old(associations.repr) <= associations.repr
        invariant fresh(associations.repr - old(associations.repr))
        invariant associations.model == Walk(h, exposures[..i], start, options)
      {
        assert exposures[..i + 1][..i] == exposures[..i];
        assert Walk(h, exposures[..i + 1], start, options)
            == Step(h, exposures[i], Walk(h, exposures[..i], start, options), options);
        var exposure := exposures[i];
        ghost var before := associations.model;
        ghost var reprBefore := associations.repr;
        if h.shouldReturnKey(exposure, options) {
          var newAssociations: AssocHash? := null;
          if exposure.preload.Some? {
            newAssociations := associations.FetchOrCreate(exposure.preload.value);
          }
          ghost var reprTouched := associations.repr;
          assert fresh(reprTouched - reprBefore);
          if exposure.key.Static? {
            var inner := h.forNesting(options, exposure.key.name);
            match exposure.kind {
              case Plain =>
              case Nesting(nested) =>
                ExtractAssociations(h, nested, associations, inner);
                assert fresh(associations.repr - reprTouched);
              case Represent(roots) =>
                if newAssociations != null {
                  ExtractInto(h, roots, associations, exposure.preload.value, newAssociations, inner);
                  assert fresh(associations.repr - reprTouched);
                }
            }
          }
        }
        assert reprBefore <= associations.repr && fresh(associations.repr - reprBefore);
        assert associations.model == Step(h, exposure, before, options);
      }
      assert exposures[..|exposures|] == exposures;
    }

    /**
     * The represent branch: walks `roots` into `newAssociations`, the sub-hash
     * at `p` that FetchOrCreate returned, aliased from `associations` and updated in place, so the change shows
     * through the parent; the other entries stay as they were.
     */
    method ExtractInto(h: Host<O>, roots: seq<Exposure>, associations: AssocHash, p: Sym,
                       newAssociations: AssocHash, options: O)
      requires associations.Valid() && p in associations.entries
      requires newAssociations == associations.entries[p]
      modifies associations.repr
      ensures associations.Valid()
      ensures old(associations.repr) <= associations.repr
      ensures fresh(associations.repr - old(associations.repr))
      ensures associations.model
           == Plan(old(associations.model).entries[p := Walk(h, roots, old(associations.model).entries[p], options)])
      decreases roots, 1
    {
      ExtractAssociations(h, roots, newAssociations, options);
      associations.Absorb(p);
    }
  }
}
