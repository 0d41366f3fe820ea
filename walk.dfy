/**
 * The value semantics of `Preloader#extract_associations`: what one exposure
 * does to the current level of the association hash (Step) and what a list of
 * exposures does when walked in order (Walk). The heap method
 * EntityPreloader.Preloader.ExtractAssociations is proved to compute Walk.
 *
 * Beside the walk stands an independent, declarative description of its
 * outcome: every visible exposure contributes a small plan of its own
 * (ContributionOf), and the walk merges the union of those contributions into
 * the hash it was given (WalkIsMerge).
 */
module Extraction {
  import opened RubyValues
  import opened AssociationPlans
  import opened Exposures

  /**
   * `associations[p] ||= {}`: the entry for `p` exists afterwards; an entry
   * that was already there is kept as it was, and nothing else changes.
   */
  function Touch(plan: Plan, p: Sym): (r: Plan)
    ensures r.entries.Keys == plan.entries.Keys + {p}
    ensures forall k :: k in plan.entries ==> r.entries[k] == plan.entries[k]
    ensures p !in plan.entries ==> r.entries[p] == Empty()
  {
    if p in plan.entries then plan else Plan(plan.entries[p := Empty()])
  }

  /** `... if exposure.preload`: the get-or-create step runs only when `preload` is set. */
  function TouchPreload(plan: Plan, preload: Option<Sym>): (r: Plan)
    ensures preload.None? ==> r == plan
    ensures preload.Some? ==> r.entries.Keys == plan.entries.Keys + {preload.value}
    ensures forall k :: k in plan.entries ==> k in r.entries && r.entries[k] == plan.entries[k]
  {
    if preload.Some? then Touch(plan, preload.value) else plan
  }

  /** One iteration of `exposures.each` on the current level `plan`. */
  function Step<O>(h: Host<O>, e: Exposure, plan: Plan, options: O): Plan
    decreases e
  {
    if !h.shouldReturnKey(e, options) then plan
    else
      var touched := TouchPreload(plan, e.preload);
      match e.key
      case Dynamic => touched
      case Static(k) =>
        match e.kind {
          case Plain => touched
          case Nesting(nested) => Walk(h, nested, touched, h.forNesting(options, k))
          case Represent(roots) =>
            if e.preload.Some? then
              var p := e.preload.value;
              Plan(touched.entries[p := Walk(h, roots, touched.entries[p], h.forNesting(options, k))])
            else touched
        }
  }

  /** `exposures.each`: the exposures are stepped through in order. */
  function Walk<O>(h: Host<O>, exposures: seq<Exposure>, plan: Plan, options: O): Plan
    decreases exposures
  {
    if |exposures| == 0 then plan
    else
      var last := |exposures| - 1;
      Step(h, exposures[last], Walk(h, exposures[..last], plan, options), options)
  }

  /** The single-entry hash `{ p => sub }`. */
  function Single(p: Sym, sub: Plan): (r: Plan)
    ensures r.entries.Keys == {p} && r.entries[p] == sub
  {
    Plan(map[p := sub])
  }

  /**
   * What one exposure adds to the level it is visited at, independent of what
   * is already there: nothing when it is hidden; otherwise its own `preload`
   * entry (holding the linked entity's contribution when it represents one
   * under a static key) next to its nested exposures' contribution.
   */
  function ContributionOf<O>(h: Host<O>, e: Exposure, options: O): Plan
    decreases e
  {
    if !h.shouldReturnKey(e, options) then Empty()
    else
      var sub :=
        if e.key.Static? && e.kind.Represent?
        then Contribution(h, e.kind.rootExposures, h.forNesting(options, e.key.name))
        else Empty();
      var own := if e.preload.Some? then Single(e.preload.value, sub) else Empty();
      var nested :=
        if e.key.Static? && e.kind.Nesting?
        then Contribution(h, e.kind.nestedExposures, h.forNesting(options, e.key.name))
        else Empty();
      Merge(own, nested)
  }

  /** The deep union of the contributions of a list of exposures. */
  function Contribution<O>(h: Host<O>, exposures: seq<Exposure>, options: O): Plan
    decreases exposures
  {
    if |exposures| == 0 then Empty()
    else
      var last := |exposures| - 1;
      Merge(Contribution(h, exposures[..last], options), ContributionOf(h, exposures[last], options))
  }

  lemma TouchIsMerge(plan: Plan, preload: Option<Sym>)
    ensures TouchPreload(plan, preload)
         == Merge(plan, if preload.Some? then Single(preload.value, Empty()) else Empty())
  {
    if preload.Some? {
      var p := preload.value;
      var m := Merge(plan, Single(p, Empty()));
      if p in plan.entries {
        assert m.entries[p] == Merge(plan.entries[p], Empty());
        MergeEmptyRight(plan.entries[p]);
      }
      assert TouchPreload(plan, preload).entries == m.entries;
    } else {
      MergeEmptyRight(plan);
    }
  }

  /** Merging `sub` into the (fetched or created) entry at `p` is merging `{ p => sub }`. */
  lemma DescendIsMerge(plan: Plan, p: Sym, sub: Plan)
    ensures var touched := Touch(plan, p);
      Plan(touched.entries[p := Merge(touched.entries[p], sub)]) == Merge(plan, Single(p, sub))
  {
    var touched := Touch(plan, p);
    var l := Plan(touched.entries[p := Merge(touched.entries[p], sub)]);
    var r := Merge(plan, Single(p, sub));
    if p !in plan.entries {
      MergeEmptyLeft(sub);
    }
    assert l.entries == r.entries;
  }

  /** One step merges the exposure's contribution into the current level. */
  lemma {:induction false} StepIsMerge<O>(h: Host<O>, e: Exposure, plan: Plan, options: O)
    ensures Step(h, e, plan, options) == Merge(plan, ContributionOf(h, e, options))
    decreases e, 1
  {
    if !h.shouldReturnKey(e, options) {
      MergeEmptyRight(plan);
      return;
    }
    var own0 := if e.preload.Some? then Single(e.preload.value, Empty()) else Empty();
    var touched := TouchPreload(plan, e.preload);
    TouchIsMerge(plan, e.preload);
    match e.key {
    case Dynamic =>
      MergeEmptyRight(own0);
    case Static(k) =>
      var inner := h.forNesting(options, k);
      match e.kind {
      case Plain =>
        MergeEmptyRight(own0);
      case Nesting(nested) =>
        WalkIsMerge(h, nested, touched, inner);
        MergeAssociative(plan, own0, Contribution(h, nested, inner));
      case Represent(roots) =>
        if e.preload.Some? {
          var p := e.preload.value;
          var sub := Contribution(h, roots, inner);
          WalkIsMerge(h, roots, touched.entries[p], inner);
          MergeEmptyRight(Single(p, sub));
          DescendIsMerge(plan, p, sub);
        } else {
          MergeEmptyRight(Empty());
          MergeEmptyRight(plan);
        }
      }
    }
  }

  /**
   * Main theorem: walking a list of exposures merges their joint contribution
   * into the hash. Paths reached twice are merged, never duplicated, and what
   * was there before survives.
   */
  lemma {:induction false} WalkIsMerge<O>(h: Host<O>, exposures: seq<Exposure>, plan: Plan, options: O)
    ensures Walk(h, exposures, plan, options) == Merge(plan, Contribution(h, exposures, options))
    decreases exposures, 1
  {
    if |exposures| == 0 {
      MergeEmptyRight(plan);
    } else {
      var last := |exposures| - 1;
      var before := Walk(h, exposures[..last], plan, options);
      WalkIsMerge(h, exposures[..last], plan, options);
      StepIsMerge(h, exposures[last], before, options);
      MergeAssociative(plan, Contribution(h, exposures[..last], options), ContributionOf(h, exposures[last], options));
    }
  }
}
