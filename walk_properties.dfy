/**
 * What the walk promises, one rule of `extract_associations` at a time, and
 * the consequences of the main theorem Extraction.WalkIsMerge: the walk only
 * grows the hash, and neither the order of the exposures nor walking them a
 * second time changes the plan.
 */
module ExtractionProperties {
  import opened RubyValues
  import opened AssociationPlans
  import opened Exposures
  import opened Extraction

  /** An exposure that should not return its key adds no entry and is not entered. */
  lemma HiddenExposureChangesNothing<O>(h: Host<O>, e: Exposure, plan: Plan, options: O)
    requires !h.shouldReturnKey(e, options)
    ensures Step(h, e, plan, options) == plan
  {
  }

  /**
   * A visible exposure with `preload = p` leaves an entry for `p` at the
   * current level; an entry that was there already is kept and only grows,
   * so repeated paths merge instead of being replaced.
   */
  lemma PreloadEntryCreatedOrKept<O>(h: Host<O>, e: Exposure, plan: Plan, options: O)
    requires h.shouldReturnKey(e, options) && e.preload.Some?
    ensures e.preload.value in Step(h, e, plan, options).entries
    ensures e.preload.value in plan.entries ==>
              Grows(plan.entries[e.preload.value], Step(h, e, plan, options).entries[e.preload.value])
  {
    StepIsMerge(h, e, plan, options);
    GrowsMerge(plan, ContributionOf(h, e, options));
  }

  /**
   * A dynamic (callable) key still gets its `preload` entry, but nothing
   * below the exposure is visited: no other entry is added or changed, and a
   * new entry stays empty.
   */
  lemma DynamicKeyStopsDescent<O>(h: Host<O>, e: Exposure, plan: Plan, options: O)
    requires h.shouldReturnKey(e, options) && e.key.Dynamic?
    ensures var r := Step(h, e, plan, options);
      && r.entries.Keys == plan.entries.Keys + (if e.preload.Some? then {e.preload.value} else {})
      && (forall k :: k in plan.entries ==> r.entries[k] == plan.entries[k])
      && (e.preload.Some? && e.preload.value !in plan.entries ==> r.entries[e.preload.value] == Empty())
  {
  }

  /**
   * A nesting exposure walks its children under `for_nesting(key)` into the
   * same level: their contribution lands next to the exposure's own entry,
   * not inside it.
   */
  lemma NestingWritesSameLevel<O>(h: Host<O>, e: Exposure, plan: Plan, options: O)
    requires h.shouldReturnKey(e, options) && e.key.Static? && e.kind.Nesting?
    ensures Step(h, e, plan, options)
         == Merge(TouchPreload(plan, e.preload),
                  Contribution(h, e.kind.nestedExposures, h.forNesting(options, e.key.name)))
  {
    WalkIsMerge(h, e.kind.nestedExposures, TouchPreload(plan, e.preload), h.forNesting(options, e.key.name));
  }

  /** Every key one exposure contributes is a key of the whole list's contribution. */
  lemma {:induction false} ContributionIncludes<O>(h: Host<O>, exposures: seq<Exposure>, j: nat, options: O)
    requires j < |exposures|
    ensures ContributionOf(h, exposures[j], options).entries.Keys <= Contribution(h, exposures, options).entries.Keys
  {
    var last := |exposures| - 1;
    if j < last {
      ContributionIncludes(h, exposures[..last], j, options);
    }
  }

  /**
   * The source's example: a visible nested child with `preload = q` under a
   * nesting exposure puts `q` at the SAME level as the parent's own entry
   * (outer `:author` and inner `:books` end up as siblings).
   */
  lemma NestedPreloadIsSibling<O>(h: Host<O>, e: Exposure, j: nat, plan: Plan, options: O)
    requires h.shouldReturnKey(e, options) && e.key.Static? && e.kind.Nesting?
    requires j < |e.kind.nestedExposures|
    requires h.shouldReturnKey(e.kind.nestedExposures[j], h.forNesting(options, e.key.name))
    requires e.kind.nestedExposures[j].preload.Some?
    ensures e.kind.nestedExposures[j].preload.value in Step(h, e, plan, options).entries
    ensures e.preload.Some? ==> e.preload.value in Step(h, e, plan, options).entries
  {
    var inner := h.forNesting(options, e.key.name);
    NestingWritesSameLevel(h, e, plan, options);
    ContributionIncludes(h, e.kind.nestedExposures, j, inner);
  }

  /**
   * A represent exposure with `preload = p` walks the linked entity's root
   * exposures under `for_nesting(key)` into the sub-hash at `p` (the one that
   * was there, or a new empty one); the other entries are untouched.
   */
  lemma RepresentDescendsIntoPreload<O>(h: Host<O>, e: Exposure, plan: Plan, options: O)
    requires h.shouldReturnKey(e, options) && e.key.Static? && e.kind.Represent? && e.preload.Some?
    ensures var r, p := Step(h, e, plan, options), e.preload.value;
      && r.entries.Keys == plan.entries.Keys + {p}
      && (forall k :: k in plan.entries && k != p ==> r.entries[k] == plan.entries[k])
      && r.entries[p]
         == Merge(if p in plan.entries then plan.entries[p] else Empty(),
                  Contribution(h, e.kind.rootExposures, h.forNesting(options, e.key.name)))
  {
    var p := e.preload.value;
    var start := if p in plan.entries then plan.entries[p] else Empty();
    WalkIsMerge(h, e.kind.rootExposures, start, h.forNesting(options, e.key.name));
  }

  /** A represent exposure without `preload` does not descend and adds nothing. */
  lemma RepresentWithoutPreloadStops<O>(h: Host<O>, e: Exposure, plan: Plan, options: O)
    requires e.kind.Represent? && e.preload.None?
    ensures Step(h, e, plan, options) == plan
  {
  }

  /** A plain exposure without `preload` leaves the hash as it was. */
  lemma PlainWithoutPreloadUnchanged<O>(h: Host<O>, e: Exposure, plan: Plan, options: O)
    requires e.kind.Plain? && e.preload.None?
    ensures Step(h, e, plan, options) == plan
  {
  }

  /** The walk only grows the hash: no key is lost and no sub-hash shrinks. */
  lemma WalkGrows<O>(h: Host<O>, exposures: seq<Exposure>, plan: Plan, options: O)
    ensures Grows(plan, Walk(h, exposures, plan, options))
  {
    WalkIsMerge(h, exposures, plan, options);
    GrowsMerge(plan, Contribution(h, exposures, options));
  }

  /** Started from `{}`, as `call` does, the walk yields exactly the contribution. */
  lemma WalkFromEmpty<O>(h: Host<O>, exposures: seq<Exposure>, options: O)
    ensures Walk(h, exposures, Empty(), options) == Contribution(h, exposures, options)
  {
    WalkIsMerge(h, exposures, Empty(), options);
    MergeEmptyLeft(Contribution(h, exposures, options));
  }

  lemma {:induction false} ContributionAppend<O>(h: Host<O>, a: seq<Exposure>, b: seq<Exposure>, options: O)
    ensures Contribution(h, a + b, options) == Merge(Contribution(h, a, options), Contribution(h, b, options))
    decreases |b|
  {
    if |b| == 0 {
      assert a + b == a;
      MergeEmptyRight(Contribution(h, a, options));
    } else {
      var last := |b| - 1;
      assert (a + b)[..|a + b| - 1] == a + b[..last];
      assert (a + b)[|a + b| - 1] == b[last];
      ContributionAppend(h, a, b[..last], options);
      MergeAssociative(Contribution(h, a, options), Contribution(h, b[..last], options),
                       ContributionOf(h, b[last], options));
    }
  }

  /** Walking `a + b` is walking `a`, then walking `b` on the result. */
  lemma WalkAppend<O>(h: Host<O>, a: seq<Exposure>, b: seq<Exposure>, plan: Plan, options: O)
    ensures Walk(h, a + b, plan, options) == Walk(h, b, Walk(h, a, plan, options), options)
  {
    var ca, cb := Contribution(h, a, options), Contribution(h, b, options);
    WalkIsMerge(h, a + b, plan, options);
    ContributionAppend(h, a, b, options);
    WalkIsMerge(h, a, plan, options);
    WalkIsMerge(h, b, Merge(plan, ca), options);
    MergeAssociative(plan, ca, cb);
  }

  /** Swapping two consecutive blocks of exposures gives the same hash. */
  lemma WalkOrderIndependent<O>(h: Host<O>, a: seq<Exposure>, b: seq<Exposure>, plan: Plan, options: O)
    ensures Walk(h, a + b, plan, options) == Walk(h, b + a, plan, options)
  {
    WalkIsMerge(h, a + b, plan, options);
    WalkIsMerge(h, b + a, plan, options);
    ContributionAppend(h, a, b, options);
    ContributionAppend(h, b, a, options);
    MergeCommutative(Contribution(h, a, options), Contribution(h, b, options));
  }

  /** Taking the last exposure of `a` out of `a`, and one copy of it out of `b`, keeps the multisets equal. */
  lemma RemoveMatching(a: seq<Exposure>, b: seq<Exposure>, i: nat)
    requires multiset(a) == multiset(b) && 0 < |a| && i < |b| && b[i] == a[|a| - 1]
    ensures multiset(a[..|a| - 1]) == multiset(b[..i] + b[i + 1..])
  {
    var x := a[|a| - 1];
    assert a == a[..|a| - 1] + [x];
    assert b == b[..i] + [x] + b[i + 1..];
    assert multiset(a[..|a| - 1]) == multiset(a) - multiset{x};
    assert multiset(b[..i] + b[i + 1..]) == multiset(b) - multiset{x};
  }

  /** An exposure inserted anywhere contributes as if it came last. */
  lemma ContributionInsert<O>(h: Host<O>, front: seq<Exposure>, x: Exposure, back: seq<Exposure>, options: O)
    ensures Contribution(h, front + ([x] + back), options)
         == Merge(Contribution(h, front + back, options), ContributionOf(h, x, options))
  {
    var cf, cb, cx := Contribution(h, front, options), Contribution(h, back, options), ContributionOf(h, x, options);
    ContributionAppend(h, front, back, options);
    ContributionAppend(h, front, [x] + back, options);
    ContributionAppend(h, [x], back, options);
    assert [x][..0] == [];
    MergeEmptyLeft(cx);
    MergeCommutative(cx, cb);
    MergeAssociative(cf, cb, cx);
  }

  /** The contribution of a list depends only on which exposures it holds, not on their order. */
  lemma {:induction false} ContributionPermutation<O>(h: Host<O>, a: seq<Exposure>, b: seq<Exposure>, options: O)
    requires multiset(a) == multiset(b)
    ensures Contribution(h, a, options) == Contribution(h, b, options)
    decreases |a|
  {
    if |a| == 0 {
      assert |b| == |multiset(b)| == 0;
      return;
    }
    var last := |a| - 1;
    assert a[last] in multiset(b);
    var i :| 0 <= i < |b| && b[i] == a[last];
    RemoveMatching(a, b, i);
    ContributionPermutation(h, a[..last], b[..i] + b[i + 1..], options);
    ContributionInsert(h, b[..i], a[last], b[i + 1..], options);
    assert b == b[..i] + ([a[last]] + b[i + 1..]);
  }

  /** The plan does not depend on the order of the exposures: any permutation gives the same hash. */
  lemma WalkPermutation<O>(h: Host<O>, a: seq<Exposure>, b: seq<Exposure>, plan: Plan, options: O)
    requires multiset(a) == multiset(b)
    ensures Walk(h, a, plan, options) == Walk(h, b, plan, options)
  {
    WalkIsMerge(h, a, plan, options);
    WalkIsMerge(h, b, plan, options);
    ContributionPermutation(h, a, b, options);
  }

  /** The walk leaves the hash as it was exactly when the hash already includes the exposures' contribution. */
  lemma WalkFixedIffIncludes<O>(h: Host<O>, exposures: seq<Exposure>, plan: Plan, options: O)
    ensures Walk(h, exposures, plan, options) == plan <==> Grows(Contribution(h, exposures, options), plan)
  {
    var c := Contribution(h, exposures, options);
    WalkIsMerge(h, exposures, plan, options);
    MergeCommutative(plan, c);
    GrowsIffMergeAbsorbs(c, plan);
  }

  /** Walking the same exposures over the result again adds nothing. */
  lemma WalkIdempotent<O>(h: Host<O>, exposures: seq<Exposure>, plan: Plan, options: O)
    ensures Walk(h, exposures, Walk(h, exposures, plan, options), options) == Walk(h, exposures, plan, options)
  {
    var c := Contribution(h, exposures, options);
    WalkIsMerge(h, exposures, plan, options);
    WalkIsMerge(h, exposures, Merge(plan, c), options);
    MergeAssociative(plan, c, c);
    MergeIdempotent(c);
  }
}
