/**
 * The association plan as a value: the nested hash of association names that
 * the preloader hands to the bulk loader, e.g. `{ author: { books: {} } }`.
 * The heap form that the walk mutates lives in module AssocHeap; this module
 * gives its abstract value and the two relations the walk is described by:
 * deep union (Merge) and deep inclusion (Grows).
 */
module AssociationPlans {
  import opened RubyValues

  /** A node of the nested association hash: association name to sub-plan. */
  datatype Plan = Plan(entries: map<Sym, Plan>)

  /** The empty hash `{}`. */
  function Empty(): Plan
  {
    Plan(map[])
  }

  /**
   * Deep union of two plans: every key of either side, with the sub-plans of
   * keys present on both sides merged recursively.
   */
  function Merge(a: Plan, b: Plan): (r: Plan)
    ensures r.entries.Keys == a.entries.Keys + b.entries.Keys
  {
    Plan(map k | k in a.entries.Keys + b.entries.Keys ::
      if k in a.entries && k in b.entries then Merge(a.entries[k], b.entries[k])
      else if k in a.entries then a.entries[k]
      else b.entries[k])
  }

  /**
   * Deep inclusion: every key of `a` is still a key of `b`, and each sub-plan
   * of `a` is included in the corresponding sub-plan of `b`.
   */
  ghost predicate Grows(a: Plan, b: Plan)
  {
    forall k :: k in a.entries ==> k in b.entries && Grows(a.entries[k], b.entries[k])
  }

  lemma MergeEmptyRight(a: Plan)
    ensures Merge(a, Empty()) == a
  {
    assert Merge(a, Empty()).entries == a.entries;
  }

  lemma MergeEmptyLeft(b: Plan)
    ensures Merge(Empty(), b) == b
  {
    assert Merge(Empty(), b).entries == b.entries;
  }

  lemma {:induction false} MergeIdempotent(a: Plan)
    ensures Merge(a, a) == a
  {
    forall k | k in a.entries
      ensures Merge(a, a).entries[k] == a.entries[k]
    {
      MergeIdempotent(a.entries[k]);
    }
    assert Merge(a, a).entries == a.entries;
  }

  lemma {:induction false} MergeCommutative(a: Plan, b: Plan)
    ensures Merge(a, b) == Merge(b, a)
  {
    forall k | k in a.entries && k in b.entries
      ensures Merge(a, b).entries[k] == Merge(b, a).entries[k]
    {
      MergeCommutative(a.entries[k], b.entries[k]);
    }
    assert Merge(a, b).entries == Merge(b, a).entries;
  }

  lemma {:induction false} MergeAssociative(a: Plan, b: Plan, c: Plan)
    ensures Merge(Merge(a, b), c) == Merge(a, Merge(b, c))
  {
    var l, r := Merge(Merge(a, b), c), Merge(a, Merge(b, c));
    forall k | k in l.entries
      ensures l.entries[k] == r.entries[k]
    {
      if k in a.entries && k in b.entries && k in c.entries {
        MergeAssociative(a.entries[k], b.entries[k], c.entries[k]);
      }
    }
    assert l.entries == r.entries;
  }

  lemma {:induction false} GrowsReflexive(a: Plan)
    ensures Grows(a, a)
  {
    forall k | k in a.entries
      ensures Grows(a.entries[k], a.entries[k])
    {
      GrowsReflexive(a.entries[k]);
    }
  }

  /** Merging anything into a plan never loses a key or shrinks a sub-plan. */
  lemma {:induction false} GrowsMerge(a: Plan, b: Plan)
    ensures Grows(a, Merge(a, b))
  {
    forall k | k in a.entries
      ensures k in Merge(a, b).entries && Grows(a.entries[k], Merge(a, b).entries[k])
    {
      if k in b.entries {
        GrowsMerge(a.entries[k], b.entries[k]);
      } else {
        GrowsReflexive(a.entries[k]);
      }
    }
  }

  /** Deep inclusion is exactly "merging adds nothing": the lattice order of Merge. */
  lemma {:induction false} GrowsIffMergeAbsorbs(a: Plan, b: Plan)
    ensures Grows(a, b) <==> Merge(a, b) == b
  {
    if Grows(a, b) {
      forall k | k in a.entries
        ensures Merge(a, b).entries[k] == b.entries[k]
      {
        GrowsIffMergeAbsorbs(a.entries[k], b.entries[k]);
      }
      assert Merge(a, b).entries == b.entries;
    }
    if Merge(a, b) == b {
      forall k | k in a.entries
        ensures k in b.entries && Grows(a.entries[k], b.entries[k])
      {
        assert Merge(a, b).entries[k] == b.entries[k];
        GrowsIffMergeAbsorbs(a.entries[k], b.entries[k]);
      }
    }
  }
}
