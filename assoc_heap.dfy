/**
 * The association hash as the source has it: a mutable Ruby Hash whose values
 * are further Hashes, updated in place. Each level is one AssocHash object;
 * `repr` is the set of objects that make up the hash with all its sub-hashes,
 * and `model` is its value as an AssociationPlans.Plan.
 */
module AssocHeap {
  import opened RubyValues
  import opened AssociationPlans
  import Extraction

  class AssocHash {
    var entries: map<Sym, AssocHash>
    ghost var repr: set<object>
    ghost var model: Plan

    /**
     * The hashes form a tree: each sub-hash belongs to exactly one parent
     * entry, so updating one sub-hash cannot be seen through another.
     */
    ghost predicate Valid()
      reads this, repr
      decreases repr
    {
      && this in repr
      && (forall k :: k in entries ==>
            entries[k] in repr && entries[k].repr <= repr && this !in entries[k].repr)
      && (forall k, j :: k in entries && j in entries && k != j ==> entries[k].repr !! entries[j].repr)
      && (forall k :: k in entries ==> entries[k].Valid())
      && model.entries.Keys == entries.Keys
      && (forall k :: k in entries ==> model.entries[k] == entries[k].model)
    }

    /** `{}` */
    constructor ()
      ensures Valid() && fresh(repr) && model == Empty()
    {
      entries := map[];
      repr := {this};
      model := Empty();
    }

    /**
     * `self[p] ||= {}`: returns the sub-hash at `p`, creating an empty one
     * first when there is none. An existing sub-hash is returned as it is.
     */
    method FetchOrCreate(p: Sym) returns (child: AssocHash)
      requires Valid()
      modifies this
      ensures Valid()
      ensures p in entries && child == entries[p]
      ensures p in old(entries) ==> child == old(entries[p])
      ensures p !in old(entries) ==> fresh(child)
      ensures model == Extraction.Touch(old(model), p)
      ensures old(repr) <= repr && fresh(repr - old(repr))
    {
      if p in entries {
        child := entries[p];
      } else {
        child := new AssocHash();
        entries := entries[p := child];
        repr := repr + child.repr;
        model := Plan(model.entries[p := Empty()]);
      }
    }

    /**
     * Re-attaches the sub-hash at `p` after it was updated in place: the hash
     * is a valid tree again once its footprint and value take in the
     * sub-hash's new ones. The other entries must be intact.
     */
    ghost method Absorb(p: Sym)
      requires p in entries && this in repr && model.entries.Keys == entries.Keys
      requires this !in entries[p].repr && entries[p].Valid()
      requires forall k :: k in entries && k != p ==>
                 entries[k] in repr && entries[k].repr <= repr && this !in entries[k].repr
                 && entries[k].Valid() && entries[k].repr !! entries[p].repr
                 && model.entries[k] == entries[k].model
      requires forall k, j :: k in entries && j in entries && k != j && k != p && j != p ==>
                 entries[k].repr !! entries[j].repr
      modifies this
      ensures Valid()
      ensures entries == old(entries)
      ensures repr == old(repr) + old(entries[p].repr)
      ensures model == Plan(old(model).entries[p := old(entries[p].model)])
    {
      repr := repr + entries[p].repr;
      model := Plan(model.entries[p := entries[p].model]);
    }
  }
}
