/** Bounding a history: master and slave both drop the oldest entries beyond a cap. */
module Retention {
  import opened Sets

  function Clamp(excess: int, size: nat): nat {
    if excess <= 0 then 0 else if excess <= size then excess else size
  }

  /** `dropped` is what dropping `excess` candidates, oldest first, may drop. Which of
      equally old ones go is left open, as an unstable sort leaves it. */
  ghost predicate Evicts<K>(at: map<K, int>, excess: int, dropped: set<K>) {
    && dropped <= at.Keys
    && |dropped| == Clamp(excess, |at.Keys|)
    && forall d, kept :: d in dropped && kept in at.Keys - dropped ==> at[d] <= at[kept]
  }

  ghost predicate Oldest<K>(at: map<K, int>, ids: set<K>, id: K)
    requires ids <= at.Keys
  {
    id in ids && forall other :: other in ids ==> at[id] <= at[other]
  }

  /** Finds an entry as old as any other, as sorting by age and taking the first does. */
  method FindOldest<K(==)>(at: map<K, int>, ids: set<K>) returns (oldest: K)
    requires ids != {} && ids <= at.Keys
    ensures Oldest(at, ids, oldest)
  {
    oldest :| oldest in ids;
    var pending := ids - {oldest};
    while pending != {}
      invariant pending <= ids
      invariant Oldest(at, ids - pending, oldest)
      decreases pending
    {
      var id :| id in pending;
      if at[id] < at[oldest] {
        oldest := id;
      }
      pending := pending - {id};
    }
    assert ids - pending == ids;
  }

  method FindEvicted<K(==)>(at: map<K, int>, excess: int) returns (dropped: set<K>)
    ensures Evicts(at, excess, dropped)
  {
    dropped := {};
    var left := at.Keys;
    var n := Clamp(excess, |at.Keys|);
    for i := 0 to n
      invariant dropped <= at.Keys && left == at.Keys - dropped && |dropped| == i
      invariant forall d, kept :: d in dropped && kept in left ==> at[d] <= at[kept]
    {
      assert |left| == |at.Keys| - i;
      var id := FindOldest(at, left);
      dropped := dropped + {id};
      left := left - {id};
    }
  }

  /** Dropping from the entries without an exempt set leaves at most the cap, or the exempt
      ones if those alone exceed it. */
  lemma EvictionBounds<K>(entries: set<K>, exempt: set<K>, candidates: set<K>, cap: nat, dropped: set<K>)
    requires candidates == entries - exempt && dropped <= candidates
    requires |dropped| == Clamp(|entries| - cap, |candidates|)
    ensures |entries - dropped| <= cap || |entries - dropped| <= |exempt|
  {
    SplitSize(entries, dropped);
    SplitSize(candidates, dropped);
    if |dropped| == |candidates| {
      SubsetSize(entries - dropped, exempt);
    }
  }
}
