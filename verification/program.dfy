/**
 * The data generator's bookkeeping: a dictionary from partition id to the
 * number of stars the gateway reported storing there, bumped once per pushed
 * star.
 */
module Program {
  import opened Models

  type Counts = map<string, int>

  /** The sum of all counts. */
  ghost function Total(m: Counts): int
    decreases |m|
  {
    if m == map[] then 0
    else
      var k :| k in m;
      assert |(m - {k}).Keys| < |m.Keys| by { assert (m - {k}).Keys == m.Keys - {k}; }
      m[k] + Total(m - {k})
  }

  /** The total can be split at any key. */
  lemma {:induction false} TotalRemove(m: Counts, k: string)
    requires k in m
    ensures Total(m) == m[k] + Total(m - {k})
    decreases |m|
  {
    var j :| j in m && Total(m) == m[j] + Total(m - {j});
    if j != k {
      assert (m - {j}).Keys == m.Keys - {j};
      assert (m - {k}).Keys == m.Keys - {k};
      TotalRemove(m - {j}, k);
      TotalRemove(m - {k}, j);
      assert m - {j} - {k} == m - {k} - {j};
    }
  }

  /** Every stored count is at least one. */
  predicate AllPositive(m: Counts)
  {
    forall p :: p in m ==> m[p] >= 1
  }

  /**
   * `CountPartition`'s effect on the dictionary: an unseen id enters with
   * count 1, a seen one goes up by one, every other count stays, and counts
   * stay positive.
   */
  function Bump(m: Counts, partitionId: string): (r: Counts)
    ensures r.Keys == m.Keys + {partitionId}
    ensures r[partitionId] == (if partitionId in m then m[partitionId] + 1 else 1)
    ensures forall q :: q in m && q != partitionId ==> r[q] == m[q]
    ensures AllPositive(m) ==> AllPositive(r)
  {
    m[partitionId := if partitionId in m then m[partitionId] + 1 else 1]
  }

  /** Counting one partition adds exactly one to the total. */
  lemma BumpTotal(m: Counts, partitionId: string)
    ensures Total(Bump(m, partitionId)) == Total(m) + 1
  {
    var b := Bump(m, partitionId);
    TotalRemove(b, partitionId);
    if partitionId in m {
      TotalRemove(m, partitionId);
      assert b - {partitionId} == m - {partitionId};
    } else {
      assert b - {partitionId} == m;
    }
  }

  /**
   * The dictionary after counting each id of `ids` in turn: its keys are the
   * old keys and the ids seen, no count goes down, and counts stay positive.
   */
  function Tallied(m: Counts, ids: seq<string>): (r: Counts)
    ensures r.Keys == m.Keys + set i | i in ids
    ensures forall q :: q in m ==> r[q] >= m[q]
    ensures AllPositive(m) ==> AllPositive(r)
  {
    if ids == [] then m else Bump(Tallied(m, ids[..|ids| - 1]), ids[|ids| - 1])
  }

  /** After counting `ids`, the total has grown by the number of ids counted. */
  lemma {:induction false} TalliedTotal(m: Counts, ids: seq<string>)
    ensures Total(Tallied(m, ids)) == Total(m) + |ids|
  {
    if ids != [] {
      TalliedTotal(m, ids[..|ids| - 1]);
      BumpTotal(Tallied(m, ids[..|ids| - 1]), ids[|ids| - 1]);
    }
  }

  /**
   * Counting from an empty dictionary: the keys are exactly the ids seen, and
   * each count is the number of times its id occurs.
   */
  lemma {:induction false} TalliedCounts(ids: seq<string>)
    ensures Tallied(map[], ids).Keys == set i | i in ids
    ensures forall p :: p in Tallied(map[], ids) ==> Tallied(map[], ids)[p] == multiset(ids)[p]
  {
    if ids != [] {
      var init, last := ids[..|ids| - 1], ids[|ids| - 1];
      TalliedCounts(init);
      assert ids == init + [last];
      assert multiset(ids) == multiset(init) + multiset{last};
    }
  }

  /** The static `PartitionCounts` dictionary and the pushes that fill it. */
  class PartitionCounter {
    var counts: Counts

    /** Every stored count is at least one. */
    ghost predicate Valid()
      reads this
    {
      AllPositive(counts)
    }

    constructor ()
      ensures Valid() && counts == map[]
    {
      counts := map[];
    }

    /** `CountPartition`: adds an unseen id with count 1, or increments a seen one. */
    method CountPartition(partitionId: string)
      requires Valid()
      modifies this
      ensures Valid()
      ensures counts == Bump(old(counts), partitionId)
      ensures counts.Keys == old(counts).Keys + {partitionId}
      ensures partitionId in old(counts) ==> counts[partitionId] == old(counts)[partitionId] + 1
      ensures partitionId !in old(counts) ==> counts[partitionId] == 1
      ensures forall q :: q in old(counts) && q != partitionId ==> counts[q] == old(counts)[q]
      ensures Total(counts) == Total(old(counts)) + 1
    {
      if partitionId in counts {
        counts := counts[partitionId := counts[partitionId] + 1];
      } else {
        counts := counts[partitionId := 1];
      }
      BumpTotal(old(counts), partitionId);
    }

    /**
     * The push loop of `GenerateDataAndSave`: `replies[i]` is the partition id
     * the gateway reported for `stars[i]`.
     */
    method PushStars(stars: seq<StarEntity>, replies: seq<string>) returns (counter: int, totalCount: int)
      requires Valid()
      requires |replies| == |stars|
      modifies this
      ensures Valid()
      ensures counter == totalCount == |stars|
      ensures counts == Tallied(old(counts), replies)
      ensures Total(counts) == Total(old(counts)) + |stars|
    {
      totalCount := |stars|;
      counter := 0;
      var i := 0;
      while i < |stars|
        invariant 0 <= i <= |stars|
        invariant counter == i
        invariant Valid()
        invariant counts == Tallied(old(counts), replies[..i])
      {
        counter := counter + 1;
        CountPartition(replies[i]);
        assert replies[..i + 1][..i] == replies[..i];
        i := i + 1;
      }
      assert replies[..i] == replies;
      TalliedTotal(old(counts), replies);
    }
  }
}
