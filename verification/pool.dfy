/**
 * `CosmosBuilders`: the list of node endpoints a client connects through,
 * and the cursor that hands them out in turn whenever the connection pool
 * opens a new connection.
 */
module Pool {
  import opened Chain

  /** Where the cursor moves after handing out the builder at `i` of `n`. */
  function NextIndex(i: nat, n: nat): (j: nat)
    requires i < n
    ensures j < n
    ensures j == (i + 1) % n
  {
    if i + 1 >= n then
      assert i + 1 == n;
      0
    else
      assert (i + 1) / n == 0;
      i + 1
  }

  /** The builders handed out by `k` successive requests when the cursor starts at `start`. */
  function Schedule(bs: seq<CosmosBuilder>, start: nat, k: nat): (out: seq<CosmosBuilder>)
    requires start < |bs|
    ensures |out| == k
    decreases k
  {
    if k == 0 then [] else [bs[start]] + Schedule(bs, NextIndex(start, |bs|), k - 1)
  }

  /**
   * Requests from cursor `start` hand out the builders from `start` to the
   * end of the list in order, then start over from the first builder.
   */
  lemma {:induction false} ScheduleWraps(bs: seq<CosmosBuilder>, start: nat, k: nat)
    requires start < |bs|
    ensures Schedule(bs, start, |bs| - start + k) == bs[start..] + Schedule(bs, 0, k)
    decreases |bs| - start
  {
    var next := NextIndex(start, |bs|);
    if start + 1 == |bs| {
      assert next == 0;
      assert bs[start..] == [bs[start]];
    } else {
      ScheduleWraps(bs, next, k);
      assert bs[start..] == [bs[start]] + bs[next..];
    }
  }

  /**
   * From the cursor at 0, `|bs|` requests hand out every builder exactly
   * once, in list order.
   */
  lemma {:induction false} RoundRobinCoversAll(bs: seq<CosmosBuilder>)
    requires |bs| > 0
    ensures Schedule(bs, 0, |bs|) == bs
  {
    ScheduleWraps(bs, 0, 0);
    assert bs[0..] == bs;
  }

  /** The cursor is periodic: after every builder has been handed out once, the order repeats. */
  lemma {:induction false} RoundRobinRepeats(bs: seq<CosmosBuilder>, k: nat)
    requires |bs| > 0
    ensures Schedule(bs, 0, |bs| + k) == bs + Schedule(bs, 0, k)
  {
    ScheduleWraps(bs, 0, k);
    assert bs[0..] == bs;
  }

  class CosmosBuilders {
    var builders: seq<CosmosBuilder>
    var nextIndex: nat

    /** A pool always holds at least one builder, and the cursor points at one of them. */
    predicate Valid()
      reads this
    {
      |builders| > 0 && nextIndex < |builders|
    }

    /** `From<CosmosBuilder>`: a pool of exactly one builder, cursor at the start. */
    constructor (b: CosmosBuilder)
      ensures Valid()
      ensures builders == [b] && nextIndex == 0
    {
      builders := [b];
      nextIndex := 0;
    }

    /** `get_first_builder`: the builder the pool was created from. */
    function FirstBuilder(): (b: CosmosBuilder)
      reads this
      requires Valid()
      ensures b == builders[0]
    {
      builders[0]
    }

    /** `add`: append an endpoint; the cursor is left where it was. */
    method Add(b: CosmosBuilder)
      requires Valid()
      modifies this
      ensures Valid()
      ensures builders == old(builders) + [b]
      ensures nextIndex == old(nextIndex)
    {
      builders := builders + [b];
    }

    /**
     * `get_next_builder`: the builder under the cursor; the cursor advances
     * by one and wraps to 0 after the last builder.
     */
    method GetNextBuilder() returns (b: CosmosBuilder)
      requires Valid()
      modifies this
      ensures Valid()
      ensures builders == old(builders)
      ensures [b] == Schedule(builders, old(nextIndex), 1)
      ensures nextIndex == NextIndex(old(nextIndex), |builders|)
    {
      b := builders[nextIndex];
      nextIndex := nextIndex + 1;
      if nextIndex >= |builders| {
        nextIndex := 0;
      }
    }
  }
}
