/**
 * What the two page loops of the client share: the Cosmos SDK page request
 * and response records, the position of the page that ends a loop, and the
 * in-order concatenation of the items the pages carry.
 *
 * A node's answers to a page loop are given as the sequence of replies it
 * would send, in order; the loop reads them one per request.
 */
module Paging {
  /** `cosmos.base.query.v1beta1.PageRequest`. */
  datatype PageRequest = PageRequest(key: seq<bv8>, offset: nat, limit: nat, countTotal: bool, reverse: bool)

  /** `cosmos.base.query.v1beta1.PageResponse`. */
  datatype PageResponse = PageResponse(nextKey: seq<bv8>, total: nat)

  /**
   * The position of the first reply, from `from` on, after which a page loop
   * stops; `|replies|` when no reply stops it.
   */
  function FirstStop<T>(stops: T -> bool, replies: seq<T>, from: nat): (k: nat)
    requires from <= |replies|
    ensures from <= k <= |replies|
    ensures k < |replies| ==> stops(replies[k])
    decreases |replies| - from
  {
    if from == |replies| then from
    else if stops(replies[from]) then from
    else FirstStop(stops, replies, from + 1)
  }

  /** No reply before the first stopping one stops the loop. */
  lemma {:induction false} FirstStopIsFirst<T>(stops: T -> bool, replies: seq<T>, from: nat, j: nat)
    requires from <= |replies| && from <= j < FirstStop(stops, replies, from)
    ensures !stops(replies[j])
    decreases |replies| - from
  {
    if j > from {
      FirstStopIsFirst(stops, replies, from + 1, j);
    }
  }

  /** The items of `pages`, page after page, each page's items in order. */
  function Gathered<T, U>(pages: seq<T>, items: T -> seq<U>): (all: seq<U>)
    ensures pages == [] ==> all == []
  {
    if pages == [] then [] else Gathered(pages[..|pages| - 1], items) + items(pages[|pages| - 1])
  }

  /** Gathering is additive: the items of two runs of pages, one after the other. */
  lemma {:induction false} GatheredAppend<T, U>(p: seq<T>, q: seq<T>, items: T -> seq<U>)
    ensures Gathered(p + q, items) == Gathered(p, items) + Gathered(q, items)
    decreases |q|
  {
    if q == [] {
      assert p + q == p;
    } else {
      var q' := q[..|q| - 1];
      assert (p + q)[..|p + q| - 1] == p + q';
      GatheredAppend(p, q', items);
    }
  }
}
