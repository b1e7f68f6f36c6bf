/**
 * `all_balances`: the bank balances of an address, read page by page.
 */
module Balances {
  import opened Wrappers
  import opened Chain
  import opened Paging

  datatype BalancesRequest = BalancesRequest(address: string, pagination: Option<PageRequest>)

  /** One page of `QueryAllBalancesResponse`. */
  datatype BalancesPage = BalancesPage(balances: seq<Coin>, pagination: Option<PageResponse>)

  /** The node's answer ends the loop: an error, no page response, or an empty next key. */
  predicate LastPage(reply: Result<BalancesPage, Error>) {
    reply.Err? || reply.value.pagination.None? || reply.value.pagination.value.nextKey == []
  }

  /** The coins a reply contributes. */
  function PageCoins(reply: Result<BalancesPage, Error>): seq<Coin> {
    if reply.Ok? then reply.value.balances else []
  }

  /** The request after a page whose next key is `key`: that key, no offset and no limit. */
  function ContinueFrom(key: seq<bv8>): PageRequest {
    PageRequest(key, 0, 0, false, false)
  }

  /** `req` is the request sent after the page `prev`: it continues from that page's next key. */
  predicate Follows(req: BalancesRequest, address: string, prev: Result<BalancesPage, Error>) {
    && !LastPage(prev)
    && req == BalancesRequest(address, Some(ContinueFrom(prev.value.pagination.value.nextKey)))
  }

  /**
   * The outcome the replies lead to: the error of the last reply read, or
   * every coin of every page read, in order.
   */
  function AllBalancesOutcome(replies: seq<Result<BalancesPage, Error>>): (r: Result<seq<Coin>, Error>)
    requires FirstStop(LastPage, replies, 0) < |replies|
  {
    var n := FirstStop(LastPage, replies, 0);
    if replies[n].Err? then Err(replies[n].error) else Ok(Gathered(replies[..n + 1], PageCoins))
  }

  /**
   * `all_balances`: sends the first request without pagination, appends the
   * balances of each page, and continues from the page's next key until a
   * page comes without a page response or with an empty next key. Returns
   * the outcome and the requests sent.
   */
  method AllBalances(address: string, replies: seq<Result<BalancesPage, Error>>)
    returns (r: Result<seq<Coin>, Error>, requests: seq<BalancesRequest>)
    requires FirstStop(LastPage, replies, 0) < |replies|
    ensures r == AllBalancesOutcome(replies)
    ensures |requests| == FirstStop(LastPage, replies, 0) + 1
    ensures requests[0] == BalancesRequest(address, None)
    ensures forall k :: 0 < k < |requests| ==> Follows(requests[k], address, replies[k - 1])
  {
    ghost var n := FirstStop(LastPage, replies, 0);
    var coins: seq<Coin> := [];
    var pagination: Option<PageRequest> := None;
    requests := [];
    var i := 0;
    while true
      invariant 0 <= i <= n && |requests| == i
      invariant coins == Gathered(replies[..i], PageCoins)
      invariant i == 0 ==> pagination == None
      invariant 0 < i ==> Follows(BalancesRequest(address, pagination), address, replies[i - 1])
      invariant forall k :: 0 < k < i ==> Follows(requests[k], address, replies[k - 1])
      invariant 0 < i ==> requests[0] == BalancesRequest(address, None)
      decreases n - i
    {
      if i < n {
        FirstStopIsFirst(LastPage, replies, 0, i);
      }
      requests := requests + [BalancesRequest(address, pagination)];
      var reply := replies[i];
      if reply.Err? {
        return Err(reply.error), requests;
      }
      assert replies[..i + 1][..i] == replies[..i];
      coins := coins + reply.value.balances;
      match reply.value.pagination {
        case Some(page) =>
          if page.nextKey == [] {
            return Ok(coins), requests;
          }
          pagination := Some(ContinueFrom(page.nextKey));
        case None =>
          return Ok(coins), requests;
      }
      if i == n {
        assert false;
      }
      i := i + 1;
    }
  }

  /**
   * A page with a non-empty next key never ends the loop, even when it holds
   * no coins; and every coin a read page carries is in the result.
   */
  lemma {:induction false} AllBalancesKeepsEveryPage(replies: seq<Result<BalancesPage, Error>>, j: nat)
    requires FirstStop(LastPage, replies, 0) < |replies|
    requires j <= FirstStop(LastPage, replies, 0)
    requires AllBalancesOutcome(replies).Ok?
    ensures j < FirstStop(LastPage, replies, 0) ==> !LastPage(replies[j])
    ensures replies[j].Ok?
    ensures exists pre, post :: AllBalancesOutcome(replies).value == pre + replies[j].value.balances + post
  {
    var n := FirstStop(LastPage, replies, 0);
    if j < n {
      FirstStopIsFirst(LastPage, replies, 0, j);
    }
    var pages := replies[..n + 1];
    assert pages == replies[..j] + [replies[j]] + replies[j + 1..n + 1];
    GatheredAppend(replies[..j] + [replies[j]], replies[j + 1..n + 1], PageCoins);
    GatheredAppend(replies[..j], [replies[j]], PageCoins);
    assert Gathered([replies[j]], PageCoins) == replies[j].value.balances by {
      assert [replies[j]][..0] == [];
    }
  }
}
