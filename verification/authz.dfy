/**
 * The authz module: the messages that grant and use authorizations, the
 * helper that builds a generic grant, and the listing of the grants an
 * address has given.
 */
module Authz {
  import opened Wrappers
  import opened Chain
  import opened Paging

  const MsgGrantTypeUrl: string := "/cosmos.authz.v1beta1.MsgGrant"
  const MsgExecTypeUrl: string := "/cosmos.authz.v1beta1.MsgExec"
  const GenericAuthorizationTypeUrl: string := "/cosmos.authz.v1beta1.GenericAuthorization"

  /** `MsgGrant` as a transaction message: tagged with its type URL, carrying its encoding. */
  function MsgGrantMessage(msg: MsgGrant): (m: Any)
    ensures m.typeUrl == MsgGrantTypeUrl
  {
    Any(MsgGrantTypeUrl, MsgGrantBytes(msg))
  }

  /** `MsgExec` as a transaction message. */
  function MsgExecMessage(msg: MsgExec): (m: Any)
    ensures m.typeUrl == MsgExecTypeUrl
  {
    Any(MsgExecTypeUrl, MsgExecBytes(msg))
  }

  /** An authz message read back from a transaction message. */
  datatype AuthzMessage = Granting(grant: MsgGrant) | Executing(exec: MsgExec)

  /** The receiving side: the type URL says which message the payload must encode. */
  function ReadAuthzMessage(m: Any): (r: Option<AuthzMessage>)
    ensures r.Some? ==> m.typeUrl == MsgGrantTypeUrl || m.typeUrl == MsgExecTypeUrl
  {
    if m.typeUrl == MsgGrantTypeUrl && m.value.MsgGrantBytes? then Some(Granting(m.value.grant))
    else if m.typeUrl == MsgExecTypeUrl && m.value.MsgExecBytes? then Some(Executing(m.value.exec))
    else None
  }

  /** Both conversions lose nothing, and a grant is never mistaken for an exec. */
  lemma AuthzMessagesRoundTrip(g: MsgGrant, e: MsgExec)
    ensures ReadAuthzMessage(MsgGrantMessage(g)) == Some(Granting(g))
    ensures ReadAuthzMessage(MsgExecMessage(e)) == Some(Executing(e))
    ensures MsgGrantMessage(g) != MsgExecMessage(e)
  {
    assert MsgGrantTypeUrl[25] != MsgExecTypeUrl[25];
  }

  /** Nanoseconds within a second as `chrono` reports them (a leap second reaches past 10^9). */
  type SubsecNanos = n: nat | n < 2_000_000_000

  /** `DateTime<Utc>`: seconds since the epoch and the nanoseconds past them. */
  datatype UtcDateTime = UtcDateTime(timestamp: int, subsecNanos: SubsecNanos)

  /**
   * `datetime_to_timestamp`. The conversion of the nanoseconds to `i32`
   * cannot fail, as they stay below 2^31.
   */
  function DateTimeToTimestamp(x: UtcDateTime): (t: Timestamp)
    ensures t.seconds == x.timestamp && t.nanos == x.subsecNanos
    ensures 0 <= t.nanos < 0x8000_0000
  {
    Timestamp(x.timestamp, x.subsecNanos)
  }

  /** `MsgGrantHelper`: a generic grant from `granter` to `grantee` for one message type. */
  datatype MsgGrantHelper = MsgGrantHelper(
    granter: string,
    grantee: string,
    authorization: string,
    expiration: Option<UtcDateTime>)

  /**
   * `MsgGrant::from(MsgGrantHelper)`: the addresses as they are, the
   * authorization wrapped as a `GenericAuthorization`, and the expiration,
   * if any, as a timestamp.
   */
  function MsgGrantFromHelper(h: MsgGrantHelper): (m: MsgGrant)
    ensures m.granter == h.granter && m.grantee == h.grantee
    ensures m.grant.Some?
    ensures m.grant.value.authorization
      == Some(Any(GenericAuthorizationTypeUrl, GenericAuthorizationBytes(h.authorization)))
    ensures m.grant.value.expiration.None? <==> h.expiration.None?
  {
    var authorization := Any(GenericAuthorizationTypeUrl, GenericAuthorizationBytes(h.authorization));
    var expiration := match h.expiration
      case None => None
      case Some(x) => Some(DateTimeToTimestamp(x));
    MsgGrant(h.granter, h.grantee, Some(Grant(Some(authorization), expiration)))
  }

  /** `TypedMessage::from(MsgGrantHelper)`: the grant built above, as a `MsgGrant` message. */
  function HelperMessage(h: MsgGrantHelper): (m: Any)
    ensures ReadAuthzMessage(m) == Some(Granting(MsgGrantFromHelper(h)))
  {
    MsgGrantMessage(MsgGrantFromHelper(h))
  }

  /** The helper a `MsgGrant` was built from, when it has the shape the helper gives. */
  function HelperOf(m: MsgGrant): Option<MsgGrantHelper> {
    match m.grant
    case Some(Grant(Some(Any(url, GenericAuthorizationBytes(msg))), expiration)) =>
      if url != GenericAuthorizationTypeUrl then None
      else
        (match expiration
         case None => Some(MsgGrantHelper(m.granter, m.grantee, msg, None))
         case Some(t) =>
           if 0 <= t.nanos < 2_000_000_000
           then Some(MsgGrantHelper(m.granter, m.grantee, msg, Some(UtcDateTime(t.seconds, t.nanos))))
           else None)
    case _ => None
  }

  /** The conversion from the helper keeps every field: the helper can be read back. */
  lemma {:induction false} MsgGrantFromHelperRoundTrip(h: MsgGrantHelper)
    ensures HelperOf(MsgGrantFromHelper(h)) == Some(h)
  {
    match h.expiration {
      case None =>
      case Some(x) =>
        assert MsgGrantFromHelper(h).grant.value.expiration == Some(Timestamp(x.timestamp, x.subsecNanos));
    }
  }

  /** `GrantAuthorization`: one grant given by an address. */
  datatype GrantAuthorization = GrantAuthorization(
    granter: string,
    grantee: string,
    authorization: Option<Any>,
    expiration: Option<Timestamp>)

  datatype GrantsRequest = GrantsRequest(granter: string, pagination: Option<PageRequest>)

  /** One page of `QueryGranterGrantsResponse`. */
  datatype GrantsPage = GrantsPage(grants: seq<GrantAuthorization>, pagination: Option<PageResponse>)

  /** The page size asked for after the first page. */
  const GrantsPageLimit: nat := 10

  /** The node's answer ends the loop: an error, or a page with no grants. */
  predicate EmptyPage(reply: Result<GrantsPage, Error>) {
    reply.Err? || reply.value.grants == []
  }

  /** The grants a reply contributes. */
  function PageGrants(reply: Result<GrantsPage, Error>): seq<GrantAuthorization> {
    if reply.Ok? then reply.value.grants else []
  }

  /**
   * The pagination of the request after `page`, once `collected` grants are
   * gathered: its next key from offset `collected`, ten at a time; none when
   * the page carried no page response.
   */
  function NextPagination(page: GrantsPage, collected: nat): Option<PageRequest> {
    match page.pagination
    case None => None
    case Some(p) => Some(PageRequest(p.nextKey, collected, GrantsPageLimit, false, false))
  }

  /**
   * `req` is the request sent after the non-empty page `prev`, once
   * `collected` grants are gathered.
   */
  predicate FollowsGrants(req: GrantsRequest, granter: string, prev: Result<GrantsPage, Error>, collected: nat) {
    && !EmptyPage(prev)
    && req == GrantsRequest(granter, NextPagination(prev.value, collected))
  }

  /**
   * The outcome the replies lead to: the error of the last reply read, or
   * the grants of the pages before the first empty one, in order.
   */
  function GrantsOutcome(replies: seq<Result<GrantsPage, Error>>): Result<seq<GrantAuthorization>, Error>
    requires FirstStop(EmptyPage, replies, 0) < |replies|
  {
    var n := FirstStop(EmptyPage, replies, 0);
    if replies[n].Err? then Err(replies[n].error) else Ok(Gathered(replies[..n], PageGrants))
  }

  /**
   * `query_granter_grants`: the first request carries no pagination; each
   * non-empty page is appended and the next request continues from its next
   * key at the number of grants gathered; the first empty page ends the loop.
   * Returns the outcome and the requests sent.
   */
  method QueryGranterGrants(granter: string, replies: seq<Result<GrantsPage, Error>>)
    returns (r: Result<seq<GrantAuthorization>, Error>, requests: seq<GrantsRequest>)
    requires FirstStop(EmptyPage, replies, 0) < |replies|
    ensures r == GrantsOutcome(replies)
    ensures |requests| == FirstStop(EmptyPage, replies, 0) + 1
    ensures requests[0] == GrantsRequest(granter, None)
    ensures forall k :: 0 < k < |requests| ==>
      FollowsGrants(requests[k], granter, replies[k - 1], |Gathered(replies[..k], PageGrants)|)
  {
    ghost var n := FirstStop(EmptyPage, replies, 0);
    var res: seq<GrantAuthorization> := [];
    var pagination: Option<PageRequest> := None;
    requests := [];
    var i := 0;
    while true
      invariant 0 <= i <= n && |requests| == i
      invariant res == Gathered(replies[..i], PageGrants)
      invariant i == 0 ==> pagination == None
      invariant 0 < i ==> FollowsGrants(GrantsRequest(granter, pagination), granter, replies[i - 1], |res|)
      invariant forall k :: 0 < k < i ==>
        FollowsGrants(requests[k], granter, replies[k - 1], |Gathered(replies[..k], PageGrants)|)
      invariant 0 < i ==> requests[0] == GrantsRequest(granter, None)
      decreases n - i
    {
      if i < n {
        FirstStopIsFirst(EmptyPage, replies, 0, i);
      }
      requests := requests + [GrantsRequest(granter, pagination)];
      var reply := replies[i];
      if reply.Err? {
        return Err(reply.error), requests;
      }
      var grants := reply.value.grants;
      if grants == [] {
        return Ok(res), requests;
      }
      assert replies[..i + 1][..i] == replies[..i];
      res := res + grants;
      pagination := NextPagination(reply.value, |res|);
      i := i + 1;
    }
  }
}
