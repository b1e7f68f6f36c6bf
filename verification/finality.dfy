/**
 * `wait_for_transaction_body`: polling the node for a broadcast
 * transaction until it is found, the node reports a real error, or the
 * attempt budget is spent. The node is an oracle: `getTx(k)` is its answer
 * to the `k`-th query (0 is the first). The two-second pause between
 * queries is not modelled.
 */
module Finality {
  import opened Wrappers
  import opened Text
  import opened Chain

  /** `Tx` as the poll reads it: only the body. */
  datatype Tx = Tx(body: Option<TxBody>)

  /** `GetTxResponse`. */
  datatype GetTxResponse = GetTxResponse(tx: Option<Tx>, txResponse: Option<TxResponse>)

  /**
   * The connection a poll runs on: `connection` is the pool checkout, which
   * yields the `transaction_attempts` of the builder behind the connection
   * or fails with a message; `getTx` answers the queries in order.
   */
  datatype FinalityNode = FinalityNode(
    connection: Result<nat, string>,
    getTx: nat -> Result<GetTxResponse, Status>)

  /** A status the poll treats as "not yet": code NotFound, or a message containing `not found`. */
  predicate IsNotFound(status: Status) {
    status.code == NOT_FOUND || Contains(status.message, "not found")
  }

  /** A found transaction: its body and its response, or the first field that is missing. */
  function Extract(res: GetTxResponse, hash: string): (r: Result<(TxBody, TxResponse), Error>)
    ensures r.Ok? <==> res.tx.Some? && res.tx.value.body.Some? && res.txResponse.Some?
    ensures r.Ok? ==> r.value == (res.tx.value.body.value, res.txResponse.value)
    ensures r.Err? ==> r.error.MissingField?
  {
    match res.tx
    case None => Err(MissingField("Missing tx for transaction " + hash))
    case Some(tx) =>
      match tx.body
      case None => Err(MissingField("Missing body for transaction " + hash))
      case Some(body) =>
        match res.txResponse
        case None => Err(MissingField("Missing tx_response for transaction " + hash))
        case Some(txResponse) => Ok((body, txResponse))
  }

  /**
   * The outcome of the poll once `k` queries have come back "not found",
   * with the total number of queries sent.
   */
  function PollFrom(getTx: nat -> Result<GetTxResponse, Status>, hash: string, budget: nat, k: nat)
    : (out: (Result<(TxBody, TxResponse), Error>, nat))
    requires k <= budget
    ensures k <= out.1 <= budget
    decreases budget - k
  {
    if k == budget then (Err(TimedOut(hash)), k)
    else
      match getTx(k)
      case Ok(res) => (Extract(res, hash), k + 1)
      case Err(status) =>
        if IsNotFound(status) then PollFrom(getTx, hash, budget, k + 1)
        else (Err(Rpc("", status)), k + 1)
  }

  /** The whole poll: the pool checkout, then the queries. */
  function Poll(node: FinalityNode, hash: string): (out: (Result<(TxBody, TxResponse), Error>, nat))
    ensures node.connection.Err? ==> out == (Err(Transport(node.connection.error)), 0)
    ensures node.connection.Ok? ==> out.1 <= node.connection.value
  {
    match node.connection
    case Err(message) => (Err(Transport(message)), 0)
    case Ok(budget) => PollFrom(node.getTx, hash, budget, 0)
  }

  /** All queries from `k` up to (not including) `j` came back "not found". */
  predicate NotFoundBetween(getTx: nat -> Result<GetTxResponse, Status>, k: nat, j: nat) {
    forall i :: k <= i < j ==> getTx(i).Err? && IsNotFound(getTx(i).error)
  }

  /**
   * The poll times out exactly when every query of the budget came back
   * "not found", and it has then sent the whole budget.
   */
  lemma {:induction false} PollFromTimesOutIff(getTx: nat -> Result<GetTxResponse, Status>, hash: string, budget: nat, k: nat)
    requires k <= budget
    ensures PollFrom(getTx, hash, budget, k).0 == Err(TimedOut(hash)) <==> NotFoundBetween(getTx, k, budget)
    ensures NotFoundBetween(getTx, k, budget) ==> PollFrom(getTx, hash, budget, k).1 == budget
    decreases budget - k
  {
    if k < budget {
      PollFromTimesOutIff(getTx, hash, budget, k + 1);
    }
  }

  /**
   * The first query that does not come back "not found" decides the poll:
   * an answer is extracted, any other error is returned as it is, and no
   * further query is sent.
   */
  lemma {:induction false} PollFromFirstDecides(getTx: nat -> Result<GetTxResponse, Status>, hash: string, budget: nat, k: nat, j: nat)
    requires k <= j < budget
    requires NotFoundBetween(getTx, k, j)
    requires !(getTx(j).Err? && IsNotFound(getTx(j).error))
    ensures PollFrom(getTx, hash, budget, k).1 == j + 1
    ensures getTx(j).Ok? ==> PollFrom(getTx, hash, budget, k).0 == Extract(getTx(j).value, hash)
    ensures getTx(j).Err? ==> PollFrom(getTx, hash, budget, k).0 == Err(Rpc("", getTx(j).error))
    decreases j - k
  {
    if k < j {
      PollFromFirstDecides(getTx, hash, budget, k + 1, j);
    }
  }

  /**
   * The poll of a connection whose checkout succeeds times out exactly when
   * all its queries come back "not found"; a missing field in the found
   * transaction is an error, never a reason to query again.
   */
  lemma {:induction false} PollTimesOutIff(node: FinalityNode, hash: string)
    ensures Poll(node, hash).0 == Err(TimedOut(hash)) <==>
      node.connection.Ok? && NotFoundBetween(node.getTx, 0, node.connection.value)
  {
    if node.connection.Ok? {
      PollFromTimesOutIff(node.getTx, hash, node.connection.value, 0);
    }
  }

  /** `wait_for_transaction_body`: returns the poll's outcome and the number of queries sent. */
  method WaitForTransactionBody(node: FinalityNode, hash: string)
    returns (r: Result<(TxBody, TxResponse), Error>, queries: nat)
    ensures (r, queries) == Poll(node, hash)
  {
    if node.connection.Err? {
      return Err(Transport(node.connection.error)), 0;
    }
    var budget := node.connection.value;
    var attempt := 0;
    while attempt < budget
      invariant attempt <= budget
      invariant Poll(node, hash) == PollFrom(node.getTx, hash, budget, attempt)
      decreases budget - attempt
    {
      var reply := node.getTx(attempt);
      match reply {
        case Ok(res) =>
          return Extract(res, hash), attempt + 1;
        case Err(status) =>
          if !IsNotFound(status) {
            return Err(Rpc("", status)), attempt + 1;
          }
      }
      attempt := attempt + 1;
    }
    return Err(TimedOut(hash)), budget;
  }

  /** `wait_for_transaction`: the poll, keeping only the transaction's response. */
  method WaitForTransaction(node: FinalityNode, hash: string) returns (r: Result<TxResponse, Error>)
    ensures r.Ok? <==> Poll(node, hash).0.Ok?
    ensures r.Ok? ==> r.value == Poll(node, hash).0.value.1
    ensures r.Err? ==> r.error == Poll(node, hash).0.error
  {
    var body, _ := WaitForTransactionBody(node, hash);
    match body {
      case Ok(pair) => r := Ok(pair.1);
      case Err(e) => r := Err(e);
    }
  }
}
