/**
 * Signing and broadcasting a transaction: the gas-price tiers, the
 * classification of each broadcast answer, the finality wait, and the
 * one-shot recovery from an account sequence mismatch, at simulation and
 * at broadcast time.
 *
 * The node is an oracle. Broadcasts are numbered in the order they are
 * made over one submission; `node.broadcast(i)` is the node's answer to
 * broadcast `i` and `node.finality(i)` the connection on which the
 * finality poll after broadcast `i` runs. Signing is represented by the
 * `SignedTx` record of what is signed; the signature bytes are not
 * modelled.
 */
module Broadcast {
  import opened Wrappers
  import opened Chain
  import opened Gas
  import opened SequenceHint
  import opened Finality
  import opened TxBuilding

  /** The code the node answers with when the fee does not cover the gas. */
  const INSUFFICIENT_FEE: nat := 13

  /** `ExpectedSequenceError`: a real error, or a sequence number the node asked for. */
  datatype SeqError =
    | RealError(e: Error)
    | NewNumber(n: nat, e: Error)

  /** `From<ExpectedSequenceError> for anyhow::Error`: the error, whatever the variant. */
  function IntoError(se: SeqError): (e: Error)
    ensures se.RealError? ==> e == se.e
    ensures se.NewNumber? ==> e == se.e
  {
    match se
    case RealError(e) => e
    case NewNumber(_, e) => e
  }

  /** The outcome of one attempt at one gas price. */
  datatype AttemptError =
    | Inner(inner: SeqError)
    | InsufficientGas(e: Error)

  datatype Fee = Fee(amount: seq<Coin>, gasLimit: nat)

  /** What a broadcast transaction commits to: the sign document and the transaction. */
  datatype SignedTx = SignedTx(
    body: TxBody,
    signerInfos: seq<SignerInfo>,
    fee: Fee,
    chainId: string,
    accountNumber: nat)

  /** The node's answer to a broadcast: a failed pool checkout, an error status, or a response. */
  datatype BroadcastReply =
    | CheckoutFailed(message: string)
    | BroadcastRpcError(status: Status)
    | Broadcasted(txResponse: Option<TxResponse>)

  datatype Node = Node(
    broadcast: nat -> BroadcastReply,
    finality: nat -> FinalityNode)

  /**
   * The transaction signed at one tier: the wallet signs at `sequence`, the
   * fee is `amount` of the first builder's gas coin with gas limit `gas`,
   * for the first builder's chain.
   */
  function MakeAttempt(first: CosmosBuilder, publicKey: seq<bv8>, accountNumber: nat,
                       sequence: nat, body: TxBody, gas: nat, amount: nat): (tx: SignedTx)
    ensures tx.body == body && tx.accountNumber == accountNumber
    ensures tx.signerInfos == MakeSignerInfos(publicKey, sequence)
    ensures tx.fee == Fee([Coin(first.gasCoin, amount)], gas)
    ensures tx.chainId == first.chainId
  {
    SignedTx(body, MakeSignerInfos(publicKey, sequence), Fee([Coin(first.gasCoin, amount)], gas),
             first.chainId, accountNumber)
  }

  /** The sequence a signed transaction is signed at. */
  function SignerSequence(tx: SignedTx): nat
  {
    if |tx.signerInfos| > 0 then tx.signerInfos[0].sequence else 0
  }

  /**
   * The first check on a broadcast answer, made unless the code check is
   * skipped: code 13 asks for a higher price; any other non-zero code is a
   * sequence mismatch when its raw log carries a hint, and a real error
   * otherwise. `None` means the answer passes.
   */
  function CheckBroadcastCode(skip: bool, res: TxResponse): (r: Option<AttemptError>)
    ensures r.None? <==> skip || res.code == 0
    ensures r == Some(InsufficientGas(BroadcastFailed(INSUFFICIENT_FEE, res.rawLog))) <==>
      !skip && res.code == INSUFFICIENT_FEE
    ensures (r.Some? && r.value.Inner? && r.value.inner.NewNumber?) <==>
      !skip && res.code != 0 && res.code != INSUFFICIENT_FEE && ExpectedSequence(res.rawLog).Some?
    ensures r.Some? && r.value.Inner? && r.value.inner.NewNumber? ==>
      r.value.inner == NewNumber(ExpectedSequence(res.rawLog).value, BroadcastFailed(res.code, res.rawLog))
    ensures r.Some? && r.value.InsufficientGas? ==> r.value.e == BroadcastFailed(INSUFFICIENT_FEE, res.rawLog)
    ensures !skip && res.code != 0 && res.code != INSUFFICIENT_FEE && ExpectedSequence(res.rawLog).None? ==>
      r == Some(Inner(RealError(BroadcastFailed(res.code, res.rawLog))))
  {
    if skip || res.code == 0 then None
    else
      var e := BroadcastFailed(res.code, res.rawLog);
      if res.code == INSUFFICIENT_FEE then Some(InsufficientGas(e))
      else
        match ExpectedSequence(res.rawLog)
        case None => Some(Inner(RealError(e)))
        case Some(n) => Some(Inner(NewNumber(n, e)))
  }

  /**
   * `retry_with_price`: the outcome of one broadcast at one price, given the
   * node's answer and the finality connection. A failure after the
   * transaction has landed is always a real error.
   */
  function AttemptResult(skip: bool, reply: BroadcastReply, fin: FinalityNode)
    : (r: Result<TxResponse, AttemptError>)
    ensures r.Ok? ==> reply.Broadcasted? && reply.txResponse.Some? && (skip || r.value.code == 0)
    ensures r.Err? && r.error.InsufficientGas? ==> AsksForMoreGas(skip, reply)
    ensures !reply.Broadcasted? || reply.txResponse.None? ==> r.Err? && r.error.Inner? && r.error.inner.RealError?
  {
    match reply
    case CheckoutFailed(message) => Err(Inner(RealError(Transport(message))))
    case BroadcastRpcError(status) => Err(Inner(RealError(Rpc("Unable to broadcast transaction", status))))
    case Broadcasted(None) => Err(Inner(RealError(MissingField("Missing inner tx_response"))))
    case Broadcasted(Some(res)) =>
      match CheckBroadcastCode(skip, res)
      case Some(err) => Err(err)
      case None =>
        var landed := Poll(fin, res.txhash).0;
        if landed.Err? then Err(Inner(RealError(landed.error)))
        else
          var final := landed.value.1;
          if !skip && final.code != 0 then
            Err(Inner(RealError(TransactionFailed(final.code, final.rawLog))))
          else Ok(final)
  }

  /** The answer a broadcast must get for the tier loop to move on to the next price. */
  predicate AsksForMoreGas(skip: bool, reply: BroadcastReply) {
    !skip && reply.Broadcasted? && reply.txResponse.Some? && reply.txResponse.value.code == INSUFFICIENT_FEE
  }

  /**
   * An attempt ends in `InsufficientGas` exactly when the synchronous answer
   * has code 13 and the code check is on.
   */
  lemma {:induction false} AttemptInsufficientGasIff(skip: bool, reply: BroadcastReply, fin: FinalityNode)
    ensures AttemptResult(skip, reply, fin).Err? && AttemptResult(skip, reply, fin).error.InsufficientGas?
      <==> AsksForMoreGas(skip, reply)
  {
    if reply.Broadcasted? && reply.txResponse.Some? {
      var check := CheckBroadcastCode(skip, reply.txResponse.value);
      if check.Some? && check.value.InsufficientGas? {
        assert check == Some(InsufficientGas(BroadcastFailed(INSUFFICIENT_FEE, reply.txResponse.value.rawLog)));
      }
    }
  }

  /**
   * An attempt ends in the new sequence number `n` exactly when the
   * synchronous answer has a non-zero code other than 13, the code check is
   * on, and the raw log's hint is `n`; the error kept is the broadcast
   * failure.
   */
  lemma {:induction false} AttemptNewNumberIff(skip: bool, reply: BroadcastReply, fin: FinalityNode, n: nat, e: Error)
    ensures AttemptResult(skip, reply, fin) == Err(Inner(NewNumber(n, e))) <==>
      !skip && reply.Broadcasted? && reply.txResponse.Some?
      && reply.txResponse.value.code != 0 && reply.txResponse.value.code != INSUFFICIENT_FEE
      && ExpectedSequence(reply.txResponse.value.rawLog) == Some(n)
      && e == BroadcastFailed(reply.txResponse.value.code, reply.txResponse.value.rawLog)
  {
    if reply.Broadcasted? && reply.txResponse.Some? {
      var res := reply.txResponse.value;
      if CheckBroadcastCode(skip, res).None? {
        AttemptAfterLanding(skip, reply, fin);
      }
    }
  }

  /**
   * Once the synchronous answer passes, the outcome is the finality poll's:
   * its error as a real error, or the landed response, which must have code
   * 0 unless the code check is skipped.
   */
  lemma {:induction false} AttemptAfterLanding(skip: bool, reply: BroadcastReply, fin: FinalityNode)
    requires reply.Broadcasted? && reply.txResponse.Some?
    requires skip || reply.txResponse.value.code == 0
    ensures var landed := Poll(fin, reply.txResponse.value.txhash).0;
      var r := AttemptResult(skip, reply, fin);
      && (landed.Err? ==> r == Err(Inner(RealError(landed.error))))
      && (landed.Ok? && (skip || landed.value.1.code == 0) ==> r == Ok(landed.value.1))
      && (landed.Ok? && !skip && landed.value.1.code != 0 ==>
            r == Err(Inner(RealError(TransactionFailed(landed.value.1.code, landed.value.1.rawLog)))))
  {
    assert CheckBroadcastCode(skip, reply.txResponse.value).None?;
  }

  /**
   * An attempt succeeds only with the response the finality poll found for
   * the broadcast's hash, and, unless the code check is skipped, both the
   * synchronous answer and that response have code 0.
   */
  lemma {:induction false} AttemptOkLanded(skip: bool, reply: BroadcastReply, fin: FinalityNode)
    ensures var r := AttemptResult(skip, reply, fin);
      r.Ok? ==>
        && reply.Broadcasted? && reply.txResponse.Some?
        && (skip || reply.txResponse.value.code == 0)
        && Poll(fin, reply.txResponse.value.txhash).0.Ok?
        && r.value == Poll(fin, reply.txResponse.value.txhash).0.value.1
        && (skip || r.value.code == 0)
  {
    if reply.Broadcasted? && reply.txResponse.Some? && CheckBroadcastCode(skip, reply.txResponse.value).None? {
      AttemptAfterLanding(skip, reply, fin);
    }
  }

  /** The outcome of each broadcast of a submission, numbered as the node numbers them. */
  function Outcomes(skip: bool, node: Node): nat -> Result<TxResponse, AttemptError>
  {
    (i: nat) => AttemptResult(skip, node.broadcast(i), node.finality(i))
  }

  /**
   * The result of a run of the tier loop, and the number of the broadcast
   * that follows its last one.
   */
  datatype TierRun = TierRun(result: Result<TxResponse, SeqError>, next: nat)

  /** An attempt outcome that sends the tier loop on to the next price. */
  predicate IsInsufficientGas(r: Result<TxResponse, AttemptError>) {
    r.Err? && r.error.InsufficientGas?
  }

  /**
   * The tier loop from broadcast `i` on, when broadcast `last` is made at the
   * final tier: `outcome(i)` is the outcome of broadcast `i`. Before `last`
   * an `InsufficientGas` moves on to the next broadcast at the next price; at
   * `last` it becomes a real error.
   */
  function TiersFrom(outcome: nat -> Result<TxResponse, AttemptError>, i: nat, last: nat)
    : (run: TierRun)
    requires i <= last
    ensures i < run.next <= last + 1
    decreases last - i
  {
    match outcome(i)
    case Ok(x) => TierRun(Ok(x), i + 1)
    case Err(Inner(e)) => TierRun(Err(e), i + 1)
    case Err(InsufficientGas(e)) =>
      if i < last then TiersFrom(outcome, i + 1, last)
      else TierRun(Err(RealError(e)), i + 1)
  }

  /** The tier loop over `attempts + 1` tiers starting at broadcast `start`. */
  function Tiers(outcome: nat -> Result<TxResponse, AttemptError>, start: nat, attempts: nat): (run: TierRun)
    ensures start < run.next <= start + attempts + 1
  {
    TiersFrom(outcome, start, start + attempts)
  }

  /**
   * The tier loop stops at the first outcome that is not `InsufficientGas`
   * and returns it; every earlier broadcast was `InsufficientGas`.
   */
  lemma {:induction false} TiersStopAtFirstOther(outcome: nat -> Result<TxResponse, AttemptError>,
                                                 i: nat, last: nat)
    requires i <= last
    ensures var TierRun(r, next) := TiersFrom(outcome, i, last);
      && (forall j :: i <= j < next - 1 ==> IsInsufficientGas(outcome(j)))
      && (outcome(next - 1).Ok? ==> r == Ok(outcome(next - 1).value))
      && (outcome(next - 1).Err? && outcome(next - 1).error.Inner? ==>
            r == Err(outcome(next - 1).error.inner))
      && (IsInsufficientGas(outcome(next - 1)) ==>
            next == last + 1 && r == Err(RealError(outcome(last).error.e)))
    decreases last - i
  {
    if i < last && IsInsufficientGas(outcome(i)) {
      TiersStopAtFirstOther(outcome, i + 1, last);
    }
  }

  /**
   * The transactions of a tier loop so far: the `k`-th is signed at
   * `sequence` and offers the price of tier `k`.
   */
  predicate SignedAtTiers(signed: seq<SignedTx>, first: CosmosBuilder, publicKey: seq<bv8>,
                          accountNumber: nat, sequence: nat, body: TxBody, gas: nat)
  {
    forall k :: 0 <= k < |signed| ==>
      signed[k] == MakeAttempt(first, publicKey, accountNumber, sequence, body, gas,
                               GasToCoins(first.config, gas, k))
  }

  /**
   * The transactions of a tier loop differ only in the amount offered: each
   * carries the given account number, sequence, body, gas limit and chain,
   * and with `low <= high` a later tier never offers less.
   */
  lemma {:induction false} SignedAtTiersEscalate(signed: seq<SignedTx>, first: CosmosBuilder, publicKey: seq<bv8>,
                                                accountNumber: nat, sequence: nat, body: TxBody, gas: nat)
    requires SignedAtTiers(signed, first, publicKey, accountNumber, sequence, body, gas)
    ensures forall k :: 0 <= k < |signed| ==>
      && signed[k].body == body && signed[k].fee.gasLimit == gas
      && signed[k].accountNumber == accountNumber && signed[k].chainId == first.chainId
      && SignerSequence(signed[k]) == sequence
      && signed[k].fee.amount == [Coin(first.gasCoin, GasToCoins(first.config, gas, k))]
    ensures first.config.gasPriceLow <= first.config.gasPriceHigh ==>
      forall j, k :: 0 <= j <= k < |signed| ==> signed[j].fee.amount[0].amount <= signed[k].fee.amount[0].amount
  {
    forall k | 0 <= k < |signed|
      ensures SignerSequence(signed[k]) == sequence
    {
      assert signed[k].signerInfos == MakeSignerInfos(publicKey, sequence);
    }
    if first.config.gasPriceLow <= first.config.gasPriceHigh {
      forall j, k | 0 <= j <= k < |signed|
        ensures signed[j].fee.amount[0].amount <= signed[k].fee.amount[0].amount
      {
        GasToCoinsMonotonic(first.config, gas, j, k);
      }
    }
  }

  /**
   * One tier of `sign_and_broadcast_with`: signs at the price of the next
   * tier and makes broadcast number `i`.
   */
  method SignAndTryTier(skip: bool, first: CosmosBuilder, publicKey: seq<bv8>, node: Node,
                        accountNumber: nat, sequence: nat, body: TxBody, gas: nat, i: nat,
                        signed: seq<SignedTx>)
    returns (res: Result<TxResponse, AttemptError>, signed': seq<SignedTx>)
    requires SignedAtTiers(signed, first, publicKey, accountNumber, sequence, body, gas)
    ensures res == Outcomes(skip, node)(i)
    ensures |signed'| == |signed| + 1 && signed'[..|signed|] == signed
    ensures SignedAtTiers(signed', first, publicKey, accountNumber, sequence, body, gas)
  {
    var amount := GasToCoins(first.config, gas, |signed|);
    signed' := signed + [MakeAttempt(first, publicKey, accountNumber, sequence, body, gas, amount)];
    res := AttemptResult(skip, node.broadcast(i), node.finality(i));
  }

  /**
   * `sign_and_broadcast_with`: tries the tiers in order, from the low price
   * up, with prices from the first builder's configuration, making
   * broadcasts `start`, `start + 1`, and so on. Returns the outcome and the
   * transactions signed, one per tier tried.
   */
  method SignAndBroadcastWith(skip: bool, first: CosmosBuilder, publicKey: seq<bv8>, node: Node,
                              start: nat, accountNumber: nat, sequence: nat, body: TxBody, gas: nat)
    returns (r: Result<TxResponse, SeqError>, signed: seq<SignedTx>)
    ensures TierRun(r, start + |signed|) == Tiers(Outcomes(skip, node), start, first.config.gasPriceRetryAttempts)
    ensures SignedAtTiers(signed, first, publicKey, accountNumber, sequence, body, gas)
  {
    var last := start + first.config.gasPriceRetryAttempts;
    ghost var outcome := Outcomes(skip, node);
    signed := [];
    var i := start;
    while i < last
      invariant start <= i <= last && |signed| == i - start
      invariant SignedAtTiers(signed, first, publicKey, accountNumber, sequence, body, gas)
      invariant TiersFrom(outcome, start, last) == TiersFrom(outcome, i, last)
      decreases last - i
    {
      var res;
      res, signed := SignAndTryTier(skip, first, publicKey, node, accountNumber, sequence, body, gas, i, signed);
      match res {
        case Ok(x) =>
          return Ok(x), signed;
        case Err(Inner(e)) =>
          return Err(e), signed;
        case Err(InsufficientGas(_)) =>
      }
      i := i + 1;
    }
    var res;
    res, signed := SignAndTryTier(skip, first, publicKey, node, accountNumber, sequence, body, gas, last, signed);
    match res {
      case Ok(x) => r := Ok(x);
      case Err(InsufficientGas(e)) => r := Err(RealError(e));
      case Err(Inner(e)) => r := Err(e);
    }
  }

  /** The broadcasts numbered from `lo` up to (not including) `hi` all asked for more gas. */
  predicate MoreGasBetween(skip: bool, node: Node, lo: nat, hi: int) {
    forall i: nat :: lo <= i < hi ==> AsksForMoreGas(skip, node.broadcast(i))
  }

  /** A synchronous answer that reports a sequence mismatch with hint `n`. */
  predicate MismatchAnswer(skip: bool, reply: BroadcastReply, n: nat) {
    && !skip && reply.Broadcasted? && reply.txResponse.Some?
    && reply.txResponse.value.code != 0 && reply.txResponse.value.code != INSUFFICIENT_FEE
    && ExpectedSequence(reply.txResponse.value.rawLog) == Some(n)
  }

  /**
   * Every broadcast before the last one of a tier loop asked for more gas:
   * the loop moves on only when the synchronous answer has code 13 and the
   * code check is on.
   */
  lemma {:induction false} TiersAdvanceOnlyOnInsufficientFee(skip: bool, node: Node, start: nat, last: nat)
    requires start <= last
    ensures MoreGasBetween(skip, node, start, TiersFrom(Outcomes(skip, node), start, last).next - 1)
  {
    var outcome := Outcomes(skip, node);
    TiersStopAtFirstOther(outcome, start, last);
    var next := TiersFrom(outcome, start, last).next;
    forall i: nat | start <= i < next - 1
      ensures AsksForMoreGas(skip, node.broadcast(i))
    {
      assert IsInsufficientGas(outcome(i));
      AttemptInsufficientGasIff(skip, node.broadcast(i), node.finality(i));
    }
  }

  /**
   * When every broadcast, the final tier's included, asks for more gas, all
   * tiers are tried and the last code-13 failure is returned as a real
   * error.
   */
  lemma {:induction false} TiersExhausted(skip: bool, node: Node, start: nat, last: nat)
    requires start <= last
    requires MoreGasBetween(skip, node, start, last + 1)
    ensures var final := node.broadcast(last).txResponse.value;
      TiersFrom(Outcomes(skip, node), start, last)
        == TierRun(Err(RealError(BroadcastFailed(INSUFFICIENT_FEE, final.rawLog))), last + 1)
  {
    var outcome := Outcomes(skip, node);
    TiersStopAtFirstOther(outcome, start, last);
    var i := TiersFrom(outcome, start, last).next - 1;
    var reply := node.broadcast(i);
    assert AsksForMoreGas(skip, reply);
    assert CheckBroadcastCode(skip, reply.txResponse.value)
      == Some(InsufficientGas(BroadcastFailed(INSUFFICIENT_FEE, reply.txResponse.value.rawLog)));
    assert outcome(i) == Err(InsufficientGas(BroadcastFailed(INSUFFICIENT_FEE, reply.txResponse.value.rawLog)));
  }

  /**
   * A sequence mismatch is reported only from a synchronous answer, never
   * after the transaction has landed: the last broadcast of the loop was
   * answered with a code other than 0 and 13 whose raw log carries the
   * number.
   */
  lemma {:induction false} TiersNewNumberOnlyBeforeLanding(skip: bool, node: Node, start: nat, last: nat,
                                                           n: nat, e: Error)
    requires start <= last
    ensures var out := TiersFrom(Outcomes(skip, node), start, last);
      out.result == Err(NewNumber(n, e)) ==> MismatchAnswer(skip, node.broadcast(out.next - 1), n)
  {
    TiersResultFromLast(Outcomes(skip, node), start, last);
    var out := TiersFrom(Outcomes(skip, node), start, last);
    if out.result == Err(NewNumber(n, e)) {
      OutcomeMismatch(skip, node, out.next - 1, n, e);
    }
  }

  /**
   * A success or a sequence mismatch the tier loop returns is the outcome of
   * its last broadcast.
   */
  lemma {:induction false} TiersResultFromLast(outcome: nat -> Result<TxResponse, AttemptError>,
                                               start: nat, last: nat)
    requires start <= last
    ensures var out := TiersFrom(outcome, start, last);
      && (out.result.Ok? ==> outcome(out.next - 1) == Ok(out.result.value))
      && (out.result.Err? && out.result.error.NewNumber? ==> outcome(out.next - 1) == Err(Inner(out.result.error)))
  {
    TiersStopAtFirstOther(outcome, start, last);
  }

  /** An attempt that reports a sequence mismatch was answered with the mismatch. */
  lemma OutcomeMismatch(skip: bool, node: Node, i: nat, n: nat, e: Error)
    requires Outcomes(skip, node)(i) == Err(Inner(NewNumber(n, e)))
    ensures MismatchAnswer(skip, node.broadcast(i), n)
  {
    AttemptNewNumberIff(skip, node.broadcast(i), node.finality(i), n, e);
  }

  /** With the code check skipped, exactly one broadcast is made and any failure is a real error. */
  lemma {:induction false} TiersSkipCodeCheck(node: Node, start: nat, last: nat)
    requires start <= last
    ensures TiersFrom(Outcomes(true, node), start, last).next == start + 1
    ensures TiersFrom(Outcomes(true, node), start, last).result.Err? ==>
      TiersFrom(Outcomes(true, node), start, last).result.error.RealError?
  {
    AttemptInsufficientGasIff(true, node.broadcast(start), node.finality(start));
    var r := AttemptResult(true, node.broadcast(start), node.finality(start));
    assert r.Err? && r.error.Inner? ==> r.error.inner.RealError?;
  }

  /** A sequence mismatch reported by a tier loop. */
  predicate IsNewNumber(r: Result<TxResponse, SeqError>) {
    r.Err? && r.error.NewNumber?
  }

  /** A tier loop's result as a plain error: both kinds of failure keep their error. */
  function PlainResult(r: Result<TxResponse, SeqError>): (p: Result<TxResponse, Error>)
    ensures p.Ok? <==> r.Ok?
    ensures r.Ok? ==> p.value == r.value
    ensures r.Err? ==> p.error == r.error.e
  {
    match r
    case Ok(x) => Ok(x)
    case Err(se) => Err(IntoError(se))
  }

  /**
   * The outcome of `inner_sign_and_broadcast` with `attempts` price steps:
   * the tier loop from broadcast 0 at the fetched account's sequence and,
   * when it reports a sequence mismatch, one more tier loop from the next
   * broadcast, whose failure of either kind is a plain error.
   */
  function InnerResult(outcome: nat -> Result<TxResponse, AttemptError>, attempts: nat,
                       account: Result<BaseAccount, Error>): (r: Result<TxResponse, Error>)
    ensures account.Err? ==> r == Err(account.error)
  {
    if account.Err? then Err(account.error)
    else
      var run := Tiers(outcome, 0, attempts);
      if IsNewNumber(run.result) then PlainResult(Tiers(outcome, run.next, attempts).result)
      else PlainResult(run.result)
  }

  /** The second tier loop of `inner_sign_and_broadcast`, at the sequence `n` the node reported. */
  method RetryAtSequence(skip: bool, first: CosmosBuilder, publicKey: seq<bv8>, node: Node,
                         accountNumber: nat, n: nat, body: TxBody, gas: nat, from: nat)
    returns (r: Result<TxResponse, Error>, signed: seq<SignedTx>)
    ensures var run := Tiers(Outcomes(skip, node), from, first.config.gasPriceRetryAttempts);
      r == PlainResult(run.result) && from + |signed| == run.next
    ensures SignedAtTiers(signed, first, publicKey, accountNumber, n, body, gas)
  {
    var r2;
    r2, signed := SignAndBroadcastWith(skip, first, publicKey, node, from, accountNumber, n, body, gas);
    r := PlainResult(r2);
  }

  /**
   * `inner_sign_and_broadcast`: fetches the account, runs the tier loop, and
   * retries it once at the sequence the node reports. The recovery is
   * one-shot: the first loop signs at the fetched sequence; after a
   * mismatch the second signs at the number the node reported, starting
   * over from the low price, and no third loop runs.
   */
  method InnerSignAndBroadcast(skip: bool, first: CosmosBuilder, publicKey: seq<bv8>, node: Node,
                               account: Result<BaseAccount, Error>, body: TxBody, gas: nat)
    returns (r: Result<TxResponse, Error>, signed: seq<SignedTx>)
    ensures r == InnerResult(Outcomes(skip, node), first.config.gasPriceRetryAttempts, account)
    ensures account.Err? ==> signed == []
    ensures account.Ok? ==>
      var acct := account.value;
      var attempts := first.config.gasPriceRetryAttempts;
      var run := Tiers(Outcomes(skip, node), 0, attempts);
      && run.next <= |signed| <= 2 * (attempts + 1)
      && SignedAtTiers(signed[..run.next], first, publicKey, acct.accountNumber, acct.sequence, body, gas)
      && (IsNewNumber(run.result) ==>
            && |signed| == Tiers(Outcomes(skip, node), run.next, attempts).next
            && SignedAtTiers(signed[run.next..], first, publicKey, acct.accountNumber, run.result.error.n, body, gas))
      && (!IsNewNumber(run.result) ==> |signed| == run.next)
  {
    if account.Err? {
      return Err(account.error), [];
    }
    var acct := account.value;
    var r1, signed1 := SignAndBroadcastWith(skip, first, publicKey, node, 0,
                                            acct.accountNumber, acct.sequence, body, gas);
    assert signed1[..|signed1|] == signed1;
    match r1 {
      case Ok(x) =>
        r, signed := Ok(x), signed1;
      case Err(RealError(e)) =>
        r, signed := Err(e), signed1;
      case Err(NewNumber(n, _)) =>
        var signed2;
        r, signed2 := RetryAtSequence(skip, first, publicKey, node, acct.accountNumber, n, body, gas, |signed1|);
        signed := signed1 + signed2;
        assert signed[..|signed1|] == signed1 && signed[|signed1|..] == signed2;
    }
  }

  /**
   * `inner_sign_and_broadcast` reports success only for a transaction that
   * landed with code 0, unless the code check is skipped.
   */
  lemma {:induction false} InnerSuccessLanded(skip: bool, node: Node, attempts: nat, account: Result<BaseAccount, Error>)
    ensures var r := InnerResult(Outcomes(skip, node), attempts, account);
      r.Ok? ==> skip || r.value.code == 0
  {
    if account.Ok? {
      var outcome := Outcomes(skip, node);
      var run := Tiers(outcome, 0, attempts);
      TiersResultFromLast(outcome, 0, attempts);
      if IsNewNumber(run.result) {
        var run2 := Tiers(outcome, run.next, attempts);
        TiersResultFromLast(outcome, run.next, run.next + attempts);
        if run2.result.Ok? {
          AttemptOkLanded(skip, node.broadcast(run2.next - 1), node.finality(run2.next - 1));
        }
      } else if run.result.Ok? {
        AttemptOkLanded(skip, node.broadcast(run.next - 1), node.finality(run.next - 1));
      }
    }
  }
}
