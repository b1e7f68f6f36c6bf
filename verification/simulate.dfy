/**
 * Simulating a transaction to learn the gas it needs, with the one-shot
 * recovery from an account sequence mismatch reported by the node.
 *
 * The node's answers to the simulation requests are an oracle numbered by
 * request: `replies(0)` answers the first request and `replies(1)` the
 * retry. The request is recorded as the unsigned transaction it carries.
 */
module Simulation {
  import opened Wrappers
  import opened Chain
  import opened SequenceHint
  import opened TxBuilding
  import opened Broadcast

  /** The node's answer to a simulation: a failed pool checkout, an error status, or the gas info. */
  datatype SimReply =
    | SimCheckoutFailed(message: string)
    | SimRpcError(status: Status)
    | Simulated(gasUsed: Option<nat>)

  /** `FullSimulateResponse`: the body that was simulated and the gas it used. */
  datatype FullSimulateResponse = FullSimulateResponse(body: TxBody, gasUsed: nat)

  /** The unsigned transaction sent for simulation: no fee, no gas limit, one signer at `sequence`. */
  datatype SimulationTx = SimulationTx(body: TxBody, signerInfos: seq<SignerInfo>, fee: Fee)

  function SimulationRequest(body: TxBody, publicKey: seq<bv8>, sequence: nat): SimulationTx
  {
    SimulationTx(body, MakeSignerInfos(publicKey, sequence), Fee([], 0))
  }

  /**
   * The outcome of `simulate_inner` given the node's answer: an error status
   * whose message carries a sequence hint asks for that number; every other
   * failure is a real error; a reply without gas info is an error too.
   */
  function SimulateOutcome(reply: SimReply, body: TxBody): (r: Result<FullSimulateResponse, SeqError>)
    ensures r.Ok? <==> reply.Simulated? && reply.gasUsed.Some?
    ensures r.Ok? ==> r.value == FullSimulateResponse(body, reply.gasUsed.value)
    ensures AsksForNewNumber(r) <==> reply.SimRpcError? && ExpectedSequence(reply.status.message).Some?
    ensures AsksForNewNumber(r) ==>
      r.error == NewNumber(ExpectedSequence(reply.status.message).value,
                           Rpc("Unable to simulate transaction", reply.status))
    ensures reply == Simulated(None) ==>
      r == Err(RealError(MissingField("Missing gas_info in SimulateResponse")))
    ensures reply.SimRpcError? && ExpectedSequence(reply.status.message).None? ==>
      r == Err(RealError(Rpc("Unable to simulate transaction", reply.status)))
    ensures reply.SimCheckoutFailed? ==> r == Err(RealError(Transport(reply.message)))
  {
    match reply
    case SimCheckoutFailed(message) => Err(RealError(Transport(message)))
    case SimRpcError(status) =>
      var e := Rpc("Unable to simulate transaction", status);
      (match ExpectedSequence(status.message)
       case None => Err(RealError(e))
       case Some(n) => Err(NewNumber(n, e)))
    case Simulated(None) => Err(RealError(MissingField("Missing gas_info in SimulateResponse")))
    case Simulated(Some(gas)) => Ok(FullSimulateResponse(body, gas))
  }

  /** A simulation outcome that asks for another sequence number. */
  predicate AsksForNewNumber(r: Result<FullSimulateResponse, SeqError>) {
    r.Err? && r.error.NewNumber?
  }

  /** The result of `simulate` and the simulation requests it sent, in order. */
  datatype SimulateRun = SimulateRun(result: Result<FullSimulateResponse, Error>, requests: seq<SimulationTx>)

  /**
   * `simulate`: simulates at the fetched account's sequence and, when the
   * node asks for another number, once more at that number; a second
   * mismatch is a plain error.
   */
  function Simulate(account: Result<BaseAccount, Error>, body: TxBody, publicKey: seq<bv8>,
                    replies: nat -> SimReply): (run: SimulateRun)
    ensures account.Err? ==> run == SimulateRun(Err(account.error), [])
    ensures account.Ok? ==>
      && 1 <= |run.requests| <= 2
      && run.requests[0] == SimulationRequest(body, publicKey, account.value.sequence)
      && (|run.requests| == 2 <==> AsksForNewNumber(SimulateOutcome(replies(0), body)))
    ensures |run.requests| == 2 ==>
      run.requests[1] == SimulationRequest(body, publicKey, SimulateOutcome(replies(0), body).error.n)
    ensures run.result.Ok? ==> run.result.value.body == body
  {
    match account
    case Err(e) => SimulateRun(Err(e), [])
    case Ok(acct) =>
      var first := SimulationRequest(body, publicKey, acct.sequence);
      match SimulateOutcome(replies(0), body)
      case Ok(res) => SimulateRun(Ok(res), [first])
      case Err(RealError(e)) => SimulateRun(Err(e), [first])
      case Err(NewNumber(n, _)) =>
        var retry := SimulationRequest(body, publicKey, n);
        match SimulateOutcome(replies(1), body)
        case Ok(res) => SimulateRun(Ok(res), [first, retry])
        case Err(se) => SimulateRun(Err(IntoError(se)), [first, retry])
  }

  /**
   * A simulation succeeds exactly when the last request sent was answered
   * with gas info, and the gas reported is that answer's.
   */
  lemma {:induction false} SimulateOkIff(account: Result<BaseAccount, Error>, body: TxBody, publicKey: seq<bv8>,
                                         replies: nat -> SimReply)
    ensures var run := Simulate(account, body, publicKey, replies);
      run.result.Ok? <==>
        && account.Ok?
        && replies(|run.requests| - 1).Simulated?
        && replies(|run.requests| - 1).gasUsed.Some?
    ensures var run := Simulate(account, body, publicKey, replies);
      run.result.Ok? ==> run.result.value.gasUsed == replies(|run.requests| - 1).gasUsed.value
  {
    if account.Ok? {
      var o0 := SimulateOutcome(replies(0), body);
      if AsksForNewNumber(o0) {
        var o1 := SimulateOutcome(replies(1), body);
        assert o1.Ok? <==> replies(1).Simulated? && replies(1).gasUsed.Some?;
      }
    }
  }

  /**
   * A second sequence mismatch is not retried: the error of the second
   * simulation is returned as it is.
   */
  lemma {:induction false} SimulateRetriesOnce(acct: BaseAccount, body: TxBody, publicKey: seq<bv8>,
                                               replies: nat -> SimReply, n: nat, status: Status)
    requires replies(0).SimRpcError? && ExpectedSequence(replies(0).status.message) == Some(n)
    requires replies(1) == SimRpcError(status) && ExpectedSequence(status.message).Some?
    ensures Simulate(Ok(acct), body, publicKey, replies)
      == SimulateRun(Err(Rpc("Unable to simulate transaction", status)),
                     [SimulationRequest(body, publicKey, acct.sequence), SimulationRequest(body, publicKey, n)])
  {
    assert SimulateOutcome(replies(0), body).error.n == n;
  }
}
