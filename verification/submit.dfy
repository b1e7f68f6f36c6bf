/**
 * The two entry points a transaction builder offers for submitting its
 * transaction: with gas learnt by simulation and padded by the configured
 * multiplier, or with an explicit gas limit.
 *
 * The account is fetched once for the simulation and once more for the
 * broadcasts; the two fetches are given separately, as the node may answer
 * them differently.
 */
module Submission {
  import opened Wrappers
  import opened Chain
  import opened Gas
  import opened TxBuilding
  import opened Broadcast
  import opened Simulation

  /**
   * The outcome of `sign_and_broadcast` once the simulation has run: its
   * error is returned as it is; otherwise the outcome is that of the tier
   * loops at the second account fetch.
   */
  function SubmitResult(skip: bool, attempts: nat, node: Node, simulated: Result<FullSimulateResponse, Error>,
                        account: Result<BaseAccount, Error>): (r: Result<TxResponse, Error>)
    ensures simulated.Err? ==> r == Err(simulated.error)
    ensures simulated.Ok? && account.Err? ==> r == Err(account.error)
  {
    if simulated.Err? then Err(simulated.error)
    else InnerResult(Outcomes(skip, node), attempts, account)
  }

  /**
   * `sign_and_broadcast`: simulates the builder's body, pads the gas used by
   * the first builder's `gas_estimate_multiplier`, and signs and broadcasts
   * the simulated body with that gas limit. Returns the outcome, the
   * simulation run, and every transaction signed.
   */
  method SignAndBroadcast(builder: TxBuilder, first: CosmosBuilder, publicKey: seq<bv8>, node: Node,
                          simReplies: nat -> SimReply, simAccount: Result<BaseAccount, Error>,
                          txAccount: Result<BaseAccount, Error>)
    returns (r: Result<TxResponse, Error>, sim: SimulateRun, signed: seq<SignedTx>)
    ensures sim == Simulate(simAccount, builder.MakeTxBody(), publicKey, simReplies)
    ensures r == SubmitResult(builder.skipCodeCheck, first.config.gasPriceRetryAttempts, node, sim.result, txAccount)
    ensures sim.result.Err? || txAccount.Err? ==> signed == []
    ensures sim.result.Ok? ==>
      forall k :: 0 <= k < |signed| ==>
        && signed[k].body == builder.MakeTxBody()
        && signed[k].fee.gasLimit == Scaled(sim.result.value.gasUsed, first.config.gasEstimateMultiplier)
  {
    var body := builder.MakeTxBody();
    sim := Simulate(simAccount, body, publicKey, simReplies);
    if sim.result.Err? {
      return Err(sim.result.error), sim, [];
    }
    var simres := sim.result.value;
    var gas := Scaled(simres.gasUsed, first.config.gasEstimateMultiplier);
    r, signed := InnerSignAndBroadcast(builder.skipCodeCheck, first, publicKey, node, txAccount, simres.body, gas);
    SignedCarryBodyAndGas(builder.skipCodeCheck, first, publicKey, node, txAccount, simres.body, gas, signed);
  }

  /**
   * `sign_and_broadcast_with_gas`: no simulation; the builder's body is
   * signed and broadcast with the gas limit given.
   */
  method SignAndBroadcastWithGas(builder: TxBuilder, first: CosmosBuilder, publicKey: seq<bv8>, node: Node,
                                 txAccount: Result<BaseAccount, Error>, gas: nat)
    returns (r: Result<TxResponse, Error>, signed: seq<SignedTx>)
    ensures r == InnerResult(Outcomes(builder.skipCodeCheck, node), first.config.gasPriceRetryAttempts, txAccount)
    ensures forall k :: 0 <= k < |signed| ==>
      signed[k].body == builder.MakeTxBody() && signed[k].fee.gasLimit == gas
  {
    var body := builder.MakeTxBody();
    r, signed := InnerSignAndBroadcast(builder.skipCodeCheck, first, publicKey, node, txAccount, body, gas);
    SignedCarryBodyAndGas(builder.skipCodeCheck, first, publicKey, node, txAccount, body, gas, signed);
  }

  /**
   * Every transaction `inner_sign_and_broadcast` signs, in either tier loop,
   * carries the body and the gas limit it was given.
   */
  lemma {:induction false} SignedCarryBodyAndGas(skip: bool, first: CosmosBuilder, publicKey: seq<bv8>, node: Node,
                                                 account: Result<BaseAccount, Error>, body: TxBody, gas: nat,
                                                 signed: seq<SignedTx>)
    requires account.Err? ==> signed == []
    requires account.Ok? ==>
      var acct := account.value;
      var attempts := first.config.gasPriceRetryAttempts;
      var run := Tiers(Outcomes(skip, node), 0, attempts);
      && run.next <= |signed|
      && SignedAtTiers(signed[..run.next], first, publicKey, acct.accountNumber, acct.sequence, body, gas)
      && (IsNewNumber(run.result) ==>
            SignedAtTiers(signed[run.next..], first, publicKey, acct.accountNumber, run.result.error.n, body, gas))
      && (!IsNewNumber(run.result) ==> |signed| == run.next)
    ensures forall k :: 0 <= k < |signed| ==> signed[k].body == body && signed[k].fee.gasLimit == gas
  {
    if account.Ok? {
      var acct := account.value;
      var run := Tiers(Outcomes(skip, node), 0, first.config.gasPriceRetryAttempts);
      var head := signed[..run.next];
      SignedAtTiersEscalate(head, first, publicKey, acct.accountNumber, acct.sequence, body, gas);
      if IsNewNumber(run.result) {
        var tail := signed[run.next..];
        SignedAtTiersEscalate(tail, first, publicKey, acct.accountNumber, run.result.error.n, body, gas);
        forall k | 0 <= k < |signed|
          ensures signed[k].body == body && signed[k].fee.gasLimit == gas
        {
          if k < run.next {
            assert signed[k] == head[k];
          } else {
            assert signed[k] == tail[k - run.next];
          }
        }
      } else {
        assert signed == head;
      }
    }
  }

  /**
   * `sign_and_broadcast` reports success only for a transaction that landed
   * with code 0, unless the builder skips the code check.
   */
  lemma {:induction false} SubmitSuccessLanded(skip: bool, attempts: nat, node: Node,
                                               simulated: Result<FullSimulateResponse, Error>,
                                               account: Result<BaseAccount, Error>)
    ensures var r := SubmitResult(skip, attempts, node, simulated, account);
      r.Ok? ==> skip || r.value.code == 0
  {
    if simulated.Ok? {
      InnerSuccessLanded(skip, node, attempts, account);
    }
  }
}
