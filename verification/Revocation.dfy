/** Revoking live connectors (src/core/transactions.rs, src/hot_wallet/mod.rs). */
module Revocation {
  import opened Wrappers
  import opened Bitcoin
  import opened Fees
  import opened Psbts
  import opened Ceremony
  import opened Proposal
  import opened Graph
  import opened Ledger
  import opened Safety
  import opened Sweep

  function RevocationTx(utxos: seq<Utxo>, change: U64, destination: Script): Tx {
    Tx(2, 0, SpendAll(utxos, SEQUENCE_RBF), [TxOut(change, destination)])
  }

  function RevocationFee(inputs: nat, destination: Script, feeRate: nat): nat {
    PolicyVsize(0, inputs, [TxOut(1, destination)]) * feeRate
  }

  /** There are connectors, all under the controller script, and they cover the fee and dust. */
  predicate Revocable(controller: Script, utxos: seq<Utxo>, destination: Script, feeRate: nat) {
    && utxos != [] && AllUnder(utxos, controller) && UtxoSum(utxos) <= MAX_U64
    && UtxoSum(utxos) >= RevocationFee(|utxos|, destination, feeRate) + MinimalNonDust(destination)
  }

  /** One transaction that spends them all and returns all but the fee; it makes no new connector. */
  predicate RevokesAll(controller: Script, utxos: seq<Utxo>, destination: Script, feeRate: nat, psbt: Psbt, fee: nat) {
    && fee == RevocationFee(|utxos|, destination, feeRate) && 0 <= UtxoSum(utxos) - fee <= MAX_U64
    && psbt == VaultPsbt(RevocationTx(utxos, UtxoSum(utxos) - fee, destination), Outputs(utxos), controller)
  }

  lemma {:induction false} RevocationShape(utxos: seq<Utxo>, change: U64, destination: Script)
    ensures var tx := RevocationTx(utxos, change, destination); |tx.inputs| == |utxos| && tx.outputs == [TxOut(change, destination)]
  {
  }

  /** `build_controller_revocation_psbt`. */
  method BuildControllerRevocation(controller: Script, utxos: seq<Utxo>, destination: Script, feeRate: nat)
    returns (r: Result<(Psbt, nat)>)
    ensures r.Success? <==> Revocable(controller, utxos, destination, feeRate)
    ensures r.Success? ==> RevokesAll(controller, utxos, destination, feeRate, r.value.0, r.value.1)
  {
    hide AllUnder, UtxoSum, PolicyVsize, MinimalNonDust, VaultPsbt, RevocationTx;
    if utxos == [] {
      return Failure("no live connectors");
    }
    if !AllUnder(utxos, controller) {
      return Failure("input outside controller");
    }
    var total :- CheckedInputSum(utxos);
    var template := RevocationTx(utxos, 1, destination);
    RevocationShape(utxos, 1, destination);
    var vsize := EstimateControllerVsize(template);
    var fee := vsize * feeRate;
    assert fee == RevocationFee(|utxos|, destination, feeRate);
    hide RevocationFee;
    if fee > MAX_U64 || total < fee {
      return Failure("cannot pay the fee");
    }
    var change: U64 := total - fee;
    if change < MinimalNonDust(destination) {
      return Failure("dust revocation");
    }
    UnderOutputs(utxos, controller);
    RevocationShape(utxos, change, destination);
    var psbt := CreateVaultPsbt(RevocationTx(utxos, change, destination), Outputs(utxos), controller);
    if psbt.Failure? {
      return Failure("failed to add descriptor");
    }
    return Success((psbt.value, fee));
  }

  lemma {:induction false} ConnectorSum(utxos: seq<Utxo>)
    requires forall i :: 0 <= i < |utxos| ==> utxos[i].txout.value == CONNECTOR_VALUE_SATS
    ensures UtxoSum(utxos) == CONNECTOR_VALUE_SATS * |utxos|
  {
    if utxos != [] {
      ConnectorSum(utxos[1..]);
    }
  }

  /** Any number of connectors can always revoke themselves to a P2TR address at one satoshi per
      vbyte: the builder cannot fail, and at least 863 sats come back. */
  lemma {:induction false} ConnectorsFundTheirRevocation(controller: Script, utxos: seq<Utxo>, destination: Script)
    requires utxos != [] && CONNECTOR_VALUE_SATS * |utxos| <= MAX_U64
    requires forall i :: 0 <= i < |utxos| ==> utxos[i].txout.value == CONNECTOR_VALUE_SATS
    requires destination.HotScript? && destination.kind.P2tr?
    ensures AllUnder(utxos, controller) ==> Revocable(controller, utxos, destination, DEFAULT_FEE_RATE_SAT_VB)
    ensures UtxoSum(utxos) >= RevocationFee(|utxos|, destination, DEFAULT_FEE_RATE_SAT_VB) + 863
    ensures |utxos| == 1 ==> UtxoSum(utxos) == RevocationFee(1, destination, DEFAULT_FEE_RATE_SAT_VB) + 863
  {
    ConnectorSum(utxos);
    RevocationLeavesChange(|utxos|, TxOut(1, destination));
    hide UtxoSum, PolicyVsize;
  }

  /** On the chain a built revocation that consumes connector i revokes step i, and so (by
      `RevocationIsPermanent`) every later step. It can never be mistaken for the authorization. */
  lemma {:induction false} BuiltRevocationRevokes(g: Graph, s: State, utxos: seq<Utxo>, change: U64, destination: Script, n: nat, i: nat)
    requires WellFormed(g) && Consistent(s) && i < |g.authorizations| && n < |utxos|
    requires utxos[n].outpoint == g.Connector(i)
    requires RevocationTx(utxos, change, destination) in s.confirmed
    ensures Revoked(g, s, i)
  {
    var tx := RevocationTx(utxos, change, destination);
    assert tx.inputs[n].prevout == g.Connector(i);
    ConfirmedSpends(s, tx, n);
    assert WellFormedStep(g, i);
    assert g.authorizations[i].inputs[0].sequence == MONTHLY_SEQUENCE;
    hide WellFormed, Consistent;
  }

  /** The same for both emergency connectors: neither emergency transaction is a revocation. */
  lemma {:induction false} BuiltRevocationCancels(g: Graph, s: State, utxos: seq<Utxo>, change: U64, destination: Script, n: nat)
    requires WellFormed(g) && Consistent(s) && g.emergency.Some? && n < |utxos|
    requires RevocationTx(utxos, change, destination) in s.confirmed
    ensures utxos[n].outpoint == g.TriggerConnector() ==>
              g.TriggerConnector() in s.spent && s.spent[g.TriggerConnector()] != g.emergency.value.0
    ensures utxos[n].outpoint == g.WithdrawalConnector() ==>
              g.WithdrawalConnector() in s.spent && s.spent[g.WithdrawalConnector()] != g.emergency.value.1
  {
    var tx := RevocationTx(utxos, change, destination);
    assert tx.inputs[n].prevout == utxos[n].outpoint;
    ConfirmedSpends(s, tx, n);
    assert g.emergency.value.0.inputs[0].sequence == SEQUENCE_MAX && g.emergency.value.1.inputs[0].sequence == EMERGENCY_SEQUENCE;
    assert tx.inputs[0].sequence == SEQUENCE_RBF;
    hide Consistent;
  }
}
