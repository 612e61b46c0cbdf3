/** Either device can revoke alone and at once (src/core/transactions.rs, src/hot_wallet/mod.rs,
    src/cold_wallet/mod.rs). */
module RevocationPower {
  import opened Wrappers
  import opened Bitcoin
  import opened Fees
  import opened Psbts
  import opened Ceremony
  import opened Proposal
  import opened Graph
  import opened Sweep
  import opened Revocation
  import Ledger
  import Safety
  import Collision
  import RecoverySweep

  predicate IsDevice(config: VaultConfig, key: Key) {
    key == config.phone || key == config.hww
  }

  lemma {:induction false} RevocationInputs(config: VaultConfig, utxos: seq<Utxo>, destination: Script, feeRate: nat, psbt: Psbt, fee: nat)
    requires RevokesAll(config.Controller(), utxos, destination, feeRate, psbt, fee) && AllUnder(utxos, config.Controller())
    ensures HasPrevouts(psbt) && DefaultSighashes(psbt) && |psbt.tx.inputs| == |psbt.inputs| == |utxos|
    ensures forall k :: 0 <= k < |utxos| ==>
              && psbt.tx.inputs[k].prevout == utxos[k].outpoint
              && psbt.inputs[k] == FreshInput(utxos[k].txout, config.Controller()) && utxos[k].txout.script == config.Controller()
    ensures psbt.tx == RevocationTx(utxos, UtxoSum(utxos) - fee, destination)
  {
    hide UtxoSum, PolicyVsize;
  }

  lemma {:induction false} SignedConnectorInput(config: VaultConfig, p: Psbt, key: Key, k: nat)
    requires HasPrevouts(p) && k < |p.inputs| && p.inputs[k].utxo.Some?
    requires p.inputs[k] == FreshInput(p.inputs[k].utxo.value, config.Controller()) && p.inputs[k].utxo.value.script == config.Controller()
    ensures CanFinalize(Signed(p, key, ControllerLeaf(key), IndexRange(0, |p.inputs|)), k) <==> IsDevice(config, key)
    ensures CanSign(p, key, ControllerLeaf(key), k) <==> IsDevice(config, key)
    ensures !CanFinalize(p, k)
  {
    var leaf, range := ControllerLeaf(key), IndexRange(0, |p.inputs|);
    RangeMembers(0, |p.inputs|);
    assert k in range;
    RecoverySweep.OnlyThisSignature(p, key, leaf, range, k);
    SigningPreserves(p, key, leaf, range);
    hide Signed, SignedBy, IndexRange;
  }

  /** A built revocation can be signed by either device and by nobody else, and finalizes with that one
      signature. */
  lemma {:induction false} RevocationFinalizes(config: VaultConfig, utxos: seq<Utxo>, destination: Script, feeRate: nat, psbt: Psbt, fee: nat,
                                               key: Key)
    requires RevokesAll(config.Controller(), utxos, destination, feeRate, psbt, fee) && AllUnder(utxos, config.Controller()) && utxos != []
    ensures HasPrevouts(psbt) && DefaultSighashes(psbt) && |psbt.inputs| == |utxos|
    ensures (forall k :: 0 <= k < |psbt.inputs| ==> CanSign(psbt, key, ControllerLeaf(key), k)) <==> IsDevice(config, key)
    ensures AllFinalize(Signed(psbt, key, ControllerLeaf(key), IndexRange(0, |psbt.inputs|))) <==> IsDevice(config, key)
    ensures DefaultSighashes(Signed(psbt, key, ControllerLeaf(key), IndexRange(0, |psbt.inputs|)))
  {
    RevocationInputs(config, utxos, destination, feeRate, psbt, fee);
    hide RevokesAll, AllUnder, IsDevice;
    var q := Signed(psbt, key, ControllerLeaf(key), IndexRange(0, |psbt.inputs|));
    SigningPreserves(psbt, key, ControllerLeaf(key), IndexRange(0, |psbt.inputs|));
    forall k | 0 <= k < |psbt.inputs|
      ensures CanFinalize(q, k) <==> IsDevice(config, key)
      ensures CanSign(psbt, key, ControllerLeaf(key), k) <==> IsDevice(config, key)
    {
      SignedConnectorInput(config, psbt, key, k);
    }
    hide Signed, CanFinalize, CanSign, DefaultSighashes, FreshInput, IndexRange;
    assert CanFinalize(q, 0) <==> IsDevice(config, key);
    assert CanSign(psbt, key, ControllerLeaf(key), 0) <==> IsDevice(config, key);
  }

  /** All but the fee, in one output above dust. */
  predicate PaysTheRest(tx: Tx, utxos: seq<Utxo>, destination: Script) {
    && |tx.outputs| == 1 && tx.outputs[0].script == destination && tx.outputs[0].value >= MinimalNonDust(destination)
    && tx.outputs[0].value + RevocationFee(|utxos|, destination, 1) == UtxoSum(utxos)
  }

  /** These outputs, each once and in this order. */
  predicate SpendsExactly(tx: Tx, utxos: seq<Utxo>) {
    |tx.inputs| == |utxos| && forall k :: 0 <= k < |utxos| ==> tx.inputs[k].prevout == utxos[k].outpoint
  }

  /** `revoke_connector_to_phone` and the hardware wallet's `revoke`: build, sign alone, finalize. */
  method RevokeAlone(config: VaultConfig, utxos: seq<Utxo>, destination: Script, key: Key) returns (r: Result<Tx>)
    ensures r.Success? <==>
              Revocable(config.Controller(), utxos, destination, DEFAULT_FEE_RATE_SAT_VB) && IsDevice(config, key)
    ensures r.Success? ==> PaysTheRest(r.value, utxos, destination)
    ensures r.Success? ==> SpendsExactly(r.value, utxos)
  {
    var built := BuildControllerRevocation(config.Controller(), utxos, destination, DEFAULT_FEE_RATE_SAT_VB);
    if built.Failure? {
      return Failure(built.error);
    }
    var (psbt, fee) := built.value;
    RevocationFinalizes(config, utxos, destination, DEFAULT_FEE_RATE_SAT_VB, psbt, fee, key);
    RevocationInputs(config, utxos, destination, DEFAULT_FEE_RATE_SAT_VB, psbt, fee);
    hide RevokesAll, AllUnder, AllFinalize, Signed, CanSign, CanFinalize, DefaultSighashes, HasPrevouts, UtxoSum, IsDevice, RevocationFee;
    var indexes := IndexRange(0, |psbt.inputs|);
    assert forall k :: 0 <= k < |indexes| ==> indexes[k] == k;
    RecoverySweep.EveryIndex(psbt, key, ControllerLeaf(key));
    SigningPreserves(psbt, key, ControllerLeaf(key), indexes);
    var signed := SignInputs(psbt, key, ControllerLeaf(key), indexes);
    if signed.Failure? {
      return Failure("key not authorized");
    }
    r := FinalizeVaultPsbt(signed.value);
    FeeOf(config, utxos, destination, psbt, fee);
  }

  lemma {:induction false} FeeOf(config: VaultConfig, utxos: seq<Utxo>, destination: Script, psbt: Psbt, fee: nat)
    requires RevokesAll(config.Controller(), utxos, destination, DEFAULT_FEE_RATE_SAT_VB, psbt, fee)
    ensures fee == RevocationFee(|utxos|, destination, 1)
  {
  }

  /** A revocation of live connectors waits for nothing, needs no vault signature, and can itself be
      replaced (BIP 125). */
  lemma {:induction false} RevocationConfirmsAtOnce(rules: Ledger.Rules, s: Ledger.State, utxos: seq<Utxo>, change: U64, destination: Script)
    requires Ledger.Consistent(s) && utxos != []
    requires forall k :: 0 <= k < |utxos| ==>
               utxos[k].outpoint in s.coins && s.coins[utxos[k].outpoint].out.script != rules.vault
    requires forall j, k :: 0 <= j < k < |utxos| ==> utxos[j].outpoint != utxos[k].outpoint
    ensures Ledger.CanConfirm(rules, s, RevocationTx(utxos, change, destination))
    ensures var tx := RevocationTx(utxos, change, destination);
            tx.lockTime == 0 && forall k :: 0 <= k < |tx.inputs| ==> tx.inputs[k].sequence < 0xFFFF_FFFE
  {
    var tx := RevocationTx(utxos, change, destination);
    forall k | 0 <= k < |tx.inputs|
      ensures tx.inputs[k].prevout == utxos[k].outpoint && RelativeSeconds(tx.version, tx.inputs[k].sequence) == 0
      ensures s.coins[utxos[k].outpoint].time <= s.now
    {
    }
    hide Ledger.SpentOnce, Ledger.SpendersConfirmed, Ledger.OutputsExist, Ledger.LocksKept;
  }

  /** So any live connector of a batch can be revoked on the spot: there is a run that does it, and in it
      neither this step nor a later one has been taken. */
  lemma {:induction false} LiveConnectorCanBeRevoked(rules: Ledger.Rules, states: seq<Ledger.State>, events: seq<Ledger.Event>, g: Graph, i: nat,
                                                     u: Utxo, change: U64, destination: Script)
    requires Ledger.Run(rules, states, events) && WellFormed(g) && rules.vault == g.vault && i < |g.authorizations|
    requires u.outpoint == g.Connector(i) && g.Connector(i) in states[|events|].coins
    ensures var tx := RevocationTx([u], change, destination);
            var s := Ledger.After(states[|events|], tx);
            && Ledger.Run(rules, states + [s], events + [Ledger.Confirm(tx)]) && Safety.Revoked(g, s, i)
            && forall j :: i <= j < |g.authorizations| ==> g.authorizations[j] !in s.confirmed
  {
    var before := states[|events|];
    var tx := RevocationTx([u], change, destination);
    var s := Ledger.After(before, tx);
    Ledger.RunIsConsistent(rules, states, events, |events|);
    Ledger.CreatedByParent(before, g.Connector(i));
    assert WellFormedStep(g, i);
    RevocationConfirmsAtOnce(rules, before, [u], change, destination);
    Collision.ExtendRun(rules, states, events, Ledger.Confirm(tx), s);
    var after, happened := states + [s], events + [Ledger.Confirm(tx)];
    Ledger.RunIsConsistent(rules, after, happened, |events| + 1);
    assert after[|events| + 1] == s;
    assert tx in s.confirmed;
    hide Ledger.Run, Ledger.Consistent, Ledger.CanConfirm, Ledger.After, Ledger.Next;
    BuiltRevocationRevokes(g, s, [u], change, destination, 0, i);
    hide WellFormed;
    Safety.RevocationIsPermanent(rules, after, happened, |events| + 1, |events| + 1, g, i);
  }
}
