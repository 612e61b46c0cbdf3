/** Sweeping the vault with one key, after its recovery delay (src/core/recovery.rs). */
module RecoverySweep {
  import opened Wrappers
  import opened Bitcoin
  import opened Fees
  import opened Psbts
  import opened Ceremony
  import opened Builder
  import opened Proposal
  import opened Sweep

  /** The key that may use a recovery path, and the number of blocks that it has to wait. */
  function RecoveryKey(config: VaultConfig, path: SpendPath): Key {
    if path.PhoneRecovery? then config.phone else config.hww
  }

  function RecoveryBlocks(path: SpendPath): nat {
    if path.PhoneRecovery? then 61_200 else 65_535
  }

  function PathLeaf(config: VaultConfig, path: SpendPath): Leaf {
    VaultLeaf(path, config.phone, config.hww)
  }

  /** Every input waits out exactly the delay of the path, as the relative lock of its sequence reads. */
  predicate WaitsFor(tx: Tx, blocks: nat) {
    forall k :: 0 <= k < |tx.inputs| ==> RelativeBlocks(tx.version, tx.inputs[k].sequence) == blocks
  }

  lemma {:induction false} SweepWaits(config: VaultConfig, utxos: seq<Utxo>, path: SpendPath, destination: Script, psbt: Psbt, fee: nat,
                                      sent: U64)
    requires SweepsAll(config.Vault(), utxos, path, destination, psbt, fee, sent) && AllUnder(utxos, config.Vault())
    ensures HasPrevouts(psbt) && DefaultSighashes(psbt) && |psbt.tx.inputs| == |psbt.inputs| == |utxos|
    ensures forall k :: 0 <= k < |utxos| ==>
              && psbt.tx.inputs[k].prevout == utxos[k].outpoint
              && psbt.inputs[k] == FreshInput(utxos[k].txout, config.Vault()) && utxos[k].txout.script == config.Vault()
    ensures !path.Cooperative? ==> WaitsFor(psbt.tx, RecoveryBlocks(path))
  {
    hide UtxoSum, SweepFee;
  }

  /** An unsigned sweep can be signed for its recovery leaf by the path's own key and no other; it
      finalizes once that key has signed, and not before. */
  lemma {:induction false} RecoverySweepFinalizes(config: VaultConfig, utxos: seq<Utxo>, path: SpendPath, destination: Script, psbt: Psbt,
                                                  fee: nat, sent: U64, key: Key)
    requires !path.Cooperative? && utxos != [] && AllUnder(utxos, config.Vault())
    requires SweepsAll(config.Vault(), utxos, path, destination, psbt, fee, sent)
    ensures HasPrevouts(psbt) && DefaultSighashes(psbt) && |psbt.inputs| == |utxos|
    ensures (forall k :: 0 <= k < |psbt.inputs| ==> CanSign(psbt, key, PathLeaf(config, path), k)) <==> key == RecoveryKey(config, path)
    ensures AllFinalize(Signed(psbt, key, PathLeaf(config, path), IndexRange(0, |psbt.inputs|))) <==> key == RecoveryKey(config, path)
    ensures DefaultSighashes(Signed(psbt, key, PathLeaf(config, path), IndexRange(0, |psbt.inputs|)))
    ensures forall k :: 0 <= k < |psbt.inputs| ==> !CanFinalize(psbt, k)
  {
    SweepWaits(config, utxos, path, destination, psbt, fee, sent);
    hide SweepsAll, AllUnder;
    var q := Signed(psbt, key, PathLeaf(config, path), IndexRange(0, |psbt.inputs|));
    SigningPreserves(psbt, key, PathLeaf(config, path), IndexRange(0, |psbt.inputs|));
    forall k | 0 <= k < |psbt.inputs|
      ensures CanFinalize(q, k) <==> key == RecoveryKey(config, path)
      ensures CanSign(psbt, key, PathLeaf(config, path), k) <==> key == RecoveryKey(config, path)
      ensures !CanFinalize(psbt, k)
    {
      SignedRecoveryInput(config, path, psbt, key, k);
    }
    hide Signed, CanFinalize, CanSign, DefaultSighashes, FreshInput, WaitsFor, IndexRange;
    assert CanFinalize(q, 0) <==> key == RecoveryKey(config, path);
  }

  lemma {:induction false} SignedRecoveryInput(config: VaultConfig, path: SpendPath, p: Psbt, key: Key, k: nat)
    requires !path.Cooperative? && HasPrevouts(p) && k < |p.inputs| && p.inputs[k].utxo.Some?
    requires p.inputs[k] == FreshInput(p.inputs[k].utxo.value, config.Vault()) && p.inputs[k].utxo.value.script == config.Vault()
    requires WaitsFor(p.tx, RecoveryBlocks(path))
    ensures CanFinalize(Signed(p, key, PathLeaf(config, path), IndexRange(0, |p.inputs|)), k) <==> key == RecoveryKey(config, path)
    ensures CanSign(p, key, PathLeaf(config, path), k) <==> key == RecoveryKey(config, path)
    ensures !CanFinalize(p, k)
  {
    var leaf, range := PathLeaf(config, path), IndexRange(0, |p.inputs|);
    var q := Signed(p, key, leaf, range);
    RangeMembers(0, |p.inputs|);
    assert k in range;
    OnlyThisSignature(p, key, leaf, range, k);
    SigningPreserves(p, key, leaf, range);
    assert RelativeBlocks(p.tx.version, p.tx.inputs[k].sequence) == RecoveryBlocks(path);
    hide Signed, SignedBy, IndexRange, WaitsFor;
    UnsignedDoesNotFinalize(p, k);
    OneSignatureDecides(config, path, q, key, k);
    hide CanFinalize;
  }

  lemma {:induction false} UnsignedDoesNotFinalize(p: Psbt, k: nat)
    requires forall key, leaf :: !SignedBy(p, key, leaf, k)
    ensures !CanFinalize(p, k)
  {
    hide SignedBy, ListsLeaf, Waited;
  }

  lemma {:induction false} OneSignatureDecides(config: VaultConfig, path: SpendPath, q: Psbt, key: Key, k: nat)
    requires !path.Cooperative? && k < |q.inputs| && k < |q.tx.inputs| && q.inputs[k].utxo.Some?
    requires q.inputs[k].utxo.value.script == config.Vault() && q.inputs[k].scripts == Leaves(config.Vault())
    requires RelativeBlocks(q.tx.version, q.tx.inputs[k].sequence) == RecoveryBlocks(path)
    requires forall other, leaf :: SignedBy(q, other, leaf, k) <==> other == key && leaf == PathLeaf(config, path)
    ensures CanFinalize(q, k) <==> key == RecoveryKey(config, path)
  {
    hide SignedBy;
  }

  // A fresh input that has been signed once carries that signature and no other.
  lemma {:induction false} OnlyThisSignature(p: Psbt, key: Key, leaf: Leaf, indexes: seq<nat>, k: nat)
    requires HasPrevouts(p) && k < |p.inputs| && p.inputs[k].signatures == map[] && k in indexes
    ensures forall other, otherLeaf :: SignedBy(Signed(p, key, leaf, indexes), other, otherLeaf, k) <==> other == key && otherLeaf == leaf
    ensures forall other, otherLeaf :: !SignedBy(p, other, otherLeaf, k)
  {
    SigningPreserves(p, key, leaf, indexes);
    assert Signed(p, key, leaf, indexes).inputs[k].signatures.Keys == {(key, leaf)};
    hide Signed;
  }

  /** What is swept and what is left, in terms of the locks on the swept inputs alone: below saturation an
      output is taken exactly when its lock has run out at the next block. */
  lemma {:induction false} SweptExactlyWhenUnlocked(config: VaultConfig, utxos: seq<Utxo>, tip: U64, path: SpendPath, destination: Script,
                                                    psbt: Psbt, fee: nat, sent: U64, u: Utxo, k: nat)
    requires !path.Cooperative? && AllUnder(MatureUtxos(utxos, path, tip), config.Vault()) && tip + 1 < MAX_U64
    requires SweepsAll(config.Vault(), MatureUtxos(utxos, path, tip), path, destination, psbt, fee, sent)
    requires u in utxos && k < |psbt.tx.inputs|
    ensures u in MatureUtxos(utxos, path, tip)
       <==> u.confirmationHeight + RelativeBlocks(psbt.tx.version, psbt.tx.inputs[k].sequence) <= tip + 1
  {
    SweepWaits(config, MatureUtxos(utxos, path, tip), path, destination, psbt, fee, sent);
    MaturityIsExactBelowSaturation(u, path, tip);
    var positions := MatureIsExact(utxos, path, tip);
    var i :| 0 <= i < |utxos| && utxos[i] == u;
    hide SweepsAll, AllUnder, MatureUtxos;
    if i in positions {
      var j :| 0 <= j < |positions| && positions[j] == i;
      assert MatureUtxos(utxos, path, tip)[j] == u;
    }
    if u in MatureUtxos(utxos, path, tip) {
      var j :| 0 <= j < |positions| && MatureUtxos(utxos, path, tip)[j] == u;
      assert utxos[positions[j]] == u && positions[j] in positions;
    }
  }

  /** `sign_recovery_sweep`, on a plan that `prepare_sweep` made. */
  method SignRecoverySweep(config: VaultConfig, psbt: Psbt, path: SpendPath, signer: Key, ghost utxos: seq<Utxo>,
                           ghost destination: Script, ghost fee: nat, ghost sent: U64)
    returns (r: Result<Tx>)
    requires utxos != [] && AllUnder(utxos, config.Vault())
    requires SweepsAll(config.Vault(), utxos, path, destination, psbt, fee, sent)
    ensures r.Success? <==> !path.Cooperative? && signer == RecoveryKey(config, path)
    ensures r.Success? ==> r.value == psbt.tx
  {
    if path.Cooperative? {
      return Failure("both signatures are required");
    }
    RecoverySweepFinalizes(config, utxos, path, destination, psbt, fee, sent, signer);
    hide SweepsAll, AllUnder, AllFinalize, Signed, CanSign, CanFinalize, DefaultSighashes, HasPrevouts;
    var indexes := IndexRange(0, |psbt.inputs|);
    assert forall k :: 0 <= k < |indexes| ==> indexes[k] == k;
    EveryIndex(psbt, signer, PathLeaf(config, path));
    SigningPreserves(psbt, signer, PathLeaf(config, path), indexes);
    var signed := SignInputs(psbt, signer, PathLeaf(config, path), indexes);
    if signed.Failure? {
      return Failure("key not authorized");
    }
    r := FinalizeVaultPsbt(signed.value);
  }

  lemma {:induction false} EveryIndex(p: Psbt, key: Key, leaf: Leaf)
    ensures (forall k :: 0 <= k < |IndexRange(0, |p.inputs|)| ==> CanSign(p, key, leaf, IndexRange(0, |p.inputs|)[k]))
       <==> (forall k :: 0 <= k < |p.inputs| ==> CanSign(p, key, leaf, k))
  {
    var indexes := IndexRange(0, |p.inputs|);
    hide CanSign;
    if forall k :: 0 <= k < |indexes| ==> CanSign(p, key, leaf, indexes[k]) {
      forall k | 0 <= k < |p.inputs|
        ensures CanSign(p, key, leaf, k)
      {
        assert indexes[k] == k;
      }
    }
  }

  /** `prepare_sweep` and `sign_recovery_sweep` in a row: the transaction that leaves the device. */
  method RecoverVault(config: VaultConfig, utxos: seq<Utxo>, tip: U64, path: SpendPath, destination: Script, signer: Key)
    returns (r: Result<Tx>)
    ensures r.Success? <==>
              && !path.Cooperative? && signer == RecoveryKey(config, path)
              && MatureUtxos(utxos, path, tip) != [] && Sweepable(config.Vault(), MatureUtxos(utxos, path, tip), path, destination)
    ensures r.Success? ==> WaitsFor(r.value, RecoveryBlocks(path)) && |r.value.inputs| == |MatureUtxos(utxos, path, tip)|
    ensures r.Success? ==> forall k :: 0 <= k < |r.value.inputs| ==> r.value.inputs[k].prevout == MatureUtxos(utxos, path, tip)[k].outpoint
  {
    hide SweepsAll, WaitsFor, AllUnder, UtxoSum, SweepFee, MatureUtxos;
    var prepared := PrepareSweep(config, utxos, tip, path, destination);
    if prepared.Failure? {
      return Failure(prepared.error);
    }
    var (psbt, fee, sent) := prepared.value;
    SweepWaits(config, MatureUtxos(utxos, path, tip), path, destination, psbt, fee, sent);
    r := SignRecoverySweep(config, psbt, path, signer, MatureUtxos(utxos, path, tip), destination, fee, sent);
  }
}
