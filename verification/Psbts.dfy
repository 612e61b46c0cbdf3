/** Partially signed transactions with symbolic signatures (src/core/transactions.rs).

    A signature is a fact: it names its signer and the complete message it commits to. Under
    SIGHASH_DEFAULT that message is the whole transaction with every previous output. */
module Psbts {
  import opened Wrappers
  import opened Bitcoin
  import opened Fees

  datatype Sighash = DefaultSighash | OtherSighash(flags: nat)
  datatype Leaf = VaultLeaf(path: SpendPath, phone: Key, hww: Key) | ControllerLeaf(key: Key)
  datatype Message = Message(tx: Tx, prevouts: seq<TxOut>, index: nat, leaf: Leaf)
  datatype Signature = Signature(signer: Key, message: Message, sighash: Sighash)

  /** A listed leaf script, with a control block that places it in this tree. */
  datatype TapScript = TapScript(tree: Script, leaf: Leaf)

  /** `origins` is which key may sign which leaf, `scripts` are the leaves that can be revealed. The two
      are separate fields: signing reads only the first and finalizing only the second. */
  datatype PsbtInput = PsbtInput(
    utxo: Option<TxOut>,
    sighash: Option<Sighash>,
    origins: set<(Key, Leaf)>,
    scripts: set<TapScript>,
    signatures: map<(Key, Leaf), Signature>)

  datatype Psbt = Psbt(tx: Tx, inputs: seq<PsbtInput>)

  /** The key origins that a descriptor writes to an input. */
  function Origins(descriptor: Script): set<(Key, Leaf)> {
    match descriptor
    case VaultScript(phone, hww) =>
      {(phone, VaultLeaf(Cooperative, phone, hww)), (hww, VaultLeaf(Cooperative, phone, hww)),
       (phone, VaultLeaf(PhoneRecovery, phone, hww)), (hww, VaultLeaf(HwwRecovery, phone, hww))}
    case ControllerScript(phone, hww) => {(phone, ControllerLeaf(phone)), (hww, ControllerLeaf(hww))}
    case HotScript(_, _) => {}
  }

  /** The leaves that a descriptor writes to an input. */
  function Leaves(descriptor: Script): set<TapScript> {
    match descriptor
    case VaultScript(phone, hww) =>
      {TapScript(descriptor, VaultLeaf(Cooperative, phone, hww)), TapScript(descriptor, VaultLeaf(PhoneRecovery, phone, hww)),
       TapScript(descriptor, VaultLeaf(HwwRecovery, phone, hww))}
    case ControllerScript(phone, hww) =>
      {TapScript(descriptor, ControllerLeaf(phone)), TapScript(descriptor, ControllerLeaf(hww))}
    case HotScript(_, _) => {}
  }

  ghost predicate DefaultSighashes(p: Psbt) {
    forall i :: 0 <= i < |p.inputs| ==> p.inputs[i].sighash in {None, Some(DefaultSighash)}
  }

  /** `validate_default_sighashes`. */
  method ValidateDefaultSighashes(p: Psbt) returns (ok: bool)
    ensures ok <==> DefaultSighashes(p)
  {
    for i := 0 to |p.inputs|
      invariant forall k :: 0 <= k < i ==> p.inputs[k].sighash in {None, Some(DefaultSighash)}
    {
      if p.inputs[i].sighash.Some? && p.inputs[i].sighash.value != DefaultSighash {
        return false;
      }
    }
    return true;
  }

  /** A Taproot digest over all inputs exists only when every input records its previous output. */
  predicate HasPrevouts(p: Psbt) {
    && |p.inputs| == |p.tx.inputs|
    && (forall i :: 0 <= i < |p.inputs| ==> p.inputs[i].utxo.Some?)
  }

  function Prevouts(p: Psbt): seq<TxOut>
    requires HasPrevouts(p)
  {
    seq(|p.inputs|, i requires 0 <= i < |p.inputs| => p.inputs[i].utxo.value)
  }

  function SighashMessage(p: Psbt, index: nat, leaf: Leaf): Message
    requires HasPrevouts(p)
  {
    Message(p.tx, Prevouts(p), index, leaf)
  }

  // ----- Creation -----

  function FreshInput(prevout: TxOut, descriptor: Script): PsbtInput {
    PsbtInput(Some(prevout), Some(DefaultSighash), Origins(descriptor), Leaves(descriptor), map[])
  }

  /** The unsigned PSBT in which the inputs listed in `vault` use the vault descriptor. */
  function PolicyPsbt(tx: Tx, prevouts: seq<TxOut>, vaultIndexes: seq<nat>, vault: Script, controller: Script): Psbt {
    Psbt(tx, seq(|prevouts|, i requires 0 <= i < |prevouts| =>
      FreshInput(prevouts[i], if i in vaultIndexes then vault else controller)))
  }

  /** `create_policy_psbt`. Attaching a descriptor to an input fails when the input's previous
      output does not pay that descriptor. */
  method CreatePolicyPsbt(tx: Tx, prevouts: seq<TxOut>, vaultIndexes: seq<nat>, controllerIndexes: seq<nat>,
                          vault: Script, controller: Script)
    returns (r: Result<Psbt>)
    ensures r.Success? <==>
              && |tx.inputs| == |prevouts|
              && ValidateInputPartition(|tx.inputs|, vaultIndexes, controllerIndexes)
              && (forall i :: 0 <= i < |prevouts| ==>
                    prevouts[i].script == if i in vaultIndexes then vault else controller)
    ensures r.Success? ==> r.value == PolicyPsbt(tx, prevouts, vaultIndexes, vault, controller)
  {
    if |tx.inputs| != |prevouts| {
      return Failure("counts differ");
    }
    :- Need(ValidateInputPartition(|tx.inputs|, vaultIndexes, controllerIndexes),
            "roles are not a partition");
    var inputs: seq<PsbtInput> := [];
    for index := 0 to |prevouts|
      invariant |inputs| == index
      invariant forall i :: 0 <= i < index ==>
                  prevouts[i].script == if i in vaultIndexes then vault else controller
      invariant forall i :: 0 <= i < index ==>
                  inputs[i] == FreshInput(prevouts[i], if i in vaultIndexes then vault else controller)
    {
      var descriptor := if index in vaultIndexes then vault else controller;
      if prevouts[index].script != descriptor {
        return Failure("descriptor does not match");
      }
      inputs := inputs + [FreshInput(prevouts[index], descriptor)];
    }
    assert inputs == PolicyPsbt(tx, prevouts, vaultIndexes, vault, controller).inputs;
    return Success(Psbt(tx, inputs));
  }

  // ----- Signing -----

  predicate CanSign(p: Psbt, key: Key, leaf: Leaf, index: nat) {
    && index < |p.inputs|
    && (key, leaf) in p.inputs[index].origins
    && HasPrevouts(p)
  }

  /** `p` with one more signature on every listed input, and nothing else changed. */
  function Signed(p: Psbt, key: Key, leaf: Leaf, indexes: seq<nat>): Psbt
    requires HasPrevouts(p)
  {
    Psbt(p.tx, seq(|p.inputs|, i requires 0 <= i < |p.inputs| =>
      if i in indexes then
        p.inputs[i].(signatures :=
          p.inputs[i].signatures[(key, leaf) := Signature(key, SighashMessage(p, i, leaf), DefaultSighash)])
      else p.inputs[i]))
  }

  /** `sign_vault_psbt_inputs` and `sign_controller_psbt_inputs`, which differ only in the leaf. */
  method SignInputs(p: Psbt, key: Key, leaf: Leaf, indexes: seq<nat>) returns (r: Result<Psbt>)
    ensures r.Success? <==> DefaultSighashes(p) && forall k :: 0 <= k < |indexes| ==> CanSign(p, key, leaf, indexes[k])
    ensures r.Success? && HasPrevouts(p) ==> r.value == Signed(p, key, leaf, indexes)
    ensures indexes == [] && r.Success? ==> r.value == p
  {
    var ok := ValidateDefaultSighashes(p);
    :- Need(ok, "not SIGHASH_DEFAULT");
    var inputs := p.inputs;
    for n := 0 to |indexes|
      invariant |inputs| == |p.inputs|
      invariant n == 0 ==> inputs == p.inputs
      invariant forall k :: 0 <= k < n ==> CanSign(p, key, leaf, indexes[k])
      invariant HasPrevouts(p) ==> inputs == Signed(p, key, leaf, indexes[..n]).inputs
    {
      var index := indexes[n];
      if !CanSign(p, key, leaf, index) {
        return Failure("key not authorized");
      }
      assert forall i :: i in indexes[..n + 1] <==> i in indexes[..n] || i == index;
      var signature := Signature(key, SighashMessage(p, index, leaf), DefaultSighash);
      assert inputs[index].signatures[(key, leaf) := signature]
          == p.inputs[index].signatures[(key, leaf) := signature];
      inputs := inputs[index := inputs[index].(signatures := inputs[index].signatures[(key, leaf) := signature])];
      assert inputs == Signed(p, key, leaf, indexes[..n + 1]).inputs;
    }
    assert indexes[..|indexes|] == indexes;
    return Success(Psbt(p.tx, inputs));
  }

  /** Input `index` carries a valid signature of `key` over the whole transaction. */
  predicate SignedBy(p: Psbt, key: Key, leaf: Leaf, index: nat) {
    && index < |p.inputs|
    && HasPrevouts(p)
    && (key, leaf) in p.inputs[index].signatures
    && p.inputs[index].signatures[(key, leaf)] == Signature(key, SighashMessage(p, index, leaf), DefaultSighash)
  }

  /** `verify_vault_psbt_signatures` and `verify_controller_psbt_signatures`. */
  method VerifySignatures(p: Psbt, key: Key, leaf: Leaf, indexes: seq<nat>) returns (ok: bool)
    ensures ok <==> DefaultSighashes(p) && forall k :: 0 <= k < |indexes| ==> SignedBy(p, key, leaf, indexes[k])
  {
    ok := ValidateDefaultSighashes(p);
    if !ok {
      return;
    }
    for n := 0 to |indexes|
      invariant forall k :: 0 <= k < n ==> SignedBy(p, key, leaf, indexes[k])
    {
      if !SignedBy(p, key, leaf, indexes[n]) {
        return false;
      }
    }
  }

  /** Adding one key's signatures keeps the transaction, the previous outputs, the metadata and
      every other signature. */
  lemma {:induction false} SigningPreserves(p: Psbt, key: Key, leaf: Leaf, indexes: seq<nat>)
    requires HasPrevouts(p)
    ensures var q := Signed(p, key, leaf, indexes);
            && q.tx == p.tx && |q.inputs| == |p.inputs| && HasPrevouts(q) && Prevouts(q) == Prevouts(p)
            && (DefaultSighashes(p) ==> DefaultSighashes(q))
            && (forall i :: 0 <= i < |p.inputs| && i !in indexes ==> q.inputs[i] == p.inputs[i])
            && (forall i :: 0 <= i < |p.inputs| ==>
                  && q.inputs[i].utxo == p.inputs[i].utxo && q.inputs[i].origins == p.inputs[i].origins
                  && q.inputs[i].scripts == p.inputs[i].scripts)
            && (forall k: nat :: k in indexes && k < |p.inputs| ==> SignedBy(q, key, leaf, k))
            && (forall other, otherLeaf, k: nat :: SignedBy(p, other, otherLeaf, k) ==> SignedBy(q, other, otherLeaf, k))
  {
    var q := Signed(p, key, leaf, indexes);
    assert Prevouts(q) == Prevouts(p);
  }

  // ----- Finalizing -----

  /** The input lists this leaf for the tree of the output that it spends. */
  predicate ListsLeaf(p: Psbt, index: nat, leaf: Leaf) {
    && index < |p.inputs| && p.inputs[index].utxo.Some?
    && TapScript(p.inputs[index].utxo.value.script, leaf) in p.inputs[index].scripts
  }

  /** The input's sequence satisfies a relative lock of that many blocks. */
  predicate Waited(p: Psbt, index: nat, blocks: nat) {
    index < |p.tx.inputs| && RelativeBlocks(p.tx.version, p.tx.inputs[index].sequence) >= blocks
  }

  /** `finalize_inp_mut`: a listed leaf of the output's tree is satisfied by valid signatures. */
  predicate CanFinalize(p: Psbt, index: nat) {
    && index < |p.inputs|
    && p.inputs[index].utxo.Some?
    && match p.inputs[index].utxo.value.script
       case VaultScript(phone, hww) =>
         var cooperative := VaultLeaf(Cooperative, phone, hww);
         var phoneRecovery, hwwRecovery := VaultLeaf(PhoneRecovery, phone, hww), VaultLeaf(HwwRecovery, phone, hww);
         || (ListsLeaf(p, index, cooperative) && SignedBy(p, phone, cooperative, index) && SignedBy(p, hww, cooperative, index))
         || (ListsLeaf(p, index, phoneRecovery) && SignedBy(p, phone, phoneRecovery, index) && Waited(p, index, PHONE_RECOVERY_BLOCKS))
         || (ListsLeaf(p, index, hwwRecovery) && SignedBy(p, hww, hwwRecovery, index) && Waited(p, index, HWW_RECOVERY_BLOCKS))
       case ControllerScript(phone, hww) =>
         || (ListsLeaf(p, index, ControllerLeaf(phone)) && SignedBy(p, phone, ControllerLeaf(phone), index))
         || (ListsLeaf(p, index, ControllerLeaf(hww)) && SignedBy(p, hww, ControllerLeaf(hww), index))
       case HotScript(_, _) => false
  }

  predicate AllFinalize(p: Psbt) {
    HasPrevouts(p) && forall i :: 0 <= i < |p.inputs| ==> CanFinalize(p, i)
  }

  /** `finalize_vault_psbt`. The extracted transaction is the signed one; its witnesses are not part of
      the txid. */
  method FinalizeVaultPsbt(p: Psbt) returns (r: Result<Tx>)
    ensures r.Success? <==> DefaultSighashes(p) && AllFinalize(p)
    ensures r.Success? ==> r.value == p.tx
  {
    hide CanFinalize, DefaultSighashes;
    var ok := ValidateDefaultSighashes(p);
    if !ok || !HasPrevouts(p) {
      return Failure("not SIGHASH_DEFAULT, or no UTXO");
    }
    for i := 0 to |p.inputs|
      invariant forall k :: 0 <= k < i ==> CanFinalize(p, k)
    {
      if !CanFinalize(p, i) {
        return Failure("cannot finalize");
      }
    }
    return Success(p.tx);
  }

  /** Further signatures leave a finalizable input finalizable. */
  lemma {:induction false} SigningKeepsFinal(p: Psbt, key: Key, leaf: Leaf, indexes: seq<nat>, k: nat)
    requires HasPrevouts(p) && CanFinalize(p, k)
    ensures CanFinalize(Signed(p, key, leaf, indexes), k)
  {
    SigningPreserves(p, key, leaf, indexes);
    hide SignedBy, Signed;
  }

  /** Without a wait for the recovery leaves, a vault input finalizes exactly when it lists the
      cooperative leaf and both keys have signed it. */
  lemma {:induction false} CooperativeFinalizes(p: Psbt, phone: Key, hww: Key, k: nat)
    requires k < |p.inputs| && k < |p.tx.inputs| && p.inputs[k].utxo.Some? && p.inputs[k].utxo.value.script == VaultScript(phone, hww)
    requires RelativeBlocks(p.tx.version, p.tx.inputs[k].sequence) == 0
    ensures var leaf := VaultLeaf(Cooperative, phone, hww);
            CanFinalize(p, k) <==> ListsLeaf(p, k, leaf) && SignedBy(p, phone, leaf, k) && SignedBy(p, hww, leaf, k)
  {
    hide SignedBy, ListsLeaf;
  }
}
