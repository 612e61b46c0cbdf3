/** The complete proposal: `build_policy_proposal_with_connectors` (src/core/ceremony.rs). */
module Proposal {
  import opened Wrappers
  import opened Bitcoin
  import opened Fees
  import opened Psbts
  import opened Ceremony
  import opened Validator
  import opened HotAddresses
  import opened Selection
  import opened Builder

  // ----- The rollover's inputs -----

  function Outputs(utxos: seq<Utxo>): seq<TxOut> {
    seq(|utxos|, i requires 0 <= i < |utxos| => utxos[i].txout)
  }

  function SpendAll(utxos: seq<Utxo>, sequence: U32): seq<TxIn> {
    seq(|utxos|, i requires 0 <= i < |utxos| => TxIn(utxos[i].outpoint, sequence))
  }

  function RolloverInputs(vaults: seq<Utxo>, controllers: seq<Utxo>): seq<TxIn> {
    SpendAll(vaults, SEQUENCE_MAX) + SpendAll(controllers, SEQUENCE_RBF)
  }

  function IndexRange(from: nat, count: nat): seq<nat> {
    seq(count, i requires 0 <= i < count => from + i)
  }

  lemma {:induction false} RangeMembers(from: nat, count: nat)
    ensures forall i: nat :: i in IndexRange(from, count) <==> from <= i < from + count
  {
    forall i: nat | from <= i < from + count
      ensures i in IndexRange(from, count)
    {
      assert IndexRange(from, count)[i - from] == i;
    }
  }

  predicate AllUnder(utxos: seq<Utxo>, script: Script) {
    forall i :: 0 <= i < |utxos| ==> utxos[i].txout.script == script
  }

  /** `checked_input_sum`. */
  method CheckedInputSum(utxos: seq<Utxo>) returns (r: Result<U64>)
    ensures r == if UtxoSum(utxos) <= MAX_U64 then Success(UtxoSum(utxos)) else Failure("input total overflowed")
  {
    var sum: U64 := 0;
    for i := 0 to |utxos|
      invariant UtxoSum(utxos) == sum + UtxoSum(utxos[i..])
    {
      assert utxos[i..][1..] == utxos[i + 1..];
      var next := CheckedAdd(sum, utxos[i].txout.value);
      if next.None? {
        return Failure("input total overflowed");
      }
      sum := next.value;
    }
    return Success(sum);
  }

  lemma {:induction false} RangesPartition(vaults: nat, controllers: nat)
    ensures ValidateInputPartition(vaults + controllers, IndexRange(0, vaults), IndexRange(vaults, controllers))
  {
    RangeMembers(0, vaults);
    RangeMembers(vaults, controllers);
    PartitionIsExact(vaults + controllers, IndexRange(0, vaults), IndexRange(vaults, controllers));
  }

  lemma {:induction false} RangeSum(p: Psbt, indexes: seq<nat>, utxos: seq<Utxo>)
    requires |indexes| == |utxos|
    requires forall k :: 0 <= k < |indexes| ==>
               indexes[k] < |p.inputs| && p.inputs[indexes[k]].utxo == Some(utxos[k].txout)
    ensures RoleSum(p, indexes) == UtxoSum(utxos)
  {
    if indexes != [] {
      RangeSum(p, indexes[1..], utxos[1..]);
    }
  }

  function UnsignedRollover(config: VaultConfig, tx: Tx, vaults: seq<Utxo>, controllers: seq<Utxo>): Psbt {
    PolicyPsbt(tx, Outputs(vaults) + Outputs(controllers), IndexRange(0, |vaults|), config.Vault(), config.Controller())
  }

  /** The rollover that the phone hands over: its signature on every vault and controller input. */
  function PhoneSignedRollover(config: VaultConfig, tx: Tx, vaults: seq<Utxo>, controllers: seq<Utxo>): Psbt
    requires |tx.inputs| == |vaults| + |controllers|
  {
    var V, C := IndexRange(0, |vaults|), IndexRange(|vaults|, |controllers|);
    Signed(Signed(UnsignedRollover(config, tx, vaults, controllers), config.phone, CooperativeLeaf(config), V),
           config.phone, ControllerLeaf(config.phone), C)
  }

  /** The input records the key origins and the leaves of this tree. */
  predicate DescribedBy(input: PsbtInput, tree: Script) {
    input.origins == Origins(tree) && input.scripts == Leaves(tree)
  }

  /** Each input of `p` records the output it spends, under the script tree of its role. */
  ghost predicate RolloverShape(config: VaultConfig, p: Psbt, tx: Tx, vaults: seq<Utxo>, controllers: seq<Utxo>) {
    && p.tx == tx && HasPrevouts(p) && DefaultSighashes(p)
    && |p.inputs| == |vaults| + |controllers|
    && (forall i :: 0 <= i < |vaults| ==>
          p.inputs[i].utxo == Some(vaults[i].txout) && DescribedBy(p.inputs[i], config.Vault()))
    && (forall i :: |vaults| <= i < |p.inputs| ==>
          p.inputs[i].utxo == Some(controllers[i - |vaults|].txout) && DescribedBy(p.inputs[i], config.Controller()))
  }

  lemma {:induction false} SigningKeepsShape(config: VaultConfig, p: Psbt, tx: Tx, vaults: seq<Utxo>,
                                             controllers: seq<Utxo>, leaf: Leaf, indexes: seq<nat>)
    requires RolloverShape(config, p, tx, vaults, controllers)
    ensures RolloverShape(config, Signed(p, config.phone, leaf, indexes), tx, vaults, controllers)
  {
    SigningPreserves(p, config.phone, leaf, indexes);
  }

  lemma {:induction false} PolicyPsbtShape(config: VaultConfig, tx: Tx, prevouts: seq<TxOut>, V: seq<nat>,
                                           vaults: seq<Utxo>, controllers: seq<Utxo>)
    requires |tx.inputs| == |vaults| + |controllers| == |prevouts|
    requires forall i :: 0 <= i < |vaults| ==> prevouts[i] == vaults[i].txout
    requires forall i :: |vaults| <= i < |prevouts| ==> prevouts[i] == controllers[i - |vaults|].txout
    requires forall i: nat :: i in V <==> i < |vaults|
    ensures RolloverShape(config, PolicyPsbt(tx, prevouts, V, config.Vault(), config.Controller()), tx, vaults, controllers)
  {
    var p := PolicyPsbt(tx, prevouts, V, config.Vault(), config.Controller());
    forall i | 0 <= i < |p.inputs|
      ensures p.inputs[i] == FreshInput(prevouts[i], if i < |vaults| then config.Vault() else config.Controller())
    {
    }
  }

  lemma {:induction false} UnsignedShape(config: VaultConfig, tx: Tx, vaults: seq<Utxo>, controllers: seq<Utxo>)
    requires |tx.inputs| == |vaults| + |controllers|
    ensures RolloverShape(config, UnsignedRollover(config, tx, vaults, controllers), tx, vaults, controllers)
  {
    hide RolloverShape, PolicyPsbt, IndexRange;
    RangeMembers(0, |vaults|);
    PolicyPsbtShape(config, tx, Outputs(vaults) + Outputs(controllers), IndexRange(0, |vaults|), vaults, controllers);
  }

  lemma {:induction false} PhoneSignedShape(config: VaultConfig, tx: Tx, vaults: seq<Utxo>, controllers: seq<Utxo>)
    requires |tx.inputs| == |vaults| + |controllers|
    ensures RolloverShape(config, UnsignedRollover(config, tx, vaults, controllers), tx, vaults, controllers)
    ensures RolloverShape(config, Signed(UnsignedRollover(config, tx, vaults, controllers), config.phone,
                                         CooperativeLeaf(config), IndexRange(0, |vaults|)), tx, vaults, controllers)
    ensures RolloverShape(config, PhoneSignedRollover(config, tx, vaults, controllers), tx, vaults, controllers)
  {
    hide RolloverShape, Signed, UnsignedRollover;
    var unsigned := UnsignedRollover(config, tx, vaults, controllers);
    UnsignedShape(config, tx, vaults, controllers);
    assert HasPrevouts(unsigned) by { ShapeCanSign(config, unsigned, tx, vaults, controllers); }
    SigningKeepsShape(config, unsigned, tx, vaults, controllers, CooperativeLeaf(config), IndexRange(0, |vaults|));
    SigningKeepsShape(config, Signed(unsigned, config.phone, CooperativeLeaf(config), IndexRange(0, |vaults|)), tx, vaults,
                      controllers, ControllerLeaf(config.phone), IndexRange(|vaults|, |controllers|));
  }

  lemma {:induction false} ShapeCanSign(config: VaultConfig, p: Psbt, tx: Tx, vaults: seq<Utxo>, controllers: seq<Utxo>)
    requires RolloverShape(config, p, tx, vaults, controllers)
    ensures forall k: nat :: k in IndexRange(0, |vaults|) ==> CanSign(p, config.phone, CooperativeLeaf(config), k)
    ensures forall k: nat :: k in IndexRange(|vaults|, |controllers|) ==> CanSign(p, config.phone, ControllerLeaf(config.phone), k)
    ensures HasPrevouts(p) && DefaultSighashes(p)
  {
    RangeMembers(0, |vaults|);
    RangeMembers(|vaults|, |controllers|);
  }

  lemma {:induction false} RolloverPrevouts(config: VaultConfig, vaults: seq<Utxo>, controllers: seq<Utxo>)
    requires AllUnder(vaults, config.Vault()) && AllUnder(controllers, config.Controller())
    ensures var prevouts := Outputs(vaults) + Outputs(controllers);
            && |prevouts| == |vaults| + |controllers|
            && forall i :: 0 <= i < |prevouts| ==>
                 prevouts[i].script == if i in IndexRange(0, |vaults|) then config.Vault() else config.Controller()
  {
    RangeMembers(0, |vaults|);
  }

  method SignRollover(config: VaultConfig, tx: Tx, vaults: seq<Utxo>, controllers: seq<Utxo>) returns (p: Psbt)
    requires |tx.inputs| == |vaults| + |controllers|
    requires AllUnder(vaults, config.Vault()) && AllUnder(controllers, config.Controller())
    ensures p == PhoneSignedRollover(config, tx, vaults, controllers)
  {
    RangesPartition(|vaults|, |controllers|);
    RolloverPrevouts(config, vaults, controllers);
    PhoneSignedShape(config, tx, vaults, controllers);
    ghost var unsigned := UnsignedRollover(config, tx, vaults, controllers);
    ShapeCanSign(config, unsigned, tx, vaults, controllers);
    ShapeCanSign(config, Signed(unsigned, config.phone, CooperativeLeaf(config), IndexRange(0, |vaults|)), tx, vaults, controllers);
    hide *;
    var V, C := IndexRange(0, |vaults|), IndexRange(|vaults|, |controllers|);
    var created := CreatePolicyPsbt(tx, Outputs(vaults) + Outputs(controllers), V, C, config.Vault(), config.Controller());
    var vaultSigned := SignInputs(created.value, config.phone, CooperativeLeaf(config), V);
    var signed := SignInputs(vaultSigned.value, config.phone, ControllerLeaf(config.phone), C);
    p := signed.value;
  }

  lemma {:induction false} RolloverSignatures(config: VaultConfig, tx: Tx, vaults: seq<Utxo>, controllers: seq<Utxo>)
    requires |tx.inputs| == |vaults| + |controllers|
    ensures var p := PhoneSignedRollover(config, tx, vaults, controllers);
            && (forall k :: k in IndexRange(0, |vaults|) ==> SignedBy(p, config.phone, CooperativeLeaf(config), k))
            && (forall k :: k in IndexRange(|vaults|, |controllers|) ==> SignedBy(p, config.phone, ControllerLeaf(config.phone), k))
  {
    hide Signed, SignedBy, RolloverShape;
    var V, C := IndexRange(0, |vaults|), IndexRange(|vaults|, |controllers|);
    var unsigned := UnsignedRollover(config, tx, vaults, controllers);
    var first := Signed(unsigned, config.phone, CooperativeLeaf(config), V);
    SigningPreserves(unsigned, config.phone, CooperativeLeaf(config), V);
    SigningPreserves(first, config.phone, ControllerLeaf(config.phone), C);
  }

  lemma {:induction false} RolloverInputsValid(config: VaultConfig, p: Psbt, tx: Tx, vaults: seq<Utxo>, controllers: seq<Utxo>, m: Manifest)
    requires RolloverShape(config, p, tx, vaults, controllers)
    requires tx.inputs == RolloverInputs(vaults, controllers) && |vaults| > 0
    requires AllUnder(vaults, config.Vault()) && AllUnder(controllers, config.Controller())
    requires m.rollover.vaultIndexes == IndexRange(0, |vaults|)
    requires m.rollover.controllerIndexes == IndexRange(|vaults|, |controllers|)
    requires m.vaultInput == UtxoSum(vaults) && m.controllerInput == UtxoSum(controllers)
    requires m.totalInput == m.vaultInput + m.controllerInput
    ensures ValidRolloverInputs(config, m, p)
  {
    var V, C := IndexRange(0, |vaults|), IndexRange(|vaults|, |controllers|);
    RangesPartition(|vaults|, |controllers|);
    RolesFollow(config, p, tx, vaults, controllers);
    hide *;
    RangeSum(p, V, vaults);
    RangeSum(p, C, controllers);
    InputsFromParts(config, m, p, tx, vaults, controllers);
  }

  // Each role range lists inputs of its own script and sequence.
  lemma {:induction false} RolesFollow(config: VaultConfig, p: Psbt, tx: Tx, vaults: seq<Utxo>, controllers: seq<Utxo>)
    requires RolloverShape(config, p, tx, vaults, controllers) && tx.inputs == RolloverInputs(vaults, controllers)
    requires AllUnder(vaults, config.Vault()) && AllUnder(controllers, config.Controller())
    ensures var V, C := IndexRange(0, |vaults|), IndexRange(|vaults|, |controllers|);
            && RoleInputs(p, V, config.Vault(), SEQUENCE_MAX) && RoleInputs(p, C, config.Controller(), SEQUENCE_RBF)
            && |V| == |vaults| && |C| == |controllers| && |p.inputs| == |tx.inputs| == |vaults| + |controllers|
            && p.tx == tx
            && (forall k :: 0 <= k < |V| ==> V[k] < |p.inputs| && p.inputs[V[k]].utxo == Some(vaults[k].txout))
            && (forall k :: 0 <= k < |C| ==> C[k] < |p.inputs| && p.inputs[C[k]].utxo == Some(controllers[k].txout))
  {
    hide AllUnder, RolloverShape, RolloverInputs, RoleInputs;
    ShapeSizes(config, p, tx, vaults, controllers);
    RangeLengths(|vaults|, |controllers|);
    VaultRoles(config, p, tx, vaults, controllers);
    ControllerRoles(config, p, tx, vaults, controllers);
  }

  lemma {:induction false} ShapeSizes(config: VaultConfig, p: Psbt, tx: Tx, vaults: seq<Utxo>, controllers: seq<Utxo>)
    requires RolloverShape(config, p, tx, vaults, controllers) && tx.inputs == RolloverInputs(vaults, controllers)
    ensures |p.inputs| == |tx.inputs| == |vaults| + |controllers| && p.tx == tx
  {
    hide DefaultSighashes;
  }

  lemma {:induction false} VaultRoles(config: VaultConfig, p: Psbt, tx: Tx, vaults: seq<Utxo>, controllers: seq<Utxo>)
    requires RolloverShape(config, p, tx, vaults, controllers) && tx.inputs == RolloverInputs(vaults, controllers)
    requires AllUnder(vaults, config.Vault())
    ensures var V := IndexRange(0, |vaults|);
            && RoleInputs(p, V, config.Vault(), SEQUENCE_MAX)
            && forall k :: 0 <= k < |V| ==> V[k] < |p.inputs| && p.inputs[V[k]].utxo == Some(vaults[k].txout)
  {
    hide DefaultSighashes;
    var V := IndexRange(0, |vaults|);
    assert |tx.inputs| == |vaults| + |controllers| == |p.inputs|;
    forall k | 0 <= k < |V|
      ensures V[k] == k && tx.inputs[k].sequence == SEQUENCE_MAX && p.inputs[k].utxo == Some(vaults[k].txout)
    {
    }
  }

  lemma {:induction false} ControllerRoles(config: VaultConfig, p: Psbt, tx: Tx, vaults: seq<Utxo>, controllers: seq<Utxo>)
    requires RolloverShape(config, p, tx, vaults, controllers) && tx.inputs == RolloverInputs(vaults, controllers)
    requires AllUnder(controllers, config.Controller())
    ensures var C := IndexRange(|vaults|, |controllers|);
            && RoleInputs(p, C, config.Controller(), SEQUENCE_RBF)
            && forall k :: 0 <= k < |C| ==> C[k] < |p.inputs| && p.inputs[C[k]].utxo == Some(controllers[k].txout)
  {
    hide RolloverShape, RolloverInputs, IndexRange;
    var C := IndexRange(|vaults|, |controllers|);
    RangeLengths(|vaults|, |controllers|);
    forall k | 0 <= k < |C|
      ensures C[k] < |p.inputs| == |tx.inputs| && p.tx == tx && tx.inputs[C[k]].sequence == SEQUENCE_RBF
      ensures p.inputs[C[k]].utxo == Some(controllers[k].txout) && controllers[k].txout.script == config.Controller()
    {
      RangeAt(|vaults|, |controllers|, k);
      ShapeSizes(config, p, tx, vaults, controllers);
      ControllerAt(config, p, tx, vaults, controllers, k);
    }
  }

  lemma {:induction false} RangeAt(from: nat, count: nat, k: nat)
    requires k < count
    ensures |IndexRange(from, count)| == count && IndexRange(from, count)[k] == from + k
  {
  }

  lemma {:induction false} ControllerAt(config: VaultConfig, p: Psbt, tx: Tx, vaults: seq<Utxo>, controllers: seq<Utxo>, k: nat)
    requires RolloverShape(config, p, tx, vaults, controllers) && tx.inputs == RolloverInputs(vaults, controllers)
    requires k < |controllers|
    ensures |tx.inputs| == |p.inputs| == |vaults| + |controllers|
    ensures tx.inputs[|vaults| + k].sequence == SEQUENCE_RBF && p.inputs[|vaults| + k].utxo == Some(controllers[k].txout)
  {
    ShapeSizes(config, p, tx, vaults, controllers);
    hide DefaultSighashes;
    var i := |vaults| + k;
    assert tx.inputs[i] == SpendAll(controllers, SEQUENCE_RBF)[k];
    assert p.inputs[i].utxo == Some(controllers[i - |vaults|].txout);
  }

  lemma {:induction false} InputsFromParts(config: VaultConfig, m: Manifest, p: Psbt, tx: Tx, vaults: seq<Utxo>, controllers: seq<Utxo>)
    requires p.tx == tx && |p.inputs| == |tx.inputs| == |vaults| + |controllers| && |vaults| > 0
    requires m.rollover.vaultIndexes == IndexRange(0, |vaults|)
    requires m.rollover.controllerIndexes == IndexRange(|vaults|, |controllers|)
    requires ValidateInputPartition(|tx.inputs|, m.rollover.vaultIndexes, m.rollover.controllerIndexes)
    requires RoleInputs(p, m.rollover.vaultIndexes, config.Vault(), SEQUENCE_MAX)
    requires RoleInputs(p, m.rollover.controllerIndexes, config.Controller(), SEQUENCE_RBF)
    requires RoleSum(p, m.rollover.vaultIndexes) == UtxoSum(vaults) == m.vaultInput
    requires RoleSum(p, m.rollover.controllerIndexes) == UtxoSum(controllers) == m.controllerInput
    requires m.totalInput == m.vaultInput + m.controllerInput
    ensures ValidRolloverInputs(config, m, p)
  {
    hide IndexRange, UtxoSum, ValidateInputPartition;
  }

  // ----- When a proposal exists -----

  /** The builder succeeds under exactly these conditions. */
  predicate Buildable(config: VaultConfig, vaults: seq<Utxo>, controllers: seq<Utxo>, monthly: U64, emergency: U64, phone: Key) {
    && |vaults| > 0 && phone == config.phone
    && AllUnder(vaults, config.Vault()) && AllUnder(controllers, config.Controller())
    && UtxoSum(vaults) + UtxoSum(controllers) <= MAX_U64
    && (emergency > 0 ==> CONNECTOR_VALUE_SATS + P2TR_DUST <= emergency + FINAL_FEE <= MAX_U64)
    && (monthly > 0 ==> monthly >= P2TR_DUST)
    && var total := UtxoSum(vaults) + UtxoSum(controllers);
    && !SearchFails(|vaults|, |controllers|, total, monthly, emergency)
    && var count := SelectedCount(|vaults|, |controllers|, total, monthly, emergency);
    && (count == 0 ==> Required(|vaults|, |controllers|, monthly, emergency, 0) <= total)
    && (count >= 2 ==> monthly + FINAL_FEE >= CONNECTOR_VALUE_SATS + P2TR_DUST)
  }

  /** What a successful proposal is, besides being valid. */
  ghost predicate ProposalFor(config: VaultConfig, vaults: seq<Utxo>, controllers: seq<Utxo>, monthly: U64,
                              emergency: U64, firstAddress: nat, batch: Batch)
  {
    var m, files := batch.manifest, batch.files;
    && |vaults| > 0 && m.phoneApproved && !m.hwwApproved
    && m.monthlyLimit == monthly && m.emergencyLimit == emergency
    && m.rollover.vaultIndexes == IndexRange(0, |vaults|)
    && m.rollover.controllerIndexes == IndexRange(|vaults|, |controllers|)
    && m.totalInput == UtxoSum(vaults) + UtxoSum(controllers)
    && m.allowanceCount == SelectedCount(|vaults|, |controllers|, m.totalInput, monthly, emergency)
    && m.remainderValue >= MinimumRemainder(emergency)
    && m.rollover.file in files
    && files[m.rollover.file].tx.inputs == RolloverInputs(vaults, controllers)
    && RolloverShape(config, files[m.rollover.file], files[m.rollover.file].tx, vaults, controllers)
    && PhoneSigned(config, batch)
    && (m.allowanceCount > 0 ==> m.allowanceValue == ChainTotal(m.allowanceCount, monthly))
    && AddressesReplay(config, firstAddress, m)
    && (forall k :: 0 <= k < |m.allowances| && k < m.allowanceCount ==>
          m.allowances[k].chainValue == ChainTotal(m.allowanceCount - k, monthly))
  }

  /** Every vault input carries the phone's signature; so do the rollover's connectors. Every
      input's script tree is recorded. */
  ghost predicate PhoneSigned(config: VaultConfig, batch: Batch) {
    forall t :: t in ManifestTransactions(batch.manifest) ==>
      && t.file in batch.files
      && InputsDescribed(batch.files[t.file])
      && (forall k :: k in t.vaultIndexes ==> SignedBy(batch.files[t.file], config.phone, CooperativeLeaf(config), k))
      && (t.file == batch.manifest.rollover.file ==>
            forall k :: k in t.controllerIndexes ==>
              SignedBy(batch.files[t.file], config.phone, ControllerLeaf(config.phone), k))
  }

  ghost predicate InputsDescribed(p: Psbt) {
    forall k :: 0 <= k < |p.inputs| ==>
      p.inputs[k].utxo.Some? && DescribedBy(p.inputs[k], p.inputs[k].utxo.value.script)
  }

  /** The hot addresses are consecutive cursor positions, the emergency address first. */
  predicate AddressesReplay(config: VaultConfig, firstAddress: nat, m: Manifest) {
    var skip := if m.emergency.Some? then 1 else 0;
    && (m.emergency.Some? ==> m.emergency.value.hotAddress == ReceiveAddress(config.network, config.phone, firstAddress))
    && (forall k :: 0 <= k < |m.allowances| ==>
          m.allowances[k].hotAddress == ReceiveAddress(config.network, config.phone, firstAddress + skip + k))
  }

  // ----- The builder -----

  /** The selected plan, or the rollover without allowances. */
  method PlanRollover(inputs: seq<TxIn>, vaultIndexes: seq<nat>, controllerIndexes: seq<nat>, total: U64, limit: U64,
                      emergency: U64, minimumRemainder: U64, vault: Script, controller: Script)
    returns (r: Result<RolloverPlan>)
    requires ValidateInputPartition(|inputs|, vaultIndexes, controllerIndexes)
    requires minimumRemainder == MinimumRemainder(emergency)
    requires limit == 0 || limit >= P2TR_DUST
    requires ScriptLength(vault) == 34 && ScriptLength(controller) == 34
    ensures r.Success? <==>
              && !SearchFails(|vaultIndexes|, |controllerIndexes|, total, limit, emergency)
              && (SelectedCount(|vaultIndexes|, |controllerIndexes|, total, limit, emergency) == 0 ==>
                    Required(|vaultIndexes|, |controllerIndexes|, limit, emergency, 0) <= total)
    ensures r.Success? ==> PlanFor(r.value, |vaultIndexes|, |controllerIndexes|, total, limit, emergency)
  {
    var selected :- SelectRollover(inputs, vaultIndexes, controllerIndexes, total, limit, emergency, minimumRemainder, vault, controller);
    if selected.Some? {
      return Success(selected.value);
    }
    var fee := RolloverTemplateFee(inputs, vaultIndexes, controllerIndexes, None, vault, controller, emergency > 0);
    var connectors := CONNECTOR_VALUE_SATS * EmergencyOutputs(emergency);
    if total < fee + connectors {
      return Failure("cannot pay the rollover fee");
    }
    var remainder := total - fee - connectors;
    if remainder < minimumRemainder {
      return Failure("cannot fund the remainder");
    }
    return Success(RolloverPlan(0, 0, fee, remainder));
  }

  // The manifest written at the end of the builder.
  function ProposalManifest(config: VaultConfig, vaults: seq<Utxo>, controllers: seq<Utxo>, monthly: U64, emergency: U64,
                            vaultInput: U64, controllerInput: U64, total: U64, plan: RolloverPlan, rollover: Tx,
                            allowances: seq<AllowanceStep>, access: Option<EmergencyPolicy>): Manifest
    requires plan.fee <= MAX_U64 && plan.remainder <= MAX_U64
  {
    var has := plan.count > 0;
    var remainderVout: U32 := if has then 1 else 0;
    Manifest(5, config.network, config.Vault(), config.Vault(), config.Controller(), config.Controller(),
             CONNECTOR_VALUE_SATS, monthly, emergency, DEFAULT_FEE_RATE_SAT_VB, total, vaultInput, controllerInput,
             plan.count,
             BatchTransaction(RolloverFile, TxidOf(rollover), plan.fee, IndexRange(0, |vaults|), IndexRange(|vaults|, |controllers|)),
             if has then Some(0) else None, plan.chainValue, remainderVout, plan.remainder,
             if has then Some(remainderVout + 1) else None,
             if emergency > 0 then Some(remainderVout + 1 + if has then 1 else 0) else None,
             allowances, access, true, false)
  }

  lemma {:induction false} RolloverOutputsTotal(allowance: Option<U64>, remainder: U64, vault: Script, controller: Script, emergency: bool)
    requires ScriptLength(vault) == 34 && ScriptLength(controller) == 34
    ensures var outputs := RolloverOutputs(allowance, remainder, vault, controller, emergency);
            && OutputSum(outputs) == (if allowance.Some? then allowance.value + CONNECTOR_VALUE_SATS else 0) + remainder
                                     + (if emergency then CONNECTOR_VALUE_SATS else 0)
            && |outputs| == (if allowance.Some? then 3 else 1) + (if emergency then 1 else 0)
            && AllP2tr(outputs)
  {
    var first := if allowance.Some? then [TxOut(allowance.value, vault)] else [];
    var third := if allowance.Some? then [ConnectorOutput(controller)] else [];
    var fourth := if emergency then [ConnectorOutput(controller)] else [];
    var outputs := RolloverOutputs(allowance, remainder, vault, controller, emergency);
    assert outputs == first + ([TxOut(remainder, vault)] + (third + fourth));
    OutputSumAppend(first, [TxOut(remainder, vault)] + (third + fourth));
    OutputSumAppend([TxOut(remainder, vault)], third + fourth);
    OutputSumAppend(third, fourth);
    OutputSums(TxOut(remainder, vault), ConnectorOutput(controller), ConnectorOutput(controller));
    if allowance.Some? {
      OutputSums(TxOut(allowance.value, vault), ConnectorOutput(controller), ConnectorOutput(controller));
    }
    OutputSums(ConnectorOutput(controller), ConnectorOutput(controller), ConnectorOutput(controller));
  }

  // ----- Assembly -----

  lemma {:induction false} ChildIsSigned(config: VaultConfig, p: Psbt)
    requires PhoneSignedChild(config, p)
    ensures DefaultSighashes(p) && InputsDescribed(p) && SignedBy(p, config.phone, CooperativeLeaf(config), 0)
  {
    SigningPreserves(PolicyPsbt(p.tx, [p.inputs[0].utxo.value, ConnectorOutput(config.Controller())], [0],
                                config.Vault(), config.Controller()),
                     config.phone, CooperativeLeaf(config), [0]);
  }

  lemma {:induction false} RolloverAmountsValid(config: VaultConfig, m: Manifest, p: Psbt, plan: RolloverPlan)
    requires ValidRolloverInputs(config, m, p)
    requires TxidOf(p.tx) == m.rollover.unsignedTxid && p.tx.version == 2 && p.tx.lockTime == 0 && ValidVouts(m)
    requires PlanFor(plan, |m.rollover.vaultIndexes|, |m.rollover.controllerIndexes|, m.totalInput, m.monthlyLimit, m.emergencyLimit)
    requires m.allowanceCount == plan.count && m.allowanceValue == plan.chainValue && m.remainderValue == plan.remainder
    requires m.rollover.fee == plan.fee && (m.emergencyLimit > 0 ==> m.emergencyLimit + FINAL_FEE >= CONNECTOR_VALUE_SATS)
    requires p.tx.outputs == RolloverOutputs(if plan.count > 0 then Some(plan.chainValue) else None, plan.remainder,
                                             config.Vault(), config.Controller(), m.emergencyLimit > 0)
    ensures ValidRollover(config, m, p)
  {
    RolloverOutputsTotal(if plan.count > 0 then Some(plan.chainValue) else None, plan.remainder, config.Vault(),
                         config.Controller(), m.emergencyLimit > 0);
    VsizeIgnoresAmounts(|m.rollover.vaultIndexes|, |m.rollover.controllerIndexes|, p.tx.outputs);
  }

  // Everything the builder has in hand when it writes the manifest.
  ghost predicate Parts(config: VaultConfig, vaults: seq<Utxo>, controllers: seq<Utxo>, emergency: U64, plan: RolloverPlan,
                        rollover: Psbt, allowances: seq<AllowanceStep>, firstAddress: nat, monthly: U64,
                        access: Option<EmergencyPolicy>, files: Files)
  {
    && |allowances| == plan.count
    && RolloverFile in files && files[RolloverFile] == rollover
    && AllBuilt(config, monthly, plan.count, files, rollover.tx, allowances, firstAddress + EmergencyOutputs(emergency))
    && ValidEmergency(config, emergency, if plan.count > 0 then 1 else 0, if plan.count > 0 then 3 else 1, files,
                      rollover.tx, access)
    && (access.Some? ==>
          && access.value.trigger.file == TriggerFile && access.value.withdrawal.file == WithdrawalFile
          && PhoneSignedChild(config, files[TriggerFile]) && PhoneSignedChild(config, files[WithdrawalFile])
          && access.value.hotAddress == ReceiveAddress(config.network, config.phone, firstAddress))
  }

  ghost predicate StepReady(config: VaultConfig, count: nat, limit: U64, files: Files, a: AllowanceStep, firstAddress: nat, k: nat) {
    && a.authorization.file == AuthorizationFile(k + 1) && a.authorization.file in files
    && a.authorization.vaultIndexes == [0]
    && PhoneSignedChild(config, files[a.authorization.file])
    && a.hotAddress == ReceiveAddress(config.network, config.phone, firstAddress + k)
    && k < count && a.chainValue == ChainTotal(count - k, limit)
  }

  lemma {:induction false} StepFacts(config: VaultConfig, limit: U64, count: nat, files: Files, rollover: Tx,
                                     allowances: seq<AllowanceStep>, firstAddress: nat)
    requires AllBuilt(config, limit, count, files, rollover, allowances, firstAddress)
    ensures forall k :: 0 <= k < |allowances| ==> ValidStep(config, limit, count, files, rollover, allowances, k)
    ensures forall k :: 0 <= k < |allowances| ==> StepReady(config, count, limit, files, allowances[k], firstAddress, k)
  {
    forall k | 0 <= k < |allowances|
      ensures ValidStep(config, limit, count, files, rollover, allowances, k)
      ensures StepReady(config, count, limit, files, allowances[k], firstAddress, k)
    {
      assert BuiltStep(config, limit, count, files, rollover, allowances, firstAddress, k);
    }
  }

  /** The phone's hand-over of one manifest entry. */
  ghost predicate EntryReady(config: VaultConfig, files: Files, t: BatchTransaction) {
    && t.file in files && DefaultSighashes(files[t.file]) && InputsDescribed(files[t.file])
    && (forall k :: k in t.vaultIndexes ==> SignedBy(files[t.file], config.phone, CooperativeLeaf(config), k))
    && (t.file == RolloverFile ==>
          forall k :: k in t.controllerIndexes ==> SignedBy(files[t.file], config.phone, ControllerLeaf(config.phone), k))
  }

  lemma {:induction false} ChildReady(config: VaultConfig, files: Files, t: BatchTransaction)
    requires t.file in files && t.file != RolloverFile && t.vaultIndexes == [0] && PhoneSignedChild(config, files[t.file])
    ensures EntryReady(config, files, t)
  {
    ChildIsSigned(config, files[t.file]);
  }

  lemma {:induction false} EveryEntryReady(config: VaultConfig, m: Manifest, files: Files, firstAddress: nat)
    requires EntryReady(config, files, m.rollover)
    requires forall k :: 0 <= k < |m.allowances| ==>
               StepReady(config, m.allowanceCount, m.monthlyLimit, files, m.allowances[k], firstAddress, k)
    requires m.emergency.Some? ==>
               && EntryReady(config, files, m.emergency.value.trigger)
               && EntryReady(config, files, m.emergency.value.withdrawal)
    ensures forall t :: t in ManifestTransactions(m) ==> EntryReady(config, files, t)
  {
    hide EntryReady, PhoneSignedChild, ManifestTransactions;
    forall t | t in ManifestTransactions(m)
      ensures EntryReady(config, files, t)
    {
      EntryCases(m, t);
      if t != m.rollover && !(m.emergency.Some? && (t == m.emergency.value.trigger || t == m.emergency.value.withdrawal)) {
        var k :| 0 <= k < |m.allowances| && t == m.allowances[k].authorization;
        ChildReady(config, files, t);
      }
    }
  }

  // The rollover half of a proposal.
  lemma {:induction false} AssembledRollover(config: VaultConfig, vaults: seq<Utxo>, controllers: seq<Utxo>, m: Manifest,
                                             plan: RolloverPlan, rollover: Psbt, files: Files)
    requires |vaults| > 0 && AllUnder(vaults, config.Vault()) && AllUnder(controllers, config.Controller())
    requires m.monthlyLimit == 0 ==> plan.count == 0
    requires m.emergencyLimit > 0 ==> m.emergencyLimit + FINAL_FEE >= CONNECTOR_VALUE_SATS
    requires PlanFor(plan, |vaults|, |controllers|, m.totalInput, m.monthlyLimit, m.emergencyLimit)
    requires rollover.tx == Tx(2, 0, RolloverInputs(vaults, controllers),
                               RolloverOutputs(if plan.count > 0 then Some(plan.chainValue) else None, plan.remainder,
                                               config.Vault(), config.Controller(), m.emergencyLimit > 0))
    requires rollover == PhoneSignedRollover(config, rollover.tx, vaults, controllers)
    requires m.allowanceCount == plan.count && m.allowanceValue == plan.chainValue && m.remainderValue == plan.remainder
    requires m.rollover == BatchTransaction(RolloverFile, TxidOf(rollover.tx), plan.fee, IndexRange(0, |vaults|),
                                            IndexRange(|vaults|, |controllers|))
    requires m.vaultInput == UtxoSum(vaults) && m.controllerInput == UtxoSum(controllers)
    requires m.totalInput == m.vaultInput + m.controllerInput && ValidVouts(m)
    requires RolloverFile in files && files[RolloverFile] == rollover
    ensures ValidRollover(config, m, rollover)
    ensures EntryReady(config, files, m.rollover)
  {
    hide RolloverShape, PhoneSignedRollover, IndexRange, PlanFor, ValidRollover, ValidRolloverInputs, RolloverOutputs,
         SignedBy, AllUnder, InputsDescribed, DefaultSighashes, UtxoSum, ValidVouts;
    assert |rollover.tx.inputs| == |vaults| + |controllers|;
    hide RolloverInputs;
    PhoneSignedShape(config, rollover.tx, vaults, controllers);
    RolloverSignatures(config, rollover.tx, vaults, controllers);
    RolloverInputsValid(config, rollover, rollover.tx, vaults, controllers, m);
    RangeLengths(|vaults|, |controllers|);
    RolloverAmountsValid(config, m, rollover, plan);
    ShapeDescribed(config, rollover, rollover.tx, vaults, controllers);
  }

  lemma {:induction false} RangeLengths(vaults: nat, controllers: nat)
    ensures |IndexRange(0, vaults)| == vaults && |IndexRange(vaults, controllers)| == controllers
  {
  }

  ghost predicate PlanIsFor(config: VaultConfig, vaults: seq<Utxo>, controllers: seq<Utxo>, monthly: U64, emergency: U64,
                            total: U64, plan: RolloverPlan, rollover: Psbt)
  {
    && |vaults| > 0 && AllUnder(vaults, config.Vault()) && AllUnder(controllers, config.Controller())
    && UtxoSum(vaults) + UtxoSum(controllers) == total
    && (monthly == 0 ==> plan.count == 0)
    && (emergency > 0 ==> emergency + FINAL_FEE >= CONNECTOR_VALUE_SATS)
    && PlanFor(plan, |vaults|, |controllers|, total, monthly, emergency)
    && rollover.tx == Tx(2, 0, RolloverInputs(vaults, controllers),
                         RolloverOutputs(if plan.count > 0 then Some(plan.chainValue) else None, plan.remainder,
                                         config.Vault(), config.Controller(), emergency > 0))
    && rollover == PhoneSignedRollover(config, rollover.tx, vaults, controllers)
  }

  lemma {:induction false} EmergencyRoles(config: VaultConfig, files: Files, e: EmergencyPolicy, rollover: Tx,
                                          remainderVout: U32, connectorVout: U32, limit: U64)
    requires ValidEmergency(config, limit, remainderVout, connectorVout, files, rollover, Some(e))
    ensures limit > 0 && e.trigger.file in files && e.withdrawal.file in files
    ensures e.trigger.vaultIndexes == [0] && e.withdrawal.vaultIndexes == [0]
  {
  }

  lemma {:induction false} AssembledEntries(config: VaultConfig, m: Manifest, plan: RolloverPlan, rollover: Psbt,
                                            firstAddress: nat, files: Files, vaults: seq<Utxo>, controllers: seq<Utxo>)
    requires Parts(config, vaults, controllers, m.emergencyLimit, plan, rollover, m.allowances, firstAddress,
                   m.monthlyLimit, m.emergency, files)
    requires m.allowanceCount == plan.count
    requires m.rollover.file == RolloverFile && EntryReady(config, files, m.rollover)
    ensures forall t :: t in ManifestTransactions(m) ==> EntryReady(config, files, t)
    ensures AddressesReplay(config, firstAddress, m)
    ensures forall k :: 0 <= k < |m.allowances| ==>
              && ValidStep(config, m.monthlyLimit, m.allowanceCount, files, rollover.tx, m.allowances, k)
              && k < m.allowanceCount && m.allowances[k].chainValue == ChainTotal(m.allowanceCount - k, m.monthlyLimit)
  {
    var first := firstAddress + EmergencyOutputs(m.emergencyLimit);
    hide AllBuilt, PhoneSignedChild, ValidStep, ValidTrigger, ValidWithdrawal, ManifestTransactions, EntryReady;
    StepFacts(config, m.monthlyLimit, plan.count, files, rollover.tx, m.allowances, first);
    if m.emergency.Some? {
      EmergencyRoles(config, files, m.emergency.value, rollover.tx, if plan.count > 0 then 1 else 0,
                     if plan.count > 0 then 3 else 1, m.emergencyLimit);
      ChildReady(config, files, m.emergency.value.trigger);
      ChildReady(config, files, m.emergency.value.withdrawal);
    }
    EveryEntryReady(config, m, files, first);
  }

  // How the manifest reports the parts it was assembled from.
  ghost predicate Reports(config: VaultConfig, vaults: seq<Utxo>, controllers: seq<Utxo>, monthly: U64, emergency: U64,
                          plan: RolloverPlan, rollover: Tx, m: Manifest)
  {
    && ValidHeader(config, m) && ValidVouts(m) && plan.fee <= MAX_U64
    && m.monthlyLimit == monthly && m.emergencyLimit == emergency
    && m.allowanceCount == plan.count && m.allowanceValue == plan.chainValue && m.remainderValue == plan.remainder
    && m.rollover == BatchTransaction(RolloverFile, TxidOf(rollover), plan.fee, IndexRange(0, |vaults|),
                                      IndexRange(|vaults|, |controllers|))
    && m.vaultInput == UtxoSum(vaults) && m.controllerInput == UtxoSum(controllers)
    && m.totalInput == m.vaultInput + m.controllerInput
    && m.phoneApproved && !m.hwwApproved
  }

  lemma {:induction false} ManifestReports(config: VaultConfig, vaults: seq<Utxo>, controllers: seq<Utxo>, monthly: U64,
                                           emergency: U64, total: U64, plan: RolloverPlan, rollover: Tx,
                                           allowances: seq<AllowanceStep>, access: Option<EmergencyPolicy>)
    requires plan.fee <= MAX_U64 && plan.remainder <= MAX_U64
    requires plan.count == |allowances| <= MONTHS_PER_ROLLOVER && (monthly == 0 ==> plan.count == 0)
    requires plan.count == 0 ==> plan.chainValue == 0
    requires UtxoSum(vaults) + UtxoSum(controllers) == total
    ensures Reports(config, vaults, controllers, monthly, emergency, plan, rollover,
                    ProposalManifest(config, vaults, controllers, monthly, emergency, UtxoSum(vaults),
                                     UtxoSum(controllers), total, plan, rollover, allowances, access))
  {
    hide IndexRange, UtxoSum;
  }

  lemma {:induction false} AssembledBatch(config: VaultConfig, vaults: seq<Utxo>, controllers: seq<Utxo>, monthly: U64,
                                          emergency: U64, plan: RolloverPlan, rollover: Psbt, m: Manifest,
                                          firstAddress: nat, files: Files)
    requires PlanIsFor(config, vaults, controllers, monthly, emergency, m.totalInput, plan, rollover)
    requires Reports(config, vaults, controllers, monthly, emergency, plan, rollover.tx, m)
    requires Parts(config, vaults, controllers, emergency, plan, rollover, m.allowances, firstAddress, monthly,
                   m.emergency, files)
    ensures ValidBatch(config, Batch(m, files))
    ensures forall t :: t in ManifestTransactions(m) ==> EntryReady(config, files, t)
  {
    hide PhoneSignedRollover, RolloverOutputs, RolloverInputs, ManifestTransactions, SignedBy, DefaultSighashes,
         InputsDescribed, ValidStep, ValidRollover, ValidTrigger, ValidWithdrawal, AllBuilt, PhoneSignedChild, IndexRange,
         AllUnder, PlanFor, EntryReady, ValidEmergency, AddressesReplay, MinimalNonDust, P2trVsize, SelectedCount, ChainTotal;
    AssembledRollover(config, vaults, controllers, m, plan, rollover, files);
    AssembledEntries(config, m, plan, rollover, firstAddress, files, vaults, controllers);
    EntriesAreDefault(config, m, files);
  }

  lemma {:induction false} AssembledProposal(config: VaultConfig, vaults: seq<Utxo>, controllers: seq<Utxo>, monthly: U64,
                                             emergency: U64, plan: RolloverPlan, rollover: Psbt, m: Manifest,
                                             firstAddress: nat, files: Files)
    requires PlanIsFor(config, vaults, controllers, monthly, emergency, m.totalInput, plan, rollover)
    requires Reports(config, vaults, controllers, monthly, emergency, plan, rollover.tx, m)
    requires Parts(config, vaults, controllers, emergency, plan, rollover, m.allowances, firstAddress, monthly,
                   m.emergency, files)
    requires forall t :: t in ManifestTransactions(m) ==> EntryReady(config, files, t)
    ensures ProposalFor(config, vaults, controllers, monthly, emergency, firstAddress, Batch(m, files))
  {
    hide PhoneSignedRollover, RolloverOutputs, RolloverInputs, ManifestTransactions, SignedBy, DefaultSighashes,
         InputsDescribed, ValidStep, ValidRollover, ValidTrigger, ValidWithdrawal, AllBuilt, PhoneSignedChild, IndexRange,
         AllUnder, EntryReady, ValidEmergency, AddressesReplay, P2trVsize, SelectedCount, ChainTotal, PhoneSigned,
         RolloverShape;
    InputCount(vaults, controllers);
    PhoneSignedShape(config, rollover.tx, vaults, controllers);
    assert EntryReady(config, files, m.rollover) by {
      assert ManifestTransactions(m)[0] == m.rollover by { FirstEntry(m); }
    }
    AssembledEntries(config, m, plan, rollover, firstAddress, files, vaults, controllers);
    ReadyIsSigned(config, Batch(m, files));
  }

  lemma {:induction false} ReadyIsSigned(config: VaultConfig, batch: Batch)
    requires forall t :: t in ManifestTransactions(batch.manifest) ==> EntryReady(config, batch.files, t)
    requires batch.manifest.rollover.file == RolloverFile
    ensures PhoneSigned(config, batch)
  {
    hide ManifestTransactions, SignedBy, InputsDescribed;
  }

  lemma {:induction false} EntriesAreDefault(config: VaultConfig, m: Manifest, files: Files)
    requires forall t :: t in ManifestTransactions(m) ==> EntryReady(config, files, t)
    ensures forall t :: t in ManifestTransactions(m) ==> t.file in files && DefaultSighashes(files[t.file])
  {
    hide ManifestTransactions;
  }

  lemma {:induction false} ShapeDescribed(config: VaultConfig, p: Psbt, tx: Tx, vaults: seq<Utxo>, controllers: seq<Utxo>)
    requires RolloverShape(config, p, tx, vaults, controllers)
    requires AllUnder(vaults, config.Vault()) && AllUnder(controllers, config.Controller())
    ensures InputsDescribed(p) && DefaultSighashes(p)
  {
  }

  // ----- The builder, in the order of the source -----

  /** What the remainder must keep for the emergency package, with the checks made up front. */
  method EmergencyReserve(config: VaultConfig, emergency: U64, hot: Option<Address>) returns (r: Result<U64>)
    requires hot.Some? <==> emergency > 0
    requires hot.Some? ==> ScriptLength(hot.value.script) == 34
                           && MinimalNonDust(hot.value.script) == P2TR_DUST
    ensures r.Success? <==>
              emergency == 0 || (emergency >= P2TR_DUST && CONNECTOR_VALUE_SATS <= emergency + FINAL_FEE <= MAX_U64)
    ensures r.Success? ==> r.value == MinimumRemainder(emergency)
  {
    var vault := config.Vault();
    var staging: U64 := 0;
    if hot.Some? {
      :- Need(emergency >= MinimalNonDust(hot.value.script), "dust emergency output");
      var withdrawalFee := PairFee(WithdrawalTemplate(NULL_OUTPOINT, NULL_OUTPOINT, emergency, hot.value.script));
      SingleStepFees(TxOut(emergency, hot.value.script), TxOut(0, vault), ConnectorOutput(config.Controller()));
      var funded := CheckedAdd(emergency, withdrawalFee);
      if funded.None? || funded.value < CONNECTOR_VALUE_SATS {
        return Failure("emergency amount overflowed");
      }
      staging := funded.value - CONNECTOR_VALUE_SATS;
    }
    if emergency == 0 {
      return Success(MinimalNonDust(vault));
    }
    var triggerFee := PairFee(TriggerTemplate(NULL_OUTPOINT, NULL_OUTPOINT, staging, MinimalNonDust(vault), vault, config.Controller()));
    SingleStepFees(TxOut(staging, vault), TxOut(MinimalNonDust(vault), vault), ConnectorOutput(config.Controller()));
    return Success(staging + triggerFee + MinimalNonDust(vault));
  }

  lemma {:induction false} PlanBounds(plan: RolloverPlan, vaults: nat, controllers: nat, total: U64, limit: U64, emergency: U64)
    requires PlanFor(plan, vaults, controllers, total, limit, emergency)
    ensures plan.fee <= MAX_U64 && plan.remainder + CONNECTOR_VALUE_SATS * EmergencyOutputs(emergency) <= MAX_U64
    ensures plan.count <= MONTHS_PER_ROLLOVER && (limit == 0 ==> plan.count == 0)
    ensures plan.count > 0 ==> plan.chainValue == ChainTotal(plan.count, limit)
                               && plan.chainValue + CONNECTOR_VALUE_SATS <= MAX_U64
    ensures plan.count == 0 ==> plan.chainValue == 0
    ensures plan.remainder >= MinimumRemainder(emergency)
  {
    hide P2trVsize;
  }

  /** The rollover and its phone signatures, once the plan is fixed. */
  method BuildRollover(config: VaultConfig, vaults: seq<Utxo>, controllers: seq<Utxo>, monthly: U64, emergency: U64,
                       total: U64, plan: RolloverPlan)
    returns (rollover: Psbt)
    requires |vaults| > 0 && AllUnder(vaults, config.Vault()) && AllUnder(controllers, config.Controller())
    requires UtxoSum(vaults) + UtxoSum(controllers) == total
    requires emergency > 0 ==> emergency + FINAL_FEE >= CONNECTOR_VALUE_SATS
    requires PlanFor(plan, |vaults|, |controllers|, total, monthly, emergency)
    ensures PlanIsFor(config, vaults, controllers, monthly, emergency, total, plan, rollover)
    ensures RolloverTop(config, plan, emergency, rollover.tx)
  {
    PlanBounds(plan, |vaults|, |controllers|, total, monthly, emergency);
    var outputs := RolloverOutputs(if plan.count > 0 then Some(plan.chainValue) else None, plan.remainder,
                                   config.Vault(), config.Controller(), emergency > 0);
    var tx := Tx(2, 0, RolloverInputs(vaults, controllers), outputs);
    InputCount(vaults, controllers);
    assert RolloverTop(config, plan, emergency, tx) by { hide PlanFor, UtxoSum, AllUnder, RolloverInputs; }
    hide *;
    rollover := SignRollover(config, tx, vaults, controllers);
    SignedRolloverTx(config, tx, vaults, controllers);
    PlanIsForSigned(config, vaults, controllers, monthly, emergency, total, plan, rollover, tx);
  }

  lemma {:induction false} SignedRolloverTx(config: VaultConfig, tx: Tx, vaults: seq<Utxo>, controllers: seq<Utxo>)
    requires |tx.inputs| == |vaults| + |controllers|
    ensures PhoneSignedRollover(config, tx, vaults, controllers).tx == tx
  {
    PhoneSignedShape(config, tx, vaults, controllers);
    hide PhoneSignedRollover;
  }

  lemma {:induction false} PlanIsForSigned(config: VaultConfig, vaults: seq<Utxo>, controllers: seq<Utxo>, monthly: U64,
                                           emergency: U64, total: U64, plan: RolloverPlan, rollover: Psbt, tx: Tx)
    requires |vaults| > 0 && AllUnder(vaults, config.Vault()) && AllUnder(controllers, config.Controller())
    requires UtxoSum(vaults) + UtxoSum(controllers) == total
    requires emergency > 0 ==> emergency + FINAL_FEE >= CONNECTOR_VALUE_SATS
    requires monthly == 0 ==> plan.count == 0
    requires plan.remainder <= MAX_U64
    requires PlanFor(plan, |vaults|, |controllers|, total, monthly, emergency)
    requires |tx.inputs| == |vaults| + |controllers| && rollover.tx == tx
    requires tx == Tx(2, 0, RolloverInputs(vaults, controllers),
                      RolloverOutputs(if plan.count > 0 then Some(plan.chainValue) else None, plan.remainder,
                                      config.Vault(), config.Controller(), emergency > 0))
    requires rollover == PhoneSignedRollover(config, tx, vaults, controllers)
    ensures PlanIsFor(config, vaults, controllers, monthly, emergency, total, plan, rollover)
  {
    hide AllUnder, UtxoSum, PlanFor, RolloverInputs, RolloverOutputs, PhoneSignedRollover;
  }

  // The rollover outputs that the later steps spend.
  predicate RolloverTop(config: VaultConfig, plan: RolloverPlan, emergency: U64, rollover: Tx) {
    var remainderVout := if plan.count > 0 then 1 else 0;
    && plan.remainder <= MAX_U64
    && |rollover.outputs| > remainderVout
    && rollover.outputs[remainderVout] == TxOut(plan.remainder, config.Vault())
    && (plan.count > 0 ==> rollover.outputs[0] == TxOut(plan.chainValue, config.Vault()))
  }

  lemma {:induction false} ChainSurvivesWrites(config: VaultConfig, limit: U64, count: nat, files: Files, files': Files,
                                               rollover: Tx, allowances: seq<AllowanceStep>, firstAddress: nat)
    requires AllBuilt(config, limit, count, files, rollover, allowances, firstAddress)
    requires forall name :: name in files && name.AuthorizationFile? ==> name in files' && files'[name] == files[name]
    ensures AllBuilt(config, limit, count, files', rollover, allowances, firstAddress)
  {
    hide ValidAuthorization, PhoneSignedChild;
    forall j | 0 <= j < |allowances|
      ensures BuiltStep(config, limit, count, files', rollover, allowances, firstAddress, j)
    {
      assert BuiltStep(config, limit, count, files, rollover, allowances, firstAddress, j);
      if j > 0 {
        assert BuiltStep(config, limit, count, files, rollover, allowances, firstAddress, j - 1);
      }
      assert ParentTx(files', rollover, allowances, j) == ParentTx(files, rollover, allowances, j);
    }
  }

  lemma {:induction false} EmergencySurvivesWrites(config: VaultConfig, limit: U64, remainderVout: U32, connectorVout: U32,
                                                   files: Files, files': Files, rollover: Tx, e: EmergencyPolicy)
    requires ValidEmergency(config, limit, remainderVout, connectorVout, files, rollover, Some(e))
    requires forall name :: name in files ==> name in files' && files'[name] == files[name]
    ensures ValidEmergency(config, limit, remainderVout, connectorVout, files', rollover, Some(e))
  {
    hide ValidTrigger, ValidWithdrawal;
  }

  /** The emergency package, written beside the finished allowance chain. */
  method WithEmergency(config: VaultConfig, emergency: U64, plan: RolloverPlan, rollover: Psbt, monthly: U64,
                       allowances: seq<AllowanceStep>, ghost firstAddress: nat, before: Files, hot: Option<Address>,
                       ghost vaults: seq<Utxo>, ghost controllers: seq<Utxo>)
    returns (r: Result<(Option<EmergencyPolicy>, Files)>)
    requires |allowances| == plan.count && RolloverTop(config, plan, emergency, rollover.tx)
    requires plan.remainder + CONNECTOR_VALUE_SATS * EmergencyOutputs(emergency) <= MAX_U64
    requires plan.remainder >= MinimumRemainder(emergency)
    requires emergency + FINAL_FEE <= MAX_U64 || emergency == 0
    requires RolloverFile in before && before[RolloverFile] == rollover
    requires AllBuilt(config, monthly, plan.count, before, rollover.tx, allowances, firstAddress + EmergencyOutputs(emergency))
    requires hot == if emergency > 0 then Some(ReceiveAddress(config.network, config.phone, firstAddress)) else None
    ensures r.Success? <==> (emergency > 0 ==> emergency + FINAL_FEE >= CONNECTOR_VALUE_SATS + P2TR_DUST)
    ensures r.Success? ==>
              Parts(config, vaults, controllers, emergency, plan, rollover, allowances, firstAddress, monthly,
                    r.value.0, r.value.1)
  {
    hide AllBuilt, ValidTrigger, ValidWithdrawal, PhoneSignedChild;
    if hot.None? {
      return Success((None, before));
    }
    var remainderVout: U32 := if plan.count > 0 then 1 else 0;
    var connectorVout: U32 := remainderVout + 1 + if plan.count > 0 then 1 else 0;
    var package :- BuildEmergencyAccess(config, rollover.tx, remainderVout, connectorVout, emergency, hot.value);
    var (access, trigger, withdrawal) := package;
    var files := before[TriggerFile := trigger][WithdrawalFile := withdrawal];
    ChainSurvivesWrites(config, monthly, plan.count, before, files, rollover.tx, allowances,
                        firstAddress + EmergencyOutputs(emergency));
    EmergencySurvivesWrites(config, emergency, remainderVout, connectorVout,
                            map[TriggerFile := trigger, WithdrawalFile := withdrawal], files, rollover.tx, access);
    return Success((Some(access), files));
  }

  /** `build_policy_proposal_with_connectors`: succeeds under exactly the stated conditions, and
      then the validator accepts its output. Once selection has succeeded and the limit covers the
      connector and dust, no later check can fail. */
  method BuildPolicyProposal(config: VaultConfig, vaults: seq<Utxo>, controllers: seq<Utxo>, monthly: U64, emergency: U64,
                             phone: Key, hot: AddressCursor)
    returns (r: Result<Batch>)
    requires hot.network == config.network && hot.owner == config.phone
    modifies hot`next
    ensures r.Success? <==> Buildable(config, vaults, controllers, monthly, emergency, phone)
    ensures r.Success? ==>
              && ValidBatch(config, r.value)
              && ProposalFor(config, vaults, controllers, monthly, emergency, old(hot.next), r.value)
              && hot.next == old(hot.next) + EmergencyOutputs(emergency) + r.value.manifest.allowanceCount
  {
    hide ValidBatch, ProposalFor, SearchFails, SelectedCount, Required, UtxoSum, AllUnder;
    if |vaults| == 0 {
      return Failure("nothing to roll over");
    }
    :- Need(phone == config.phone, "other phone key");
    :- Need(AllUnder(vaults, config.Vault()), "input outside the vault");
    :- Need(AllUnder(controllers, config.Controller()), "input outside controller");
    var vaultInput :- CheckedInputSum(vaults);
    var controllerInput :- CheckedInputSum(controllers);
    if vaultInput + controllerInput > MAX_U64 {
      return Failure("input total overflowed");
    }
    var total: U64 := vaultInput + controllerInput;
    r := BuildFunded(config, vaults, controllers, monthly, emergency, vaultInput, controllerInput, total, hot);
  }

  method BuildFunded(config: VaultConfig, vaults: seq<Utxo>, controllers: seq<Utxo>, monthly: U64, emergency: U64,
                     vaultInput: U64, controllerInput: U64, total: U64, hot: AddressCursor)
    returns (r: Result<Batch>)
    requires hot.network == config.network && hot.owner == config.phone
    requires |vaults| > 0 && AllUnder(vaults, config.Vault()) && AllUnder(controllers, config.Controller())
    requires vaultInput == UtxoSum(vaults) && controllerInput == UtxoSum(controllers)
    requires total == vaultInput + controllerInput
    modifies hot`next
    ensures r.Success? <==> Buildable(config, vaults, controllers, monthly, emergency, config.phone)
    ensures r.Success? ==>
              && ValidBatch(config, r.value)
              && ProposalFor(config, vaults, controllers, monthly, emergency, old(hot.next), r.value)
              && hot.next == old(hot.next) + EmergencyOutputs(emergency) + r.value.manifest.allowanceCount
  {
    hide PlanFor, AllBuilt, PhoneSignedChild, SearchFails, SelectedCount, Required, UtxoSum, AllUnder, ValidBatch, ProposalFor, Parts,
         PlanIsFor, AddsAuthorizations, Reports, ProposalManifest, ManifestTransactions, IndexRange, RolloverInputs;
    ghost var firstAddress := hot.next;
    var emergencyAddress: Option<Address> := None;
    if emergency > 0 {
      var address := hot.NextReceiveAddress();
      emergencyAddress := Some(address);
    }
    var minimumRemainder :- EmergencyReserve(config, emergency, emergencyAddress);
    :- Need(monthly == 0 || monthly >= MinimalNonDust(config.Vault()), "dust allowance");
    var inputs := RolloverInputs(vaults, controllers);
    RangesPartition(|vaults|, |controllers|);
    RangeLengths(|vaults|, |controllers|);
    assert |inputs| == |vaults| + |controllers| by { InputCount(vaults, controllers); }
    var plan :- PlanRollover(inputs, IndexRange(0, |vaults|), IndexRange(|vaults|, |controllers|), total, monthly, emergency,
                             minimumRemainder, config.Vault(), config.Controller());
    PlanBounds(plan, |vaults|, |controllers|, total, monthly, emergency);
    SelectedByPlan(plan, |vaults|, |controllers|, total, monthly, emergency);
    var rollover := BuildRollover(config, vaults, controllers, monthly, emergency, total, plan);
    var chain :- BuildAllowances(config, monthly, plan.count, rollover.tx, map[RolloverFile := rollover], hot);
    var (allowances, files) := chain;
    RolloverKept(rollover, files, plan.count);
    var package :- WithEmergency(config, emergency, plan, rollover, monthly, allowances, firstAddress, files,
                                 emergencyAddress, vaults, controllers);
    var (access, allFiles) := package;
    var m := ProposalManifest(config, vaults, controllers, monthly, emergency, vaultInput, controllerInput, total, plan,
                              rollover.tx, allowances, access);
    ManifestReports(config, vaults, controllers, monthly, emergency, total, plan, rollover.tx, allowances, access);
    ManifestParts(config, vaults, controllers, monthly, emergency, vaultInput, controllerInput, total, plan, rollover.tx, allowances, access);
    AssembledBatch(config, vaults, controllers, monthly, emergency, plan, rollover, m, firstAddress, allFiles);
    AssembledProposal(config, vaults, controllers, monthly, emergency, plan, rollover, m, firstAddress, allFiles);
    return Success(Batch(m, allFiles));
  }

  lemma {:induction false} ManifestParts(config: VaultConfig, vaults: seq<Utxo>, controllers: seq<Utxo>, monthly: U64, emergency: U64,
                                         vaultInput: U64, controllerInput: U64, total: U64, plan: RolloverPlan, rollover: Tx,
                                         allowances: seq<AllowanceStep>, access: Option<EmergencyPolicy>)
    requires plan.fee <= MAX_U64 && plan.remainder <= MAX_U64
    ensures var m := ProposalManifest(config, vaults, controllers, monthly, emergency, vaultInput, controllerInput, total,
                                      plan, rollover, allowances, access);
            m.allowances == allowances && m.emergency == access && m.totalInput == total && m.allowanceCount == plan.count
  {
  }

  lemma {:induction false} InputCount(vaults: seq<Utxo>, controllers: seq<Utxo>)
    ensures |RolloverInputs(vaults, controllers)| == |vaults| + |controllers|
  {
  }

  lemma {:induction false} SelectedByPlan(plan: RolloverPlan, vaults: nat, controllers: nat, total: U64, limit: U64, emergency: U64)
    requires PlanFor(plan, vaults, controllers, total, limit, emergency)
    ensures plan.count == SelectedCount(vaults, controllers, total, limit, emergency)
  {
  }

  lemma {:induction false} RolloverKept(rollover: Psbt, files: Files, count: nat)
    requires AddsAuthorizations(map[RolloverFile := rollover], files, count)
    ensures RolloverFile in files && files[RolloverFile] == rollover
  {
  }

  // ----- A gap: the single allowance output is never compared with dust -----

  /** The chain output that the rollover itself creates is checked against nothing. It is below
      dust exactly for a single allowance whose limit does not cover the connector and dust; every
      other limit that the builder accepts keeps it above. */
  lemma {:induction false} ChainOutputIsDustExactlyWhen(config: VaultConfig, vaults: seq<Utxo>, controllers: seq<Utxo>,
                                                        monthly: U64, emergency: U64)
    requires Buildable(config, vaults, controllers, monthly, emergency, config.phone)
    ensures var total := UtxoSum(vaults) + UtxoSum(controllers);
            var count := SelectedCount(|vaults|, |controllers|, total, monthly, emergency);
            count > 0 ==>
              (ChainTotal(count, monthly) < P2TR_DUST <==>
               count == 1 && monthly + FINAL_FEE < CONNECTOR_VALUE_SATS + P2TR_DUST)
  {
    var total := UtxoSum(vaults) + UtxoSum(controllers);
    var count := SelectedCount(|vaults|, |controllers|, total, monthly, emergency);
    if count > 0 {
      ChainTotalAtLeast(count, monthly);
    }
  }

  /** Such a proposal exists: one coin of 1,723 sats and a limit of 900. */
  lemma {:induction false} ADustProposal(config: VaultConfig, outpoint: OutPoint)
    ensures var vaults := [Utxo(outpoint, TxOut(1_723, config.Vault()), 1)];
            && Buildable(config, vaults, [], 900, 0, config.phone)
            && SelectedCount(1, 0, 1_723, 900, 0) == 1
            && ChainTotal(1, 900) == 145
  {
    var vaults := [Utxo(outpoint, TxOut(1_723, config.Vault()), 1)];
    assert UtxoSum(vaults) == 1_723 + UtxoSum(vaults[1..]);
    assert P2trVsize(1, 0, 3) == 248;
    assert Required(1, 0, 900, 0, 1) == 248 + 145 + 330 + 1_000;
  }

  // ----- The rollover is known before it is built -----

  /** What the remainder output will hold. */
  function PlannedRemainder(vaults: nat, controllers: nat, total: U64, monthly: U64, emergency: U64): int {
    var count, e := SelectedCount(vaults, controllers, total, monthly, emergency), EmergencyOutputs(emergency);
    if count == 0 then total - P2trVsize(vaults, controllers, 1 + e) - CONNECTOR_VALUE_SATS * e
    else total - P2trVsize(vaults, controllers, 3 + e) - ChainTotal(count, monthly) - CONNECTOR_VALUE_SATS * (1 + e)
  }

  /** The scan and the limits fix the rollover completely: no hot address and no key choice enters. */
  lemma {:induction false} RolloverIsPlanned(config: VaultConfig, vaults: seq<Utxo>, controllers: seq<Utxo>, monthly: U64,
                                             emergency: U64, firstAddress: nat, batch: Batch)
    requires ValidBatch(config, batch)
    requires ProposalFor(config, vaults, controllers, monthly, emergency, firstAddress, batch)
    ensures var m := batch.manifest;
            var count := SelectedCount(|vaults|, |controllers|, m.totalInput, monthly, emergency);
            && m.rollover.file in batch.files && m.totalInput == UtxoSum(vaults) + UtxoSum(controllers)
            && m.allowanceCount == count && (count > 0 ==> m.allowanceValue == ChainTotal(count, monthly))
            && m.remainderValue == PlannedRemainder(|vaults|, |controllers|, m.totalInput, monthly, emergency)
            && batch.files[m.rollover.file].tx
               == Tx(2, 0, RolloverInputs(vaults, controllers),
                     RolloverOutputs(if count > 0 then Some(m.allowanceValue) else None, m.remainderValue, config.Vault(),
                                     config.Controller(), emergency > 0))
  {
    BatchParts(config, batch);
    ProposalFacts(config, vaults, controllers, monthly, emergency, firstAddress, batch);
    hide *;
    ValidRolloverIsPlanned(config, batch.manifest, batch.files[batch.manifest.rollover.file], vaults, controllers, monthly, emergency);
  }

  // What a proposal says about its own rollover.
  ghost predicate PlannedBy(m: Manifest, tx: Tx, vaults: seq<Utxo>, controllers: seq<Utxo>, monthly: U64, emergency: U64) {
    && m.monthlyLimit == monthly && m.emergencyLimit == emergency
    && |m.rollover.vaultIndexes| == |vaults| && |m.rollover.controllerIndexes| == |controllers|
    && m.totalInput == UtxoSum(vaults) + UtxoSum(controllers)
    && m.allowanceCount == SelectedCount(|vaults|, |controllers|, m.totalInput, monthly, emergency)
    && (m.allowanceCount > 0 ==> m.allowanceValue == ChainTotal(m.allowanceCount, monthly))
    && tx.inputs == RolloverInputs(vaults, controllers)
  }

  lemma {:induction false} ProposalFacts(config: VaultConfig, vaults: seq<Utxo>, controllers: seq<Utxo>, monthly: U64, emergency: U64,
                                         firstAddress: nat, batch: Batch)
    requires ProposalFor(config, vaults, controllers, monthly, emergency, firstAddress, batch)
    ensures batch.manifest.rollover.file in batch.files
    ensures PlannedBy(batch.manifest, batch.files[batch.manifest.rollover.file].tx, vaults, controllers, monthly, emergency)
  {
    RangeLengths(|vaults|, |controllers|);
    hide PhoneSigned, AddressesReplay, RolloverShape, RolloverInputs, UtxoSum, SelectedCount, ChainTotal, IndexRange;
  }

  lemma {:induction false} ValidRolloverIsPlanned(config: VaultConfig, m: Manifest, p: Psbt, vaults: seq<Utxo>, controllers: seq<Utxo>,
                                                  monthly: U64, emergency: U64)
    requires ValidRollover(config, m, p) && PlannedBy(m, p.tx, vaults, controllers, monthly, emergency)
    ensures var count := SelectedCount(|vaults|, |controllers|, m.totalInput, monthly, emergency);
            && m.totalInput == UtxoSum(vaults) + UtxoSum(controllers)
            && m.allowanceCount == count && (count > 0 ==> m.allowanceValue == ChainTotal(count, monthly))
            && m.remainderValue == PlannedRemainder(|vaults|, |controllers|, m.totalInput, monthly, emergency)
            && p.tx == Tx(2, 0, RolloverInputs(vaults, controllers),
                          RolloverOutputs(if count > 0 then Some(m.allowanceValue) else None, m.remainderValue, config.Vault(),
                                          config.Controller(), emergency > 0))
  {
    hide RolloverInputs, RolloverOutputs, UtxoSum, SelectedCount, ChainTotal, ValidRolloverInputs, MinimalNonDust, ValidVouts;
    var allowance := if m.allowanceCount > 0 then Some(m.allowanceValue) else None;
    RolloverOutputsTotal(allowance, m.remainderValue, config.Vault(), config.Controller(), emergency > 0);
    VsizeIgnoresAmounts(|vaults|, |controllers|, p.tx.outputs);
    hide P2trVsize, PolicyVsize;
  }

  /** Two proposals from the same scan and limits share their rollover. */
  lemma {:induction false} SameScanSameRollover(config: VaultConfig, vaults: seq<Utxo>, controllers: seq<Utxo>, monthly: U64,
                                                emergency: U64, first: nat, second: nat, a: Batch, b: Batch)
    requires ValidBatch(config, a) && ProposalFor(config, vaults, controllers, monthly, emergency, first, a)
    requires ValidBatch(config, b) && ProposalFor(config, vaults, controllers, monthly, emergency, second, b)
    ensures a.manifest.rollover.file in a.files && b.manifest.rollover.file in b.files
    ensures a.files[a.manifest.rollover.file].tx == b.files[b.manifest.rollover.file].tx
    ensures a.manifest.allowanceCount == b.manifest.allowanceCount == |a.manifest.allowances| == |b.manifest.allowances|
  {
    hide ValidBatch, ProposalFor, RolloverInputs, RolloverOutputs, UtxoSum, SelectedCount, ChainTotal, PlannedRemainder;
    RolloverIsPlanned(config, vaults, controllers, monthly, emergency, first, a);
    RolloverIsPlanned(config, vaults, controllers, monthly, emergency, second, b);
    AllowanceLength(config, a);
    AllowanceLength(config, b);
  }

  lemma {:induction false} AllowanceLength(config: VaultConfig, batch: Batch)
    requires ValidBatch(config, batch)
    ensures |batch.manifest.allowances| == batch.manifest.allowanceCount
  {
    BatchParts(config, batch);
    hide ValidBatch;
  }

  /** When their hot addresses start at different places, they differ in every authorization. */
  lemma {:induction false} DifferentAddressesDiffer(config: VaultConfig, vaults: seq<Utxo>, controllers: seq<Utxo>, monthly: U64,
                                                    emergency: U64, first: nat, second: nat, a: Batch, b: Batch, k: nat)
    requires ValidBatch(config, a) && ProposalFor(config, vaults, controllers, monthly, emergency, first, a)
    requires ValidBatch(config, b) && ProposalFor(config, vaults, controllers, monthly, emergency, second, b)
    requires first != second && k < |a.manifest.allowances| && k < |b.manifest.allowances|
    ensures a.manifest.allowances[k].authorization.file in a.files && b.manifest.allowances[k].authorization.file in b.files
    ensures a.files[a.manifest.allowances[k].authorization.file].tx != b.files[b.manifest.allowances[k].authorization.file].tx
  {
    EmergencyAlike(config, vaults, controllers, monthly, emergency, first, second, a, b);
    hide ValidBatch, ProposalFor;
    ReplayedScript(config, vaults, controllers, monthly, emergency, first, a, k);
    ReplayedScript(config, vaults, controllers, monthly, emergency, second, b, k);
  }

  // Where authorization k pays: the k-th address after the emergency address.
  lemma {:induction false} ReplayedScript(config: VaultConfig, vaults: seq<Utxo>, controllers: seq<Utxo>, monthly: U64,
                                          emergency: U64, first: nat, batch: Batch, k: nat)
    requires ValidBatch(config, batch) && ProposalFor(config, vaults, controllers, monthly, emergency, first, batch)
    requires k < |batch.manifest.allowances|
    ensures var m := batch.manifest;
            && m.allowances[k].authorization.file in batch.files
            && var tx := batch.files[m.allowances[k].authorization.file].tx;
            && |tx.outputs| > 0
            && tx.outputs[0].script
               == ReceiveAddress(config.network, config.phone, first + (if m.emergency.Some? then 1 else 0) + k).script
  {
    hide ValidBatch, ProposalFor, ValidStep;
    var m := batch.manifest;
    StepAt(config, batch, k);
    Replays(config, vaults, controllers, monthly, emergency, first, batch);
    StepPaysAddress(config, m.monthlyLimit, m.allowanceCount, batch.files, batch.files[m.rollover.file].tx, m.allowances, k);
  }

  lemma {:induction false} Replays(config: VaultConfig, vaults: seq<Utxo>, controllers: seq<Utxo>, monthly: U64,
                                   emergency: U64, first: nat, batch: Batch)
    requires ProposalFor(config, vaults, controllers, monthly, emergency, first, batch)
    ensures AddressesReplay(config, first, batch.manifest)
  {
    hide PhoneSigned, RolloverShape, SelectedCount, ChainTotal, UtxoSum, IndexRange, AddressesReplay;
  }

  lemma {:induction false} EmergencyAlike(config: VaultConfig, vaults: seq<Utxo>, controllers: seq<Utxo>, monthly: U64,
                                          emergency: U64, first: nat, second: nat, a: Batch, b: Batch)
    requires ValidBatch(config, a) && ProposalFor(config, vaults, controllers, monthly, emergency, first, a)
    requires ValidBatch(config, b) && ProposalFor(config, vaults, controllers, monthly, emergency, second, b)
    ensures a.manifest.emergency.Some? <==> b.manifest.emergency.Some?
  {
    BatchParts(config, a);
    BatchParts(config, b);
    hide ValidBatch, ValidStep, ValidRollover, PhoneSigned, ManifestTransactions, RolloverShape, ValidTrigger, ValidWithdrawal,
         ValidHeader, AddressesReplay, UtxoSum, SelectedCount, ChainTotal, IndexRange, ValidEmergencyMetadata;
  }

  // The first output of an accepted authorization pays the address that its step names.
  lemma {:induction false} StepPaysAddress(config: VaultConfig, limit: U64, count: nat, files: Files, rollover: Tx,
                                           allowances: seq<AllowanceStep>, k: nat)
    requires k < |allowances| && ValidStep(config, limit, count, files, rollover, allowances, k)
    ensures allowances[k].authorization.file in files
    ensures var tx := files[allowances[k].authorization.file].tx;
            |tx.outputs| > 0 && tx.outputs[0].script == allowances[k].hotAddress.script
  {
    hide ValidChild, PolicyVsize, MinimalNonDust;
  }
}
