/** Vault sweeps: maturity, fees, and the package that both devices sign (src/core/recovery.rs). */
module Sweep {
  import opened Wrappers
  import opened Bitcoin
  import opened Fees
  import opened Psbts
  import opened Ceremony
  import opened Builder
  import opened Proposal

  function Delay(path: SpendPath): Option<nat> {
    match path
    case Cooperative => None
    case PhoneRecovery => Some(PHONE_RECOVERY_BLOCKS)
    case HwwRecovery => Some(HWW_RECOVERY_BLOCKS)
  }

  function PathSequence(path: SpendPath): U32 {
    match path
    case Cooperative => SEQUENCE_MAX
    case PhoneRecovery => PHONE_RECOVERY_BLOCKS
    case HwwRecovery => HWW_RECOVERY_BLOCKS
  }

  function SaturatingAdd(a: nat, b: nat): U64 {
    if a + b <= MAX_U64 then a + b else MAX_U64
  }

  // ----- Maturity -----

  predicate Mature(u: Utxo, path: SpendPath, tip: U64) {
    Delay(path).None? || SaturatingAdd(u.confirmationHeight, Delay(path).value) <= SaturatingAdd(tip, 1)
  }

  /** `mature_utxos`. */
  function MatureUtxos(utxos: seq<Utxo>, path: SpendPath, tip: U64): seq<Utxo> {
    if utxos == [] then []
    else (if Mature(utxos[0], path, tip) then [utxos[0]] else []) + MatureUtxos(utxos[1..], path, tip)
  }

  // The positions of the mature outputs, counted from `from`.
  ghost function MaturePositions(utxos: seq<Utxo>, path: SpendPath, tip: U64, from: nat): seq<nat>
    requires from <= |utxos|
    decreases |utxos| - from
  {
    if from == |utxos| then []
    else (if Mature(utxos[from], path, tip) then [from] else []) + MaturePositions(utxos, path, tip, from + 1)
  }

  lemma {:induction false} PositionsAreMature(utxos: seq<Utxo>, path: SpendPath, tip: U64, from: nat)
    requires from <= |utxos|
    ensures var p := MaturePositions(utxos, path, tip, from);
            var m := MatureUtxos(utxos[from..], path, tip);
            && |p| == |m|
            && (forall i :: 0 <= i < |p| ==> from <= p[i] < |utxos| && m[i] == utxos[p[i]])
            && (forall i, j :: 0 <= i < j < |p| ==> p[i] < p[j])
            && (forall k :: from <= k < |utxos| ==> (k in p <==> Mature(utxos[k], path, tip)))
    decreases |utxos| - from
  {
    hide Mature;
    if from < |utxos| {
      PositionsAreMature(utxos, path, tip, from + 1);
      assert utxos[from..][1..] == utxos[from + 1..];
      assert utxos[from..][0] == utxos[from];
    }
  }

  /** The filter keeps exactly the mature outputs, each once and in their original order. */
  lemma {:induction false} MatureIsExact(utxos: seq<Utxo>, path: SpendPath, tip: U64) returns (positions: seq<nat>)
    ensures |positions| == |MatureUtxos(utxos, path, tip)|
    ensures forall i :: 0 <= i < |positions| ==>
              positions[i] < |utxos| && MatureUtxos(utxos, path, tip)[i] == utxos[positions[i]]
    ensures forall i, j :: 0 <= i < j < |positions| ==> positions[i] < positions[j]
    ensures forall k :: 0 <= k < |utxos| ==> (k in positions <==> Mature(utxos[k], path, tip))
  {
    PositionsAreMature(utxos, path, tip, 0);
    assert utxos[0..] == utxos;
    positions := MaturePositions(utxos, path, tip, 0);
  }

  /** The test is the plain comparison of heights exactly until the tip's own successor saturates;
      from then on it lets every output through. */
  lemma {:induction false} MaturityIsExactBelowSaturation(u: Utxo, path: SpendPath, tip: U64)
    ensures tip + 1 < MAX_U64 ==>
              (Mature(u, path, tip) <==> Delay(path).None? || u.confirmationHeight + Delay(path).value <= tip + 1)
    ensures tip + 1 >= MAX_U64 ==> Mature(u, path, tip)
  {
  }

  /** A later tip never loses an output, and what the hardware wallet may sweep the phone may too. */
  lemma {:induction false} MaturityIsMonotone(utxos: seq<Utxo>, path: SpendPath, tip: U64, later: U64, u: Utxo)
    requires tip <= later
    ensures u in MatureUtxos(utxos, path, tip) ==> u in MatureUtxos(utxos, path, later)
    ensures u in MatureUtxos(utxos, HwwRecovery, tip) ==> u in MatureUtxos(utxos, PhoneRecovery, tip)
    ensures |MatureUtxos(utxos, path, tip)| <= |MatureUtxos(utxos, path, later)|
  {
    if utxos != [] {
      MaturityIsMonotone(utxos[1..], path, tip, later, u);
    }
  }

  /** The tips at which only the phone may sweep an output: 4,335 of them, all consecutive. */
  lemma {:induction false} PhoneOnlyWindow(u: Utxo, tip: U64)
    requires u.confirmationHeight + HWW_RECOVERY_BLOCKS < MAX_U64
    ensures Mature(u, PhoneRecovery, tip) && !Mature(u, HwwRecovery, tip)
       <==> u.confirmationHeight + 61_199 <= tip < u.confirmationHeight + 61_199 + 4_335
  {
  }

  // ----- The sweep transaction -----

  function VaultPsbt(tx: Tx, prevouts: seq<TxOut>, vault: Script): Psbt {
    Psbt(tx, seq(|prevouts|, i requires 0 <= i < |prevouts| => FreshInput(prevouts[i], vault)))
  }

  /** `create_vault_psbt`. */
  method CreateVaultPsbt(tx: Tx, prevouts: seq<TxOut>, vault: Script) returns (r: Result<Psbt>)
    ensures r.Success? <==> |tx.inputs| == |prevouts| && forall i :: 0 <= i < |prevouts| ==> prevouts[i].script == vault
    ensures r.Success? ==> r.value == VaultPsbt(tx, prevouts, vault)
  {
    if |tx.inputs| != |prevouts| {
      return Failure("counts differ");
    }
    var inputs: seq<PsbtInput> := [];
    for i := 0 to |prevouts|
      invariant |inputs| == i
      invariant forall k :: 0 <= k < i ==> prevouts[k].script == vault && inputs[k] == FreshInput(prevouts[k], vault)
    {
      if prevouts[i].script != vault {
        return Failure("descriptor does not match");
      }
      inputs := inputs + [FreshInput(prevouts[i], vault)];
    }
    assert inputs == VaultPsbt(tx, prevouts, vault).inputs;
    return Success(Psbt(tx, inputs));
  }

  function SweepTx(utxos: seq<Utxo>, path: SpendPath, sent: U64, destination: Script): Tx {
    Tx(2, 0, SpendAll(utxos, PathSequence(path)), [TxOut(sent, destination)])
  }

  function SweepFee(path: SpendPath, inputs: nat, destination: Script): nat {
    VaultVsize(path, inputs, [TxOut(0, destination)])
  }

  lemma {:induction false} SweepFeeIgnoresAmount(path: SpendPath, inputs: nat, sent: U64, destination: Script)
    ensures VaultVsize(path, inputs, [TxOut(sent, destination)]) == SweepFee(path, inputs, destination)
  {
    assert [TxOut(sent, destination)][1..] == [] && [TxOut(0, destination)][1..] == [];
  }

  /** The outputs lie under the vault script and cover the fee. */
  predicate Sweepable(vault: Script, utxos: seq<Utxo>, path: SpendPath, destination: Script) {
    && UtxoSum(utxos) <= MAX_U64 && AllUnder(utxos, vault)
    && UtxoSum(utxos) >= SweepFee(path, |utxos|, destination)
  }

  /** One transaction that sends all but the fee: what is sent and the fee add up to the inputs. */
  predicate SweepsAll(vault: Script, utxos: seq<Utxo>, path: SpendPath, destination: Script, psbt: Psbt, fee: nat, sent: U64) {
    && sent + fee == UtxoSum(utxos) && fee == SweepFee(path, |utxos|, destination)
    && psbt == VaultPsbt(SweepTx(utxos, path, sent, destination), Outputs(utxos), vault)
  }

  /** `build_sweep_psbt`: everything but the fee goes to one output. */
  method BuildSweepPsbt(vault: Script, utxos: seq<Utxo>, path: SpendPath, destination: Script)
    returns (r: Result<(Psbt, nat, U64)>)
    ensures r.Success? <==> Sweepable(vault, utxos, path, destination)
    ensures r.Success? ==> SweepsAll(vault, utxos, path, destination, r.value.0, r.value.1, r.value.2)
  {
    hide AllUnder, UtxoSum;
    var input :- CheckedInputSum(utxos);
    var transaction := SweepTx(utxos, path, input, destination);
    var fee := EstimateVaultVsize(transaction, path);
    SweepFeeIgnoresAmount(path, |utxos|, input, destination);
    if input < fee {
      return Failure("cannot pay the sweep fee");
    }
    var sent: U64 := input - fee;
    transaction := transaction.(outputs := transaction.outputs[0 := transaction.outputs[0].(value := sent)]);
    assert transaction == SweepTx(utxos, path, sent, destination);
    UnderOutputs(utxos, vault);
    var psbt :- CreateVaultPsbt(transaction, Outputs(utxos), vault);
    return Success((psbt, fee, sent));
  }

  lemma {:induction false} UnderOutputs(utxos: seq<Utxo>, vault: Script)
    ensures AllUnder(utxos, vault) <==> forall i :: 0 <= i < |Outputs(utxos)| ==> Outputs(utxos)[i].script == vault
    ensures |Outputs(utxos)| == |utxos|
  {
    if forall i :: 0 <= i < |Outputs(utxos)| ==> Outputs(utxos)[i].script == vault {
      forall i | 0 <= i < |utxos|
        ensures utxos[i].txout.script == vault
      {
        assert Outputs(utxos)[i].script == vault;
      }
    }
  }

  /** `prepare_sweep`: sweeps exactly the mature outputs. */
  method PrepareSweep(config: VaultConfig, utxos: seq<Utxo>, tip: U64, path: SpendPath, destination: Script)
    returns (r: Result<(Psbt, nat, U64)>)
    ensures var mature := MatureUtxos(utxos, path, tip);
            && (r.Success? <==> mature != [] && Sweepable(config.Vault(), mature, path, destination))
            && (r.Success? ==>
                  SweepsAll(config.Vault(), mature, path, destination, r.value.0, r.value.1, r.value.2))
  {
    hide Sweepable, SweepsAll;
    var mature := MatureUtxos(utxos, path, tip);
    if mature == [] {
      return Failure("no mature UTXOs");
    }
    r := BuildSweepPsbt(config.Vault(), mature, path, destination);
  }

  // ----- The cooperative package -----

  datatype SweepPackage = SweepPackage(
    vaultDescriptor: Script,
    destination: Address,
    psbt: Psbt,
    inputCount: nat,
    sent: U64,
    fee: nat,
    phoneApproved: bool,
    hwwApproved: bool)

  /** `create_cooperative_sweep`. */
  method CreateCooperativeSweep(config: VaultConfig, utxos: seq<Utxo>, destination: Address, phone: Key)
    returns (r: Result<SweepPackage>)
    ensures r.Success? <==>
              && utxos != [] && Sweepable(config.Vault(), utxos, Cooperative, destination.script)
              && (phone == config.phone || phone == config.hww)
    ensures r.Success? ==> IsSweepOf(config, utxos, destination, phone, r.value)
  {
    if utxos == [] {
      return Failure("nothing to sweep");
    }
    hide AllUnder, UtxoSum, SweepFee, VaultPsbt, CanSign;
    var built :- BuildSweepPsbt(config.Vault(), utxos, Cooperative, destination.script);
    var (psbt, fee, sent) := built;
    VaultPsbtCanSign(config, SweepTx(utxos, Cooperative, sent, destination.script), utxos, phone);
    var signed :- SignInputs(psbt, phone, CooperativeLeaf(config), IndexRange(0, |psbt.inputs|));
    return Success(SweepPackage(config.Vault(), destination, signed, |utxos|, sent, fee, true, false));
  }

  ghost predicate IsSweepOf(config: VaultConfig, utxos: seq<Utxo>, destination: Address, phone: Key, s: SweepPackage) {
    var unsigned := VaultPsbt(SweepTx(utxos, Cooperative, s.sent, destination.script), Outputs(utxos), config.Vault());
    && s.vaultDescriptor == config.Vault() && s.destination == destination
    && s.inputCount == |utxos| && s.sent + s.fee == UtxoSum(utxos)
    && s.fee == SweepFee(Cooperative, |utxos|, destination.script)
    && s.phoneApproved && !s.hwwApproved
    && HasPrevouts(unsigned)
    && s.psbt == Signed(unsigned, phone, CooperativeLeaf(config), IndexRange(0, |utxos|))
  }

  lemma {:induction false} VaultPsbtCanSign(config: VaultConfig, tx: Tx, utxos: seq<Utxo>, phone: Key)
    requires |tx.inputs| == |utxos| > 0
    ensures var p := VaultPsbt(tx, Outputs(utxos), config.Vault());
            && HasPrevouts(p) && DefaultSighashes(p) && |p.inputs| == |utxos|
            && ((forall k :: 0 <= k < |IndexRange(0, |utxos|)| ==>
                   CanSign(p, phone, CooperativeLeaf(config), IndexRange(0, |utxos|)[k]))
                <==> phone == config.phone || phone == config.hww)
  {
    var p := VaultPsbt(tx, Outputs(utxos), config.Vault());
    assert IndexRange(0, |utxos|)[0] == 0;
    assert CanSign(p, phone, CooperativeLeaf(config), 0) <==> phone == config.phone || phone == config.hww;
  }

  /** The sum of the recorded previous outputs. */
  function PrevoutSum(inputs: seq<PsbtInput>): nat
    requires forall i :: 0 <= i < |inputs| ==> inputs[i].utxo.Some?
  {
    if inputs == [] then 0 else inputs[0].utxo.value.value + PrevoutSum(inputs[1..])
  }

  /** The packages that `validate_cooperative_sweep` accepts. */
  ghost predicate ValidSweep(config: VaultConfig, s: SweepPackage) {
    var tx := s.psbt.tx;
    && s.phoneApproved && s.vaultDescriptor == config.Vault() && s.destination.network == config.network
    && |tx.inputs| == |s.psbt.inputs| == s.inputCount > 0
    && (forall i :: 0 <= i < |tx.inputs| ==> tx.inputs[i].sequence == SEQUENCE_MAX)
    && tx.outputs == [TxOut(s.sent, s.destination.script)]
    && (forall i :: 0 <= i < |s.psbt.inputs| ==>
          s.psbt.inputs[i].utxo.Some? && s.psbt.inputs[i].utxo.value.script == config.Vault())
    && PrevoutSum(s.psbt.inputs) <= MAX_U64
    && PrevoutSum(s.psbt.inputs) == s.sent + s.fee
    && s.fee == VaultVsize(Cooperative, |tx.inputs|, tx.outputs)
  }

  /** `validate_cooperative_sweep`. */
  method ValidateCooperativeSweep(config: VaultConfig, s: SweepPackage) returns (ok: bool)
    ensures ok <==> ValidSweep(config, s)
  {
    var tx := s.psbt.tx;
    if !s.phoneApproved || s.vaultDescriptor != config.Vault() || s.destination.network != config.network
       || |tx.inputs| != s.inputCount || |s.psbt.inputs| != s.inputCount || |tx.inputs| == 0
       || |tx.outputs| != 1 || tx.outputs[0].script != s.destination.script || tx.outputs[0].value != s.sent
    {
      return false;
    }
    for i := 0 to |tx.inputs|
      invariant forall k :: 0 <= k < i ==> tx.inputs[k].sequence == SEQUENCE_MAX
    {
      if tx.inputs[i].sequence != SEQUENCE_MAX {
        return false;
      }
    }
    var input := VaultInputSum(config, s.psbt.inputs);
    if input.Failure? || input.value < s.sent {
      return false;
    }
    var expected := EstimateVaultVsize(tx, Cooperative);
    return input.value - s.sent == s.fee && s.fee == expected;
  }

  method VaultInputSum(config: VaultConfig, inputs: seq<PsbtInput>) returns (r: Result<U64>)
    ensures r.Success? ==>
              && (forall i :: 0 <= i < |inputs| ==> inputs[i].utxo.Some? && inputs[i].utxo.value.script == config.Vault())
              && r.value == PrevoutSum(inputs)
    ensures r.Failure? ==>
              !(&& (forall i :: 0 <= i < |inputs| ==> inputs[i].utxo.Some? && inputs[i].utxo.value.script == config.Vault())
                && PrevoutSum(inputs) <= MAX_U64)
  {
    var sum: U64 := 0;
    for i := 0 to |inputs|
      invariant forall k :: 0 <= k < i ==> inputs[k].utxo.Some? && inputs[k].utxo.value.script == config.Vault()
      invariant (forall k :: 0 <= k < |inputs| ==> inputs[k].utxo.Some?) ==> PrevoutSum(inputs) == sum + PrevoutSum(inputs[i..])
    {
      if inputs[i].utxo.None? || inputs[i].utxo.value.script != config.Vault() {
        return Failure("input outside the vault");
      }
      assert inputs[i..][1..] == inputs[i + 1..];
      var next := CheckedAdd(sum, inputs[i].utxo.value.value);
      if next.None? {
        return Failure("input sum overflowed");
      }
      sum := next.value;
    }
    return Success(sum);
  }

  lemma {:induction false} PrevoutSumIsUtxoSum(inputs: seq<PsbtInput>, utxos: seq<Utxo>)
    requires |inputs| == |utxos|
    requires forall i :: 0 <= i < |inputs| ==> inputs[i].utxo == Some(utxos[i].txout)
    ensures PrevoutSum(inputs) == UtxoSum(utxos)
  {
    if inputs != [] {
      PrevoutSumIsUtxoSum(inputs[1..], utxos[1..]);
    }
  }

  lemma {:induction false} SweepInputs(config: VaultConfig, utxos: seq<Utxo>, destination: Address, phone: Key, s: SweepPackage)
    requires IsSweepOf(config, utxos, destination, phone, s)
    ensures s.psbt.tx == SweepTx(utxos, Cooperative, s.sent, destination.script) && |s.psbt.inputs| == |utxos|
    ensures forall i :: 0 <= i < |utxos| ==> s.psbt.inputs[i].utxo == Some(utxos[i].txout)
    ensures DefaultSighashes(s.psbt) && HasPrevouts(s.psbt)
  {
    var unsigned := VaultPsbt(SweepTx(utxos, Cooperative, s.sent, destination.script), Outputs(utxos), config.Vault());
    SigningPreserves(unsigned, phone, CooperativeLeaf(config), IndexRange(0, |utxos|));
    assert DefaultSighashes(unsigned);
  }

  /** Every created package is accepted by the validator, given that the destination is on the
      vault's network, and only then. */
  lemma {:induction false} CreatedSweepIsValid(config: VaultConfig, utxos: seq<Utxo>, destination: Address, phone: Key, s: SweepPackage)
    requires utxos != [] && UtxoSum(utxos) <= MAX_U64 && AllUnder(utxos, config.Vault())
    requires IsSweepOf(config, utxos, destination, phone, s)
    ensures ValidSweep(config, s) <==> destination.network == config.network
  {
    SweepInputs(config, utxos, destination, phone, s);
    PrevoutSumIsUtxoSum(s.psbt.inputs, utxos);
    SweepFeeIgnoresAmount(Cooperative, |utxos|, s.sent, destination.script);
    hide IsSweepOf, VaultVsize, UtxoSum, PrevoutSum;
  }

  /** Both signatures on every input, as `finalize_cooperative_sweep` demands. */
  ghost predicate FullySigned(config: VaultConfig, s: SweepPackage) {
    && s.phoneApproved && s.hwwApproved && ValidSweep(config, s) && DefaultSighashes(s.psbt)
    && forall k :: 0 <= k < |s.psbt.inputs| ==>
         && SignedBy(s.psbt, config.phone, CooperativeLeaf(config), k)
         && SignedBy(s.psbt, config.hww, CooperativeLeaf(config), k)
         && CanFinalize(s.psbt, k)
  }

  /** The hardware wallet's half: its signature on every input, and its mark. */
  function HwwSweep(config: VaultConfig, s: SweepPackage): SweepPackage
    requires HasPrevouts(s.psbt)
  {
    s.(psbt := Signed(s.psbt, config.hww, CooperativeLeaf(config), IndexRange(0, |s.psbt.inputs|)), hwwApproved := true)
  }

  /** Signed by the hardware wallet, a created package is still accepted, and it can be finalized. */
  lemma {:induction false} SignedSweepFinalizes(config: VaultConfig, utxos: seq<Utxo>, destination: Address, s: SweepPackage)
    requires utxos != [] && UtxoSum(utxos) <= MAX_U64 && AllUnder(utxos, config.Vault())
    requires IsSweepOf(config, utxos, destination, config.phone, s) && destination.network == config.network
    ensures HasPrevouts(s.psbt) && FullySigned(config, HwwSweep(config, s))
    ensures HwwSweep(config, s).psbt.tx == s.psbt.tx
  {
    CreatedSweepIsValid(config, utxos, destination, config.phone, s);
    SweepInputs(config, utxos, destination, config.phone, s);
    var unsigned := VaultPsbt(SweepTx(utxos, Cooperative, s.sent, destination.script), Outputs(utxos), config.Vault());
    var range := IndexRange(0, |utxos|);
    RangeMembers(0, |utxos|);
    SigningPreserves(unsigned, config.phone, CooperativeLeaf(config), range);
    SigningPreserves(s.psbt, config.hww, CooperativeLeaf(config), range);
    var q := HwwSweep(config, s);
    PrevoutSumSame(s.psbt.inputs, q.psbt.inputs);
    forall k | 0 <= k < |q.psbt.inputs|
      ensures SignedBy(q.psbt, config.phone, CooperativeLeaf(config), k)
      ensures SignedBy(q.psbt, config.hww, CooperativeLeaf(config), k)
      ensures CanFinalize(q.psbt, k)
    {
      hide Signed, HasPrevouts, ValidSweep;
      assert k in range;
      assert q.psbt.inputs[k].scripts == unsigned.inputs[k].scripts == Leaves(config.Vault());
    }
    hide Signed, VaultVsize;
  }

  lemma {:induction false} PrevoutSumSame(a: seq<PsbtInput>, b: seq<PsbtInput>)
    requires |a| == |b|
    requires forall i :: 0 <= i < |a| ==> a[i].utxo.Some? && b[i].utxo == a[i].utxo
    ensures PrevoutSum(a) == PrevoutSum(b)
  {
    if a != [] {
      PrevoutSumSame(a[1..], b[1..]);
    }
  }

  /** The checks of `finalize_cooperative_sweep`. */
  method FinalizeCooperativeSweep(config: VaultConfig, s: SweepPackage) returns (ok: bool)
    ensures ok <==> FullySigned(config, s)
  {
    hide ValidSweep, SignedBy, CanFinalize, DefaultSighashes;
    if !s.phoneApproved || !s.hwwApproved {
      return false;
    }
    ok := ValidateCooperativeSweep(config, s);
    if !ok {
      return;
    }
    var indexes := IndexRange(0, |s.psbt.inputs|);
    ok := VerifySignatures(s.psbt, config.phone, CooperativeLeaf(config), indexes);
    if !ok {
      return;
    }
    ok := VerifySignatures(s.psbt, config.hww, CooperativeLeaf(config), indexes);
    if !ok {
      return;
    }
    SweepPrevouts(config, s);
    var finalized := FinalizeVaultPsbt(s.psbt);
    if finalized.Failure? {
      return false;
    }
    forall k | 0 <= k < |s.psbt.inputs|
      ensures SignedBy(s.psbt, config.phone, CooperativeLeaf(config), k)
      ensures SignedBy(s.psbt, config.hww, CooperativeLeaf(config), k)
    {
      assert indexes[k] == k;
    }
    return true;
  }

  /** An accepted sweep package says nothing that its PSBT, the configuration and its marks do not say:
      what is sent is the one output, and the rest of the recorded inputs is the fee, at one satoshi per
      vbyte. */
  lemma {:induction false} SweepIsDetermined(config: VaultConfig, a: SweepPackage, b: SweepPackage)
    requires ValidSweep(config, a) && ValidSweep(config, b) && a.psbt == b.psbt && a.hwwApproved == b.hwwApproved
    ensures a == b
  {
    assert a.psbt.tx.outputs[0] == TxOut(a.sent, a.destination.script) && b.psbt.tx.outputs[0] == TxOut(b.sent, b.destination.script);
    hide VaultVsize, PrevoutSum;
  }

  lemma {:induction false} AcceptedSweepPays(config: VaultConfig, s: SweepPackage)
    requires ValidSweep(config, s) && |s.psbt.inputs| < 0xFD && ScriptLength(s.destination.script) == 34
    ensures s.psbt.tx.outputs == [TxOut(s.sent, s.destination.script)]
    ensures PrevoutSum(s.psbt.inputs) == s.sent + (432 * |s.psbt.inputs| + 217) / 4
    ensures s.phoneApproved && forall i :: 0 <= i < |s.psbt.tx.inputs| ==>
              RelativeSeconds(2, s.psbt.tx.inputs[i].sequence) == 0 && RelativeBlocks(2, s.psbt.tx.inputs[i].sequence) == 0
  {
    SweepSizes(|s.psbt.inputs|, TxOut(s.sent, s.destination.script));
    hide VaultVsize, PrevoutSum;
  }

  lemma {:induction false} SweepPrevouts(config: VaultConfig, s: SweepPackage)
    requires ValidSweep(config, s)
    ensures HasPrevouts(s.psbt)
  {
  }

  /** What the hardware wallet demands of a sweep before it signs. */
  ghost predicate SweepApprovable(config: VaultConfig, hww: Key, s: SweepPackage) {
    && ValidSweep(config, s) && DefaultSighashes(s.psbt) && hww == config.hww
    && forall k :: 0 <= k < |s.psbt.inputs| ==>
         && SignedBy(s.psbt, config.phone, CooperativeLeaf(config), k)
         && CanSign(s.psbt, config.hww, CooperativeLeaf(config), k)
  }

  /** `approve_cooperative_sweep_for_config`. */
  method ApproveSweep(config: VaultConfig, hww: Key, s: SweepPackage) returns (r: Result<SweepPackage>)
    ensures r.Success? <==> SweepApprovable(config, hww, s)
    ensures r.Success? ==> HasPrevouts(s.psbt) && r.value == HwwSweep(config, s)
  {
    hide SignedBy, CanSign, DefaultSighashes, Signed;
    var valid := ValidateCooperativeSweep(config, s);
    if !valid {
      return Failure("invalid sweep");
    }
    var indexes := IndexRange(0, |s.psbt.inputs|);
    assert forall k :: 0 <= k < |indexes| ==> indexes[k] == k;
    assert HasPrevouts(s.psbt);
    hide ValidSweep, IndexRange;
    var phoneSigned := VerifySignatures(s.psbt, config.phone, CooperativeLeaf(config), indexes);
    AllOfRange(config, s.psbt, config.phone, indexes);
    if !phoneSigned || hww != config.hww {
      return Failure("no phone signature, or other HWW");
    }
    var signed := SignInputs(s.psbt, hww, CooperativeLeaf(config), indexes);
    AllOfRange(config, s.psbt, config.hww, indexes);
    if signed.Failure? {
      return Failure("key not authorized");
    }
    return Success(s.(psbt := signed.value, hwwApproved := true));
  }

  lemma {:induction false} AllOfRange(config: VaultConfig, p: Psbt, key: Key, indexes: seq<nat>)
    requires |indexes| == |p.inputs| && forall k :: 0 <= k < |indexes| ==> indexes[k] == k
    ensures (forall k :: 0 <= k < |indexes| ==> SignedBy(p, key, CooperativeLeaf(config), indexes[k]))
       <==> (forall k :: 0 <= k < |p.inputs| ==> SignedBy(p, key, CooperativeLeaf(config), k))
    ensures (forall k :: 0 <= k < |indexes| ==> CanSign(p, key, CooperativeLeaf(config), indexes[k]))
       <==> (forall k :: 0 <= k < |p.inputs| ==> CanSign(p, key, CooperativeLeaf(config), k))
  {
    hide SignedBy, CanSign;
    if forall k :: 0 <= k < |indexes| ==> SignedBy(p, key, CooperativeLeaf(config), indexes[k]) {
      forall k | 0 <= k < |p.inputs|
        ensures SignedBy(p, key, CooperativeLeaf(config), k)
      {
        assert indexes[k] == k;
      }
    }
    if forall k :: 0 <= k < |indexes| ==> CanSign(p, key, CooperativeLeaf(config), indexes[k]) {
      forall k | 0 <= k < |p.inputs|
        ensures CanSign(p, key, CooperativeLeaf(config), k)
      {
        assert indexes[k] == k;
      }
    }
  }

  /** What the hardware wallet signs can be finalized exactly when every input lists the cooperative leaf,
      which is not among the things that it checks. */
  lemma {:induction false} ApprovedSweepFinalizes(config: VaultConfig, s: SweepPackage)
    requires SweepApprovable(config, config.hww, s)
    ensures HasPrevouts(s.psbt)
    ensures FullySigned(config, HwwSweep(config, s))
       <==> forall k :: 0 <= k < |s.psbt.inputs| ==> ListsLeaf(s.psbt, k, CooperativeLeaf(config))
  {
    SweepPrevouts(config, s);
    var q := HwwSweep(config, s);
    SignedSweepIsValidStill(config, s);
    forall k | 0 <= k < |q.psbt.inputs|
      ensures SignedBy(q.psbt, config.phone, CooperativeLeaf(config), k) && SignedBy(q.psbt, config.hww, CooperativeLeaf(config), k)
      ensures CanFinalize(q.psbt, k) <==> ListsLeaf(s.psbt, k, CooperativeLeaf(config))
    {
      ApprovedSweepInput(config, s, k);
    }
    hide Signed, SignedBy, CanFinalize, ListsLeaf, DefaultSighashes, ValidSweep, CanSign;
  }

  lemma {:induction false} SignedSweepIsValidStill(config: VaultConfig, s: SweepPackage)
    requires SweepApprovable(config, config.hww, s) && HasPrevouts(s.psbt)
    ensures var q := HwwSweep(config, s);
            ValidSweep(config, q) && DefaultSighashes(q.psbt) && |q.psbt.inputs| == |s.psbt.inputs|
  {
    SigningPreserves(s.psbt, config.hww, CooperativeLeaf(config), IndexRange(0, |s.psbt.inputs|));
    PrevoutSumSame(s.psbt.inputs, HwwSweep(config, s).psbt.inputs);
    hide Signed, VaultVsize, SignedBy, CanSign;
  }

  lemma {:induction false} ApprovedSweepInput(config: VaultConfig, s: SweepPackage, k: nat)
    requires SweepApprovable(config, config.hww, s) && HasPrevouts(s.psbt) && k < |s.psbt.inputs|
    ensures var q := HwwSweep(config, s).psbt;
            && SignedBy(q, config.phone, CooperativeLeaf(config), k) && SignedBy(q, config.hww, CooperativeLeaf(config), k)
            && (CanFinalize(q, k) <==> ListsLeaf(s.psbt, k, CooperativeLeaf(config)))
  {
    var q := HwwSweep(config, s).psbt;
    RangeMembers(0, |s.psbt.inputs|);
    SigningPreserves(s.psbt, config.hww, CooperativeLeaf(config), IndexRange(0, |s.psbt.inputs|));
    hide Signed, SignedBy, CanSign, IndexRange, VaultVsize, PrevoutSum;
    assert s.psbt.tx.inputs[k].sequence == SEQUENCE_MAX;
    assert ListsLeaf(q, k, CooperativeLeaf(config)) == ListsLeaf(s.psbt, k, CooperativeLeaf(config));
    CooperativeFinalizes(q, config.phone, config.hww, k);
    hide CanFinalize;
  }

  /** The hardware wallet never refuses a sweep that the configured phone created for it. */
  lemma {:induction false} CreatedSweepIsApprovable(config: VaultConfig, utxos: seq<Utxo>, destination: Address, s: SweepPackage)
    requires utxos != [] && UtxoSum(utxos) <= MAX_U64 && AllUnder(utxos, config.Vault())
    requires IsSweepOf(config, utxos, destination, config.phone, s) && destination.network == config.network
    ensures SweepApprovable(config, config.hww, s)
  {
    CreatedSweepIsValid(config, utxos, destination, config.phone, s);
    SweepInputs(config, utxos, destination, config.phone, s);
    var unsigned := VaultPsbt(SweepTx(utxos, Cooperative, s.sent, destination.script), Outputs(utxos), config.Vault());
    RangeMembers(0, |utxos|);
    SigningPreserves(unsigned, config.phone, CooperativeLeaf(config), IndexRange(0, |utxos|));
    forall k | 0 <= k < |s.psbt.inputs|
      ensures SignedBy(s.psbt, config.phone, CooperativeLeaf(config), k)
      ensures CanSign(s.psbt, config.hww, CooperativeLeaf(config), k)
    {
      assert k in IndexRange(0, |utxos|);
      assert s.psbt.inputs[k].origins == unsigned.inputs[k].origins == Origins(config.Vault());
    }
    hide ValidSweep, Signed;
  }
}
