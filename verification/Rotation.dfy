/** Building and checking a phone-key rotation (src/hot_wallet/rotation.rs, src/core/recovery.rs). */
module Rotation {
  import opened Wrappers
  import opened Bitcoin
  import opened Fees
  import opened Psbts
  import opened Ceremony
  import opened HotAddresses
  import opened Selection
  import opened Proposal
  import opened ColdSigner
  import opened Conservation
  import opened Sweep

  /** A backup names the phone key that it restores. */
  datatype Backup = Backup(phone: Key)

  datatype RotationPackage = RotationPackage(
    oldVault: Script,
    newPhone: Key,
    newVault: Script,
    newVaultAddress: Address,
    monthlyLimit: U64,
    emergencyLimit: U64,
    sweep: SweepPackage,
    renewed: Option<Batch>,
    backup: Option<Backup>)

  /** `rotated_config`: only the phone's key changes. */
  function RotatedConfig(config: VaultConfig, newPhone: Key): VaultConfig {
    config.(phone := newPhone)
  }

  function NewVaultAddress(config: VaultConfig, newPhone: Key): Address {
    Address(config.network, VaultScript(newPhone, config.hww))
  }

  predicate HasPolicy(config: VaultConfig) {
    config.monthlyLimit > 0 || config.emergencyLimit > 0
  }

  /** The output that the sweep will create, seen as if it were already on the chain. */
  function SweptOutput(s: SweepPackage): Utxo
    requires |s.psbt.tx.outputs| > 0
  {
    Utxo(OutPoint(TxidOf(s.psbt.tx), 0), s.psbt.tx.outputs[0], 0)
  }

  /** `build_renewed_policy`. */
  method BuildRenewedPolicy(config: VaultConfig, newPhone: Key, s: SweepPackage) returns (r: Result<Batch>)
    requires |s.psbt.tx.outputs| > 0
    ensures var newConfig := RotatedConfig(config, newPhone);
            && (r.Success? <==> Buildable(newConfig, [SweptOutput(s)], [], config.monthlyLimit, config.emergencyLimit, newPhone))
            && (r.Success? ==>
                  && ValidBatch(newConfig, r.value)
                  && ProposalFor(newConfig, [SweptOutput(s)], [], config.monthlyLimit, config.emergencyLimit, 0, r.value))
  {
    hide ValidBatch, ProposalFor, Buildable;
    var newConfig := RotatedConfig(config, newPhone);
    var addresses := new AddressCursor.Ephemeral(newConfig.network, newPhone);
    r := BuildPolicyProposal(newConfig, [SweptOutput(s)], [], config.monthlyLimit, config.emergencyLimit, newPhone, addresses);
  }

  predicate SweepPossible(config: VaultConfig, utxos: seq<Utxo>, destination: Script) {
    utxos != [] && Sweepable(config.Vault(), utxos, Cooperative, destination)
  }

  /** What a built package is: a sweep of the whole vault to the new vault, and, when a policy is
      active, a proposal for the new vault that spends the sweep's output. */
  ghost predicate IsRotation(config: VaultConfig, utxos: seq<Utxo>, newPhone: Key, p: RotationPackage) {
    && p.oldVault == config.Vault() && p.newPhone == newPhone
    && p.newVault == VaultScript(newPhone, config.hww) && p.newVaultAddress == NewVaultAddress(config, newPhone)
    && p.monthlyLimit == config.monthlyLimit && p.emergencyLimit == config.emergencyLimit
    && p.backup == None
    && SweepPossible(config, utxos, p.newVault)
    && IsSweepOf(config, utxos, p.newVaultAddress, config.phone, p.sweep)
    && (p.renewed.Some? <==> HasPolicy(config))
    && |p.sweep.psbt.tx.outputs| > 0
    && (p.renewed.Some? ==>
          && ValidBatch(RotatedConfig(config, newPhone), p.renewed.value)
          && ProposalFor(RotatedConfig(config, newPhone), [SweptOutput(p.sweep)], [], config.monthlyLimit,
                         config.emergencyLimit, 0, p.renewed.value))
  }

  /** `build_phone_rotation`, with the phone key that the configuration names. */
  method BuildPhoneRotation(config: VaultConfig, utxos: seq<Utxo>, newPhone: Key) returns (r: Result<RotationPackage>)
    ensures r.Success? ==> IsRotation(config, utxos, newPhone, r.value)
    ensures r.Success? <==>
              && SweepPossible(config, utxos, VaultScript(newPhone, config.hww))
              && (HasPolicy(config) ==> RenewalPossible(config, utxos, newPhone))
  {
    hide ValidBatch, ProposalFor, Buildable, UtxoSum, AllUnder, SweepFee, RenewalPossible, IsSweepOf;
    var destination := NewVaultAddress(config, newPhone);
    var sweep :- CreateCooperativeSweep(config, utxos, destination, config.phone);
    SweepInputs(config, utxos, destination, config.phone, sweep);
    var renewed: Option<Batch> := None;
    if HasPolicy(config) {
      var batch := BuildRenewedPolicy(config, newPhone, sweep);
      RenewalDependsOnValue(config, utxos, newPhone, sweep);
      if batch.Failure? {
        return Failure(batch.error);
      }
      renewed := Some(batch.value);
    }
    return Success(RotationPackage(config.Vault(), newPhone, destination.script, destination, config.monthlyLimit,
                                   config.emergencyLimit, sweep, renewed, None));
  }

  /** The new vault can carry the old limits out of what the sweep leaves. */
  predicate RenewalPossible(config: VaultConfig, utxos: seq<Utxo>, newPhone: Key) {
    var vault := VaultScript(newPhone, config.hww);
    var sent := UtxoSum(utxos) - SweepFee(Cooperative, |utxos|, vault);
    && 0 <= sent <= MAX_U64
    && Buildable(RotatedConfig(config, newPhone), [Utxo(NULL_OUTPOINT, TxOut(sent, vault), 0)], [],
                 config.monthlyLimit, config.emergencyLimit, newPhone)
  }

  lemma {:induction false} BuildableIgnoresOutpoints(config: VaultConfig, u: Utxo, v: Utxo, monthly: U64, emergency: U64, phone: Key)
    requires u.txout == v.txout
    ensures Buildable(config, [u], [], monthly, emergency, phone) <==> Buildable(config, [v], [], monthly, emergency, phone)
  {
    assert [u][1..] == [] && [v][1..] == [];
    assert UtxoSum([u]) == u.txout.value == UtxoSum([v]);
    assert AllUnder([u], config.Vault()) == (u.txout.script == config.Vault()) == AllUnder([v], config.Vault());
    hide SearchFails, SelectedCount, Required, UtxoSum, AllUnder;
  }

  lemma {:induction false} RenewalDependsOnValue(config: VaultConfig, utxos: seq<Utxo>, newPhone: Key, s: SweepPackage)
    requires IsSweepOf(config, utxos, NewVaultAddress(config, newPhone), config.phone, s)
    requires s.psbt.tx == SweepTx(utxos, Cooperative, s.sent, VaultScript(newPhone, config.hww))
    ensures Buildable(RotatedConfig(config, newPhone), [SweptOutput(s)], [], config.monthlyLimit, config.emergencyLimit, newPhone)
       <==> RenewalPossible(config, utxos, newPhone)
  {
    hide Buildable, UtxoSum, SweepFee, IsSweepOf;
    SentIsRest(config, utxos, NewVaultAddress(config, newPhone), config.phone, s);
    var vault := VaultScript(newPhone, config.hww);
    BuildableIgnoresOutpoints(RotatedConfig(config, newPhone), SweptOutput(s), Utxo(NULL_OUTPOINT, TxOut(s.sent, vault), 0),
                              config.monthlyLimit, config.emergencyLimit, newPhone);
  }

  lemma {:induction false} SentIsRest(config: VaultConfig, utxos: seq<Utxo>, destination: Address, phone: Key, s: SweepPackage)
    requires IsSweepOf(config, utxos, destination, phone, s)
    ensures s.sent + s.fee == UtxoSum(utxos) && s.fee == SweepFee(Cooperative, |utxos|, destination.script)
  {
  }

  // ----- Validation -----

  /** `validate_rotation_policy_binding`: the renewed rollover spends the sweep's output, alone. */
  predicate BoundToSweep(config: VaultConfig, newPhone: Key, s: SweepPackage, renewed: Batch) {
    var newConfig, m := RotatedConfig(config, newPhone), renewed.manifest;
    && m.phoneApproved && m.vaultDescriptor == newConfig.Vault() && m.vaultAddress == newConfig.Vault()
    && m.monthlyLimit == config.monthlyLimit && m.emergencyLimit == config.emergencyLimit
    && |s.psbt.tx.outputs| > 0
    && m.rollover.file in renewed.files
    && var rollover := renewed.files[m.rollover.file];
    && |rollover.tx.inputs| == 1 && |rollover.inputs| == 1
    && rollover.tx.inputs[0].prevout == OutPoint(TxidOf(s.psbt.tx), 0)
    && rollover.inputs[0].utxo == Some(s.psbt.tx.outputs[0])
  }

  /** The packages that `validate_phone_rotation` accepts, with this pending key. */
  ghost predicate ValidRotation(config: VaultConfig, pending: Option<Key>, p: RotationPackage) {
    && p.oldVault == config.Vault() && p.sweep.vaultDescriptor == config.Vault()
    && p.sweep.destination == p.newVaultAddress
    && p.monthlyLimit == config.monthlyLimit && p.emergencyLimit == config.emergencyLimit
    && pending == Some(p.newPhone)
    && p.newVault == VaultScript(p.newPhone, config.hww) && p.newVaultAddress == NewVaultAddress(config, p.newPhone)
    && ValidSweep(config, p.sweep)
    && (p.renewed.Some? <==> HasPolicy(config))
    && (p.renewed.Some? ==> BoundToSweep(config, p.newPhone, p.sweep, p.renewed.value))
  }

  /** `validate_phone_rotation`. */
  method ValidatePhoneRotation(config: VaultConfig, pending: Option<Key>, p: RotationPackage) returns (ok: bool)
    ensures ok <==> ValidRotation(config, pending, p)
  {
    hide ValidSweep;
    if p.oldVault != config.Vault() || p.sweep.vaultDescriptor != config.Vault() || p.sweep.destination != p.newVaultAddress
       || p.monthlyLimit != config.monthlyLimit || p.emergencyLimit != config.emergencyLimit
    {
      return false;
    }
    if pending != Some(p.newPhone) || p.newVault != VaultScript(p.newPhone, config.hww)
       || p.newVaultAddress != NewVaultAddress(config, p.newPhone)
    {
      return false;
    }
    ok := ValidateCooperativeSweep(config, p.sweep);
    if !ok {
      return;
    }
    match p.renewed {
      case None => return !HasPolicy(config);
      case Some(renewed) => return HasPolicy(config) && BoundToSweep(config, p.newPhone, p.sweep, renewed);
    }
  }

  /** The manifest's hot addresses are the first ones of a fresh wallet, the emergency address first. */
  predicate ReplaysFrom(network: Network, owner: Key, m: Manifest) {
    var skip := if m.emergency.Some? then 1 else 0;
    && (m.emergency.Some? ==> m.emergency.value.hotAddress == ReceiveAddress(network, owner, 0))
    && forall k :: 0 <= k < |m.allowances| ==> m.allowances[k].hotAddress == ReceiveAddress(network, owner, skip + k)
  }

  /** Draws one address after the other from a fresh cursor. */
  method ReplayAddresses(addresses: AddressCursor, m: Manifest) returns (ok: bool)
    requires addresses.next == 0
    modifies addresses`next
    ensures ok <==> ReplaysFrom(addresses.network, addresses.owner, m)
  {
    ghost var skip := if m.emergency.Some? then 1 else 0;
    if m.emergency.Some? {
      var address := addresses.NextReceiveAddress();
      if address != m.emergency.value.hotAddress {
        return false;
      }
    }
    for k := 0 to |m.allowances|
      invariant addresses.next == skip + k
      invariant m.emergency.Some? ==> m.emergency.value.hotAddress == ReceiveAddress(addresses.network, addresses.owner, 0)
      invariant forall j :: 0 <= j < k ==>
                  m.allowances[j].hotAddress == ReceiveAddress(addresses.network, addresses.owner, skip + j)
    {
      var address := addresses.NextReceiveAddress();
      if address != m.allowances[k].hotAddress {
        assert m.allowances[k].hotAddress != ReceiveAddress(addresses.network, addresses.owner, skip + k);
        return false;
      }
    }
    return true;
  }

  /** `validate_rotation_hot_addresses`: replays the new phone's addresses from the start. */
  method ValidateRotationHotAddresses(config: VaultConfig, newPhone: Key, m: Manifest) returns (ok: bool)
    ensures ok <==> AddressesReplay(RotatedConfig(config, newPhone), 0, m)
  {
    var addresses := new AddressCursor.Ephemeral(config.network, newPhone);
    ok := ReplayAddresses(addresses, m);
  }

  /** The addresses of a rotation, in the order in which it hands them out: for the hot balance, for the
      revoked connectors, for the emergency, and one for each allowance. */
  function RotationAddresses(config: VaultConfig, newPhone: Key, m: Manifest): seq<Address> {
    [ChangeAddress(config.network, newPhone, 0), ChangeAddress(config.network, newPhone, 1)]
    + (if m.emergency.Some? then [m.emergency.value.hotAddress] else [])
    + seq(|m.allowances|, k requires 0 <= k < |m.allowances| => m.allowances[k].hotAddress)
  }

  /** No address is used twice when the replay is accepted. */
  lemma {:induction false} AddressesAreUsedOnce(config: VaultConfig, newPhone: Key, m: Manifest)
    requires AddressesReplay(RotatedConfig(config, newPhone), 0, m)
    ensures var a := RotationAddresses(config, newPhone, m); forall i, j :: 0 <= i < j < |a| ==> a[i] != a[j]
  {
    var a := RotationAddresses(config, newPhone, m);
    var skip := if m.emergency.Some? then 1 else 0;
    assert forall i :: 2 <= i < |a| ==> a[i] == ReceiveAddress(config.network, newPhone, i - 2);
  }

  // ----- Composition -----

  lemma {:induction false} ProposalIsBound(config: VaultConfig, newPhone: Key, s: SweepPackage, batch: Batch)
    requires |s.psbt.tx.outputs| > 0 && s.psbt.tx.outputs[0].script == VaultScript(newPhone, config.hww)
    requires ValidBatch(RotatedConfig(config, newPhone), batch)
    requires ProposalFor(RotatedConfig(config, newPhone), [SweptOutput(s)], [], config.monthlyLimit, config.emergencyLimit, 0, batch)
    ensures BoundToSweep(config, newPhone, s, batch)
    ensures AddressesReplay(RotatedConfig(config, newPhone), 0, batch.manifest)
  {
    BatchParts(RotatedConfig(config, newPhone), batch);
    hide ValidBatch, ValidStep, ValidEmergency, ValidRollover, PhoneSigned, ManifestTransactions, SelectedCount, ChainTotal;
    assert RolloverInputs([SweptOutput(s)], [])[0].prevout == SweptOutput(s).outpoint;
  }

  /** Approval keeps a renewed policy bound to its sweep, and its addresses replay as before. */
  lemma {:induction false} ApprovalKeepsBinding(config: VaultConfig, newPhone: Key, s: SweepPackage, s': SweepPackage,
                                                before: Batch, after: Batch)
    requires BoundToSweep(config, newPhone, s, before) && s'.psbt.tx == s.psbt.tx
    requires ValidBatch(RotatedConfig(config, newPhone), before) && HwwSigned(RotatedConfig(config, newPhone), before, after)
    ensures BoundToSweep(config, newPhone, s', after)
    ensures AddressesReplay(RotatedConfig(config, newPhone), 0, after.manifest)
       <==> AddressesReplay(RotatedConfig(config, newPhone), 0, before.manifest)
  {
    hide ValidBatch, ManifestTransactions, HwwSigned, DefaultSighashes;
    AllEntriesListed(before.manifest);
    ApprovedEntry(RotatedConfig(config, newPhone), before, after, before.manifest.rollover);
    ApprovedManifest(RotatedConfig(config, newPhone), before, after);
  }

  lemma {:induction false} ApprovedManifest(config: VaultConfig, before: Batch, after: Batch)
    requires HwwSigned(config, before, after)
    ensures after.manifest == before.manifest.(hwwApproved := true)
  {
  }

  /** The package as the hardware wallet returns it: both halves signed, and a backup added. */
  ghost predicate ApprovedRotation(config: VaultConfig, p: RotationPackage, q: RotationPackage) {
    && HasPrevouts(p.sweep.psbt)
    && q == p.(sweep := HwwSweep(config, p.sweep), renewed := q.renewed, backup := Some(Backup(p.newPhone)))
    && (q.renewed.Some? <==> p.renewed.Some?)
    && (p.renewed.Some? ==> HwwSigned(RotatedConfig(config, p.newPhone), p.renewed.value, q.renewed.value))
  }

  /** What activation demands of a package before it writes anything. */
  ghost predicate Activatable(config: VaultConfig, pending: Option<Key>, p: RotationPackage) {
    && ValidRotation(config, pending, p) && p.backup.Some? && p.sweep.hwwApproved
    && (p.renewed.Some? ==>
          && ValidApproved(RotatedConfig(config, p.newPhone), p.renewed.value)
          && BoundToSweep(config, p.newPhone, p.sweep, p.renewed.value)
          && AddressesReplay(RotatedConfig(config, p.newPhone), 0, p.renewed.value.manifest))
  }

  lemma {:induction false} BuiltSweep(config: VaultConfig, utxos: seq<Utxo>, newPhone: Key, p: RotationPackage)
    requires IsRotation(config, utxos, newPhone, p)
    ensures ValidSweep(config, p.sweep) && HasPrevouts(p.sweep.psbt)
    ensures FullySigned(config, HwwSweep(config, p.sweep)) && HwwSweep(config, p.sweep).psbt.tx == p.sweep.psbt.tx
    ensures p.sweep.psbt.tx.outputs == [TxOut(p.sweep.sent, p.newVault)]
    ensures p.sweep.sent + p.sweep.fee == UtxoSum(utxos)
    ensures p.sweep.vaultDescriptor == config.Vault() && p.sweep.destination == p.newVaultAddress
  {
    hide ValidBatch, ProposalFor;
    SweepInputs(config, utxos, p.newVaultAddress, config.phone, p.sweep);
    CreatedSweepIsValid(config, utxos, p.newVaultAddress, config.phone, p.sweep);
    SignedSweepFinalizes(config, utxos, p.newVaultAddress, p.sweep);
    SentIsRest(config, utxos, p.newVaultAddress, config.phone, p.sweep);
    hide ValidSweep, FullySigned, HasPrevouts, UtxoSum, AllUnder, SweepFee, IsSweepOf, VaultPsbt;
  }

  /** Rotation composes. A built package passes the phone's and the hardware wallet's validation.
      After approval it passes again, and all that activation checks before its first write holds:
      the sweep is fully signed, the renewed policy is approved, chained to the sweep, and its hot
      addresses replay from a fresh cursor of the new phone. */
  lemma {:induction false} RotationComposes(config: VaultConfig, utxos: seq<Utxo>, newPhone: Key, p: RotationPackage, q: RotationPackage)
    requires IsRotation(config, utxos, newPhone, p)
    ensures ValidRotation(config, Some(newPhone), p)
    ensures p.renewed.Some? ==> Approvable(RotatedConfig(config, newPhone), p.renewed.value, config.hww)
    ensures ApprovedRotation(config, p, q) ==> Activatable(config, Some(newPhone), q) && FullySigned(config, q.sweep)
  {
    hide ValidSweep, FullySigned, HasPrevouts, UtxoSum, AllUnder, SweepFee, IsSweepOf, ValidBatch, ProposalFor, Approvable,
         BoundToSweep, AddressesReplay, ValidApproved, HwwSigned;
    BuiltSweep(config, utxos, newPhone, p);
    if p.renewed.Some? {
      RenewedComposes(config, utxos, newPhone, p);
      if ApprovedRotation(config, p, q) {
        RenewedApproved(config, newPhone, p, q);
      }
    }
    SignedSweepIsValid(config, q.sweep);
  }

  lemma {:induction false} SignedSweepIsValid(config: VaultConfig, s: SweepPackage)
    ensures FullySigned(config, s) ==> ValidSweep(config, s) && s.hwwApproved && s.vaultDescriptor == config.Vault()
  {
  }

  lemma {:induction false} RenewedComposes(config: VaultConfig, utxos: seq<Utxo>, newPhone: Key, p: RotationPackage)
    requires IsRotation(config, utxos, newPhone, p) && p.renewed.Some?
    ensures BoundToSweep(config, newPhone, p.sweep, p.renewed.value)
    ensures AddressesReplay(RotatedConfig(config, newPhone), 0, p.renewed.value.manifest)
    ensures Approvable(RotatedConfig(config, newPhone), p.renewed.value, config.hww)
    ensures forall after :: HwwSigned(RotatedConfig(config, newPhone), p.renewed.value, after) ==>
              ValidApproved(RotatedConfig(config, newPhone), after)
  {
    BuiltSweep(config, utxos, newPhone, p);
    var newConfig, batch := RotatedConfig(config, newPhone), p.renewed.value;
    ProposalIsBound(config, newPhone, p.sweep, batch);
    hide ValidBatch, ProposalFor, ValidSweep, FullySigned, BoundToSweep, AddressesReplay, Approvable, ValidApproved, HwwSigned,
         UtxoSum, AllUnder, SweepFee, IsSweepOf;
    ProposalIsApproved(newConfig, [SweptOutput(p.sweep)], [], config.monthlyLimit, config.emergencyLimit, 0, batch, batch);
    forall after | HwwSigned(newConfig, batch, after)
      ensures ValidApproved(newConfig, after)
    {
      ProposalIsApproved(newConfig, [SweptOutput(p.sweep)], [], config.monthlyLimit, config.emergencyLimit, 0, batch, after);
    }
  }

  lemma {:induction false} RenewedApproved(config: VaultConfig, newPhone: Key, p: RotationPackage, q: RotationPackage)
    requires ApprovedRotation(config, p, q) && p.renewed.Some? && p.newPhone == newPhone
    requires ValidBatch(RotatedConfig(config, newPhone), p.renewed.value)
    requires BoundToSweep(config, newPhone, p.sweep, p.renewed.value)
    requires AddressesReplay(RotatedConfig(config, newPhone), 0, p.renewed.value.manifest)
    requires forall after :: HwwSigned(RotatedConfig(config, newPhone), p.renewed.value, after) ==>
               ValidApproved(RotatedConfig(config, newPhone), after)
    requires q.sweep.psbt.tx == p.sweep.psbt.tx
    ensures q.renewed.Some? && ValidApproved(RotatedConfig(config, newPhone), q.renewed.value)
    ensures BoundToSweep(config, newPhone, q.sweep, q.renewed.value)
    ensures AddressesReplay(RotatedConfig(config, newPhone), 0, q.renewed.value.manifest)
  {
    ApprovalKeepsBinding(config, newPhone, p.sweep, q.sweep, p.renewed.value, q.renewed.value);
    hide ValidBatch, BoundToSweep, AddressesReplay, ValidApproved, HwwSigned;
  }

  /** Nothing is lost in a rotation: the old vault's balance is the new allowance chain, remainder
      and connectors, and the fees of the sweep and the rollover. */
  lemma {:induction false} RotationBalances(config: VaultConfig, utxos: seq<Utxo>, newPhone: Key, p: RotationPackage)
    requires IsRotation(config, utxos, newPhone, p) && p.renewed.Some?
    ensures var m := p.renewed.value.manifest;
            && UtxoSum(utxos) == p.sweep.fee + m.rollover.fee
                                 + (if m.allowanceCount > 0 then m.allowanceValue + CONNECTOR_VALUE_SATS else 0)
                                 + m.remainderValue + (if m.emergencyLimit > 0 then CONNECTOR_VALUE_SATS else 0)
            && UtxoSum(utxos) == p.sweep.fee + m.allowanceCount * config.monthlyLimit + ColdValue(m)
                                 + FeeTotal(ManifestTransactions(m))
  {
    BuiltSweep(config, utxos, newPhone, p);
    var newConfig, batch := RotatedConfig(config, newPhone), p.renewed.value;
    RenewedTotal(config, newPhone, p.sweep, batch);
    BatchParts(newConfig, batch);
    hide ValidBatch, ProposalFor, ValidSweep, FullySigned, UtxoSum, AllUnder, SweepFee, IsSweepOf, ValidRollover, ValidStep,
         ValidEmergency, ManifestTransactions;
    RolloverBalance(newConfig, batch.manifest, batch.files[batch.manifest.rollover.file]);
    BatchConserves(newConfig, batch);
  }

  lemma {:induction false} RenewedTotal(config: VaultConfig, newPhone: Key, s: SweepPackage, batch: Batch)
    requires |s.psbt.tx.outputs| > 0
    requires ProposalFor(RotatedConfig(config, newPhone), [SweptOutput(s)], [], config.monthlyLimit, config.emergencyLimit, 0, batch)
    ensures batch.manifest.totalInput == s.psbt.tx.outputs[0].value
    ensures batch.manifest.monthlyLimit == config.monthlyLimit && batch.manifest.emergencyLimit == config.emergencyLimit
  {
    hide PhoneSigned, SelectedCount, RolloverShape, AddressesReplay, ChainTotal;
    assert [SweptOutput(s)][1..] == [];
    assert UtxoSum([SweptOutput(s)]) == SweptOutput(s).txout.value;
  }

  /** An accepted package says nothing of its own besides the sweep, the renewal and the backup. */
  lemma {:induction false} PackageIsDetermined(config: VaultConfig, pending: Option<Key>, p: RotationPackage, q: RotationPackage)
    requires ValidRotation(config, pending, p) && ValidRotation(config, pending, q)
    requires p.sweep == q.sweep && p.renewed == q.renewed && p.backup == q.backup
    ensures p == q
    ensures p.sweep.destination == Address(config.network, VaultScript(p.newPhone, config.hww)) && p.sweep.vaultDescriptor == config.Vault()
    ensures p.monthlyLimit == config.monthlyLimit && p.emergencyLimit == config.emergencyLimit && pending == Some(p.newPhone)
  {
    hide ValidSweep;
  }

  /** An accepted renewal spends the sweep's output and nothing else, so the new batch is worth exactly what
      the sweep sends; it keeps the old limits, and there is one exactly when there was a policy. */
  lemma {:induction false} RenewalSpendsSweep(config: VaultConfig, pending: Option<Key>, p: RotationPackage)
    requires ValidRotation(config, pending, p)
    ensures p.renewed.Some? <==> config.monthlyLimit > 0 || config.emergencyLimit > 0
    ensures p.renewed.Some? && ValidBatch(RotatedConfig(config, p.newPhone), p.renewed.value) ==>
              var m := p.renewed.value.manifest;
              var rollover := p.renewed.value.files[m.rollover.file].tx;
              && m.monthlyLimit == config.monthlyLimit && m.emergencyLimit == config.emergencyLimit && m.phoneApproved
              && m.totalInput == p.sweep.sent && |rollover.inputs| == 1
              && rollover.inputs[0].prevout == OutPoint(TxidOf(p.sweep.psbt.tx), 0)
  {
    if p.renewed.Some? && ValidBatch(RotatedConfig(config, p.newPhone), p.renewed.value) {
      var m, files := p.renewed.value.manifest, p.renewed.value.files;
      BatchParts(RotatedConfig(config, p.newPhone), p.renewed.value);
      SweepSends(config, p.sweep);
      hide ValidBatch, ValidStep, ValidEmergency, ManifestTransactions, ValidHeader, ValidSweep, ValidRollover;
      OneInputTotal(RotatedConfig(config, p.newPhone), m, files[m.rollover.file]);
    }
    hide ValidBatch, ValidSweep;
  }

  lemma {:induction false} SweepSends(config: VaultConfig, s: SweepPackage)
    requires ValidSweep(config, s)
    ensures |s.psbt.tx.outputs| == 1 && s.psbt.tx.outputs[0].value == s.sent
  {
  }

  lemma {:induction false} OneInputTotal(config: VaultConfig, m: Manifest, p: Psbt)
    requires ValidRollover(config, m, p) && |p.inputs| == 1
    ensures p.inputs[0].utxo.Some? && m.totalInput == p.inputs[0].utxo.value.value
  {
    PartitionIsExact(1, m.rollover.vaultIndexes, m.rollover.controllerIndexes);
    var both: seq<int> := m.rollover.vaultIndexes + m.rollover.controllerIndexes;
    hide PolicyVsize, ValidRolloverOutputs;
    assert |multiset(both)| == |both| && |multiset(Identity(1))| == |Identity(1)|;
    assert both[0] in multiset(both);
    assert m.rollover.vaultIndexes == [] || m.rollover.vaultIndexes[1..] == [];
    assert m.rollover.controllerIndexes == [] || m.rollover.controllerIndexes[1..] == [];
  }

  /** The checks at the head of `activate_phone_rotation`. */
  method CheckActivatable(config: VaultConfig, pending: Option<Key>, p: RotationPackage) returns (ok: bool)
    ensures ok <==> Activatable(config, pending, p)
  {
    hide ValidRotation, ValidApproved, BoundToSweep, AddressesReplay;
    ok := ValidatePhoneRotation(config, pending, p);
    if !ok || p.backup.None? || !p.sweep.hwwApproved {
      return false;
    }
    if p.renewed.Some? {
      var approved := ValidateApprovedBatch(RotatedConfig(config, p.newPhone), p.renewed.value);
      if approved.Failure? || !BoundToSweep(config, p.newPhone, p.sweep, p.renewed.value) {
        return false;
      }
      ok := ValidateRotationHotAddresses(config, p.newPhone, p.renewed.value.manifest);
    }
  }

  /** `approve_phone_rotation`: the hardware wallet signs the sweep and then the renewed policy, and
      adds a backup of the new phone. */
  method ApprovePhoneRotation(config: VaultConfig, pending: Option<Key>, hww: Key, p: RotationPackage)
    returns (r: Result<RotationPackage>)
    ensures r.Success? <==>
              && ValidRotation(config, pending, p) && SweepApprovable(config, hww, p.sweep)
              && (p.renewed.Some? ==> Approvable(RotatedConfig(config, p.newPhone), p.renewed.value, hww))
    ensures r.Success? ==> ApprovedRotation(config, p, r.value)
  {
    hide ValidRotation, SweepApprovable, Approvable, HwwSigned, HasPrevouts;
    var valid := ValidatePhoneRotation(config, pending, p);
    if !valid {
      return Failure("package of another vault");
    }
    var sweep :- ApproveSweep(config, hww, p.sweep);
    var renewed: Option<Batch> := None;
    if p.renewed.Some? {
      var workspace := new Directory(p.renewed.value);
      var approved := workspace.Approve(RotatedConfig(config, p.newPhone), hww);
      if !approved {
        return Failure("renewal not approved");
      }
      renewed := Some(Batch(workspace.manifest, workspace.files));
    }
    return Success(p.(sweep := sweep, renewed := renewed, backup := Some(Backup(p.newPhone))));
  }

  /** The whole ceremony: a package that the phone builds is approved by the hardware wallet, and
      what comes back can be activated. */
  lemma {:induction false} BuiltRotationIsApproved(config: VaultConfig, utxos: seq<Utxo>, newPhone: Key, p: RotationPackage)
    requires IsRotation(config, utxos, newPhone, p)
    ensures ValidRotation(config, Some(newPhone), p) && SweepApprovable(config, config.hww, p.sweep)
    ensures p.renewed.Some? ==> Approvable(RotatedConfig(config, newPhone), p.renewed.value, config.hww)
  {
    RotationComposes(config, utxos, newPhone, p, p);
    hide ValidRotation, SweepApprovable, Approvable, ValidBatch, ProposalFor, IsSweepOf, UtxoSum, AllUnder, SweepFee;
    CreatedSweepIsApprovable(config, utxos, p.newVaultAddress, p.sweep);
  }
}
