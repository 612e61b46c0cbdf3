/** What an accepted manifest may say: nothing but what its files and a few given facts determine
    (src/core/ceremony.rs). */
module ManifestContents {
  import opened Wrappers
  import opened Bitcoin
  import opened Fees
  import opened Psbts
  import opened Ceremony
  import opened Conservation

  /** The limits, the approvals and the file names, which validation takes from the manifest. */
  predicate SameGiven(a: Manifest, b: Manifest) {
    && a.monthlyLimit == b.monthlyLimit && a.emergencyLimit == b.emergencyLimit
    && a.phoneApproved == b.phoneApproved && a.hwwApproved == b.hwwApproved
    && a.rollover.file == b.rollover.file && |a.allowances| == |b.allowances|
    && (forall k :: 0 <= k < |a.allowances| ==> a.allowances[k].authorization.file == b.allowances[k].authorization.file)
    && (a.emergency.Some? && b.emergency.Some? ==>
          && a.emergency.value.trigger.file == b.emergency.value.trigger.file
          && a.emergency.value.withdrawal.file == b.emergency.value.withdrawal.file)
  }

  // ----- The rollover's roles -----

  // Role membership can be read off the recorded outputs.
  lemma {:induction false} RolesAreRead(config: VaultConfig, m: Manifest, p: Psbt)
    requires ValidRollover(config, m, p)
    ensures |p.inputs| == |p.tx.inputs| && forall i :: 0 <= i < |p.inputs| ==> p.inputs[i].utxo.Some?
    ensures forall i: nat :: i in m.rollover.vaultIndexes <==> i < |p.inputs| && p.inputs[i].utxo.value.script == config.Vault()
    ensures forall i: nat :: i in m.rollover.controllerIndexes <==> i < |p.inputs| && p.inputs[i].utxo.value.script == config.Controller()
    ensures Distinct(m.rollover.vaultIndexes) && Distinct(m.rollover.controllerIndexes)
  {
    hide PolicyVsize, ValidRolloverOutputs, MinimalNonDust;
    var V, C := m.rollover.vaultIndexes, m.rollover.controllerIndexes;
    PartitionIsExact(|p.tx.inputs|, V, C);
    forall i: nat | i < |p.inputs|
      ensures i in V || i in C
      ensures p.inputs[i].utxo.Some?
    {
    }
  }

  lemma {:induction false} SameMembers(a: seq<nat>, b: seq<nat>)
    requires Distinct(a) && Distinct(b) && forall i: nat :: i in a <==> i in b
    ensures multiset(a) == multiset(b)
  {
    forall i: nat
      ensures multiset(a)[i] == multiset(b)[i]
    {
      DistinctMultiplicity(a, i);
      DistinctMultiplicity(b, i);
    }
  }

  lemma {:induction false} RoleSumSplit(p: Psbt, indexes: seq<nat>, n: nat)
    requires n < |indexes|
    requires forall k :: 0 <= k < |indexes| ==> indexes[k] < |p.inputs| && p.inputs[indexes[k]].utxo.Some?
    ensures RoleSum(p, indexes) == p.inputs[indexes[n]].utxo.value.value + RoleSum(p, indexes[..n] + indexes[n + 1..])
  {
    if n == 0 {
      assert indexes[..0] + indexes[1..] == indexes[1..];
    } else {
      RoleSumSplit(p, indexes[1..], n - 1);
      var rest := indexes[..n] + indexes[n + 1..];
      assert rest[1..] == indexes[1..][..n - 1] + indexes[1..][n..];
    }
  }

  // The sum of a role does not depend on the order of its list.
  lemma {:induction false} RoleSumPermutes(p: Psbt, a: seq<nat>, b: seq<nat>)
    requires multiset(a) == multiset(b)
    requires forall k :: 0 <= k < |a| ==> a[k] < |p.inputs| && p.inputs[a[k]].utxo.Some?
    requires forall k :: 0 <= k < |b| ==> b[k] < |p.inputs| && p.inputs[b[k]].utxo.Some?
    ensures RoleSum(p, a) == RoleSum(p, b)
  {
    if a == [] {
      assert |multiset(a)| == |multiset(b)|;
    } else {
      var n := PositionIn(a, b);
      RoleSumSplit(p, b, n);
      hide RoleSum;
      RestIsReadable(p, b, n);
      RoleSumPermutes(p, a[1..], b[..n] + b[n + 1..]);
    }
  }

  lemma {:induction false} RestIsReadable(p: Psbt, b: seq<nat>, n: nat)
    requires n < |b| && forall k :: 0 <= k < |b| ==> b[k] < |p.inputs| && p.inputs[b[k]].utxo.Some?
    ensures var rest := b[..n] + b[n + 1..]; forall k :: 0 <= k < |rest| ==> rest[k] < |p.inputs| && p.inputs[rest[k]].utxo.Some?
  {
  }

  lemma {:induction false} PositionIn(a: seq<nat>, b: seq<nat>) returns (n: nat)
    requires a != [] && multiset(a) == multiset(b)
    ensures n < |b| && b[n] == a[0] && multiset(a[1..]) == multiset(b[..n] + b[n + 1..])
  {
    assert a[0] in multiset(b);
    n :| 0 <= n < |b| && b[n] == a[0];
    WithoutOne(a, 0);
    WithoutOne(b, n);
    assert a[..0] + a[1..] == a[1..];
  }

  lemma {:induction false} WithoutOne(s: seq<nat>, n: nat)
    requires n < |s|
    ensures multiset(s[..n] + s[n + 1..]) == multiset(s) - multiset{s[n]}
  {
    assert s == s[..n] + [s[n]] + s[n + 1..];
  }

  // ----- Each part -----

  /** The rollover's own fields of two accepted manifests agree, its role lists up to order. */
  lemma {:induction false} SameRollover(config: VaultConfig, a: Manifest, b: Manifest, p: Psbt)
    requires ValidRollover(config, a, p) && ValidRollover(config, b, p) && SameGiven(a, b)
    requires a.allowanceCount == b.allowanceCount
    ensures multiset(a.rollover.vaultIndexes) == multiset(b.rollover.vaultIndexes)
    ensures multiset(a.rollover.controllerIndexes) == multiset(b.rollover.controllerIndexes)
    ensures a.vaultInput == b.vaultInput && a.controllerInput == b.controllerInput && a.totalInput == b.totalInput
    ensures a.rollover.fee == b.rollover.fee && a.rollover.unsignedTxid == b.rollover.unsignedTxid == TxidOf(p.tx)
    ensures a.remainderValue == b.remainderValue && a.allowanceValue == b.allowanceValue
    ensures a.allowanceVout == b.allowanceVout && a.remainderVout == b.remainderVout
    ensures a.monthlyConnectorVout == b.monthlyConnectorVout && a.emergencyConnectorVout == b.emergencyConnectorVout
  {
    RolesAreRead(config, a, p);
    RolesAreRead(config, b, p);
    SameMembers(a.rollover.vaultIndexes, b.rollover.vaultIndexes);
    SameMembers(a.rollover.controllerIndexes, b.rollover.controllerIndexes);
    RoleSumPermutes(p, a.rollover.vaultIndexes, b.rollover.vaultIndexes);
    RoleSumPermutes(p, a.rollover.controllerIndexes, b.rollover.controllerIndexes);
    RolloverBalance(config, a, p);
    RolloverBalance(config, b, p);
    hide PolicyVsize, ValidRolloverOutputs, MinimalNonDust, RoleInputs, ValidateInputPartition, RoleSum;
  }

  lemma {:induction false} SameStep(config: VaultConfig, limit: U64, count: nat, files: Files, rollover: Tx,
                                    a: seq<AllowanceStep>, b: seq<AllowanceStep>, k: nat)
    requires |a| == |b| == count && k < count
    requires ValidStep(config, limit, count, files, rollover, a, k) && ValidStep(config, limit, count, files, rollover, b, k)
    requires forall j :: 0 <= j < count ==> a[j].authorization.file == b[j].authorization.file
    ensures a[k] == b[k]
  {
    hide PolicyVsize, MinimalNonDust;
    assert ParentTx(files, rollover, a, k) == ParentTx(files, rollover, b, k);
    SameAddress(config, limit, count, files, rollover, a, k);
    SameAddress(config, limit, count, files, rollover, b, k);
    hide AuthorizationTemplate;
  }

  lemma {:induction false} SameAddress(config: VaultConfig, limit: U64, count: nat, files: Files, rollover: Tx, a: seq<AllowanceStep>, k: nat)
    requires |a| == count && k < count && ValidStep(config, limit, count, files, rollover, a, k)
    ensures a[k].authorization.file in files && |files[a[k].authorization.file].tx.outputs| > 0
    ensures a[k].hotAddress == Address(config.network, files[a[k].authorization.file].tx.outputs[0].script)
  {
    hide PolicyVsize, MinimalNonDust, ValidChild;
  }

  lemma {:induction false} SameEmergency(config: VaultConfig, limit: U64, remainderVout: U32, connectorVout: U32, files: Files,
                                         rollover: Tx, a: Option<EmergencyPolicy>, b: Option<EmergencyPolicy>)
    requires ValidEmergency(config, limit, remainderVout, connectorVout, files, rollover, a)
    requires ValidEmergency(config, limit, remainderVout, connectorVout, files, rollover, b)
    requires a.Some? && b.Some? ==>
               && a.value.trigger.file == b.value.trigger.file && a.value.withdrawal.file == b.value.withdrawal.file
    ensures a == b
  {
    if limit > 0 {
      EmergencyValues(config, limit, remainderVout, connectorVout, files, rollover, a.value);
      EmergencyValues(config, limit, remainderVout, connectorVout, files, rollover, b.value);
    }
    hide PolicyVsize, MinimalNonDust, TriggerTemplate, WithdrawalTemplate;
  }

  lemma {:induction false} EmergencyValues(config: VaultConfig, limit: U64, remainderVout: U32, connectorVout: U32, files: Files,
                                           rollover: Tx, e: EmergencyPolicy)
    requires ValidEmergency(config, limit, remainderVout, connectorVout, files, rollover, Some(e))
    ensures e.trigger.file in files && e.withdrawal.file in files
    ensures var t, w := files[e.trigger.file].tx, files[e.withdrawal.file].tx;
            && |t.outputs| == 3 && e.stagingValue == t.outputs[0].value && e.changeValue == t.outputs[1].value
            && |w.outputs| == 1 && e.hotAddress == Address(config.network, w.outputs[0].script)
  {
    hide PolicyVsize, MinimalNonDust, ValidChild;
  }

  /** The files, the configuration, the limits, the approvals and the file names determine an accepted
      manifest, but for the order in which the rollover's roles are listed. */
  lemma {:induction false} ManifestIsDetermined(config: VaultConfig, a: Manifest, b: Manifest, files: Files)
    requires ValidBatch(config, Batch(a, files)) && ValidBatch(config, Batch(b, files)) && SameGiven(a, b)
    ensures b == a.(rollover := a.rollover.(vaultIndexes := b.rollover.vaultIndexes, controllerIndexes := b.rollover.controllerIndexes))
    ensures multiset(a.rollover.vaultIndexes) == multiset(b.rollover.vaultIndexes)
    ensures multiset(a.rollover.controllerIndexes) == multiset(b.rollover.controllerIndexes)
  {
    BatchParts(config, Batch(a, files));
    BatchParts(config, Batch(b, files));
    hide ValidBatch, ManifestTransactions, ValidRollover, ValidStep, ValidEmergency;
    var p := files[a.rollover.file];
    SameRollover(config, a, b, p);
    SameEmergency(config, a.emergencyLimit, RemainderVout(a), EmergencyVout(a), files, p.tx, a.emergency, b.emergency);
    forall k | 0 <= k < |a.allowances|
      ensures a.allowances[k] == b.allowances[k]
    {
      SameStep(config, a.monthlyLimit, a.allowanceCount, files, p.tx, a.allowances, b.allowances, k);
    }
    assert a.allowances == b.allowances;
  }
}
