/** The validator run by the hardware wallet and again by the phone: it re-derives the whole graph
    from the manifest and the PSBT files (src/core/ceremony.rs). */
module Validator {
  import opened Wrappers
  import opened Bitcoin
  import opened Fees
  import opened Psbts
  import opened Ceremony

  /** `read_psbt`. */
  function ReadPsbt(files: Files, file: FileName): Result<Psbt> {
    if file in files then Success(files[file]) else Failure("failed to read PSBT")
  }

  /** `output_sum`. */
  method CheckedOutputSum(outputs: seq<TxOut>) returns (r: Result<U64>)
    ensures r == if OutputSum(outputs) <= MAX_U64 then Success(OutputSum(outputs)) else Failure("output sum overflowed")
  {
    var sum: U64 := 0;
    for i := 0 to |outputs|
      invariant OutputSum(outputs) == sum + OutputSum(outputs[i..])
    {
      assert outputs[i..][1..] == outputs[i + 1..];
      var next := CheckedAdd(sum, outputs[i].value);
      if next.None? {
        return Failure("output sum overflowed");
      }
      sum := next.value;
    }
    return Success(sum);
  }

  /** `psbt_role_input_sum`. */
  method PsbtRoleInputSum(p: Psbt, indexes: seq<nat>, script: Script) returns (r: Result<U64>)
    requires forall k :: 0 <= k < |indexes| ==> indexes[k] < |p.inputs|
    ensures r.Success? ==> (forall k :: 0 <= k < |indexes| ==>
                              && p.inputs[indexes[k]].utxo.Some?
                              && p.inputs[indexes[k]].utxo.value.script == script)
                           && r.value == RoleSum(p, indexes)
    ensures r.Failure? ==> !(&& (forall k :: 0 <= k < |indexes| ==>
                                   && p.inputs[indexes[k]].utxo.Some?
                                   && p.inputs[indexes[k]].utxo.value.script == script)
                             && RoleSum(p, indexes) <= MAX_U64)
  {
    var sum: U64 := 0;
    for n := 0 to |indexes|
      invariant forall k :: 0 <= k < n ==>
                  p.inputs[indexes[k]].utxo.Some? && p.inputs[indexes[k]].utxo.value.script == script
      invariant (forall k :: 0 <= k < |indexes| ==> p.inputs[indexes[k]].utxo.Some?) ==>
                  RoleSum(p, indexes) == sum + RoleSum(p, indexes[n..])
    {
      var prevout := p.inputs[indexes[n]].utxo;
      if prevout.None? || prevout.value.script != script {
        return Failure("unexpected previous output");
      }
      assert indexes[n..][1..] == indexes[n + 1..];
      var next := CheckedAdd(sum, prevout.value.value);
      if next.None? {
        return Failure("input sum overflowed");
      }
      sum := next.value;
    }
    return Success(sum);
  }

  /** `validate_connector_child`. */
  method ValidateConnectorChild(p: Psbt, prevout: TxOut, vaultOutpoint: OutPoint, connector: OutPoint,
                                controller: Script, t: BatchTransaction) returns (ok: bool)
    ensures ok <==> ValidChild(p, prevout, vaultOutpoint, connector, controller, t)
  {
    if t.vaultIndexes != [0] || t.controllerIndexes != [1] || TxidOf(p.tx) != t.unsignedTxid
       || |p.tx.inputs| != 2 || |p.inputs| != 2
       || p.tx.inputs[0].prevout != vaultOutpoint || p.inputs[0].utxo != Some(prevout)
       || p.tx.inputs[1].prevout != connector || p.inputs[1].signatures != map[]
    {
      return false;
    }
    if p.inputs[1].utxo.None? || p.inputs[1].utxo.value.script != controller
       || p.inputs[1].utxo.value.value != CONNECTOR_VALUE_SATS
    {
      return false;
    }
    var input := CheckedAdd(prevout.value, CONNECTOR_VALUE_SATS);
    var outputs := CheckedOutputSum(p.tx.outputs);
    if input.None? || outputs.Failure? {
      return false;
    }
    var fee := CheckedSub(input.value, outputs.value);
    return fee == Some(t.fee);
  }

  /** The rollover part of `validate_batch`. */
  method ValidateRollover(config: VaultConfig, m: Manifest, p: Psbt) returns (ok: bool)
    ensures ok <==> ValidRollover(config, m, p)
  {
    var tx := p.tx;
    var V, C := m.rollover.vaultIndexes, m.rollover.controllerIndexes;
    var outputCount := (if m.allowanceCount > 0 then 2 else 0) + 1 + if m.emergencyLimit > 0 then 1 else 0;
    if TxidOf(tx) != m.rollover.unsignedTxid || tx.version != 2 || tx.lockTime != 0 || |tx.outputs| != outputCount {
      return false;
    }
    ok := ValidateRolloverInputs(config, m, p);
    if !ok {
      return;
    }
    var outputs := CheckedOutputSum(tx.outputs);
    if outputs.Failure? || CheckedSub(m.totalInput, outputs.value) != Some(m.rollover.fee) {
      return false;
    }
    PartitionIsExact(|tx.inputs|, V, C);
    SetSizeIffDistinct(V);
    SetSizeIffDistinct(C);
    var expected := EstimatePolicyVsize(tx, V, C);
    if m.rollover.fee != expected.value * DEFAULT_FEE_RATE_SAT_VB || !ValidVouts(m) {
      return false;
    }
    ok := ValidateRolloverOutputs(m, tx.outputs, config.Vault(), config.Controller());
  }

  method ValidateRolloverInputs(config: VaultConfig, m: Manifest, p: Psbt) returns (ok: bool)
    ensures ok <==> ValidRolloverInputs(config, m, p)
  {
    var tx, V, C := p.tx, m.rollover.vaultIndexes, m.rollover.controllerIndexes;
    if !ValidateInputPartition(|tx.inputs|, V, C) || |tx.inputs| == 0 || |tx.inputs| != |p.inputs| {
      return false;
    }
    PartitionIsExact(|tx.inputs|, V, C);
    assert forall k :: 0 <= k < |V| ==> V[k] in V;
    assert forall k :: 0 <= k < |C| ==> C[k] in C;
    var vaultSequences := AllSequences(tx, V, SEQUENCE_MAX);
    var controllerSequences := AllSequences(tx, C, SEQUENCE_RBF);
    if !vaultSequences || !controllerSequences {
      return false;
    }
    var vaultSum := PsbtRoleInputSum(p, V, config.Vault());
    var controllerSum := PsbtRoleInputSum(p, C, config.Controller());
    if vaultSum.Failure? || controllerSum.Failure? {
      return false;
    }
    var total := CheckedAdd(vaultSum.value, controllerSum.value);
    return total == Some(m.totalInput) && vaultSum.value == m.vaultInput && controllerSum.value == m.controllerInput;
  }

  method AllSequences(tx: Tx, indexes: seq<nat>, sequence: U32) returns (ok: bool)
    requires forall k :: 0 <= k < |indexes| ==> indexes[k] < |tx.inputs|
    ensures ok <==> forall k :: 0 <= k < |indexes| ==> tx.inputs[indexes[k]].sequence == sequence
  {
    for n := 0 to |indexes|
      invariant forall k :: 0 <= k < n ==> tx.inputs[indexes[k]].sequence == sequence
    {
      if tx.inputs[indexes[n]].sequence != sequence {
        return false;
      }
    }
    return true;
  }

  /** The output checks of `validate_batch`: each output is looked up by its manifest index. */
  method ValidateRolloverOutputs(m: Manifest, outputs: seq<TxOut>, vault: Script, controller: Script) returns (ok: bool)
    requires |outputs| == (if m.allowanceCount > 0 then 2 else 0) + 1 + if m.emergencyLimit > 0 then 1 else 0
    requires ValidVouts(m)
    ensures ok <==> ValidRolloverOutputs(m, outputs, vault, controller)
  {
    ghost var expected := RolloverOutputs(if m.allowanceCount > 0 then Some(m.allowanceValue) else None,
                                          m.remainderValue, vault, controller, m.emergencyLimit > 0);
    if m.allowanceCount > 0 && (outputs[0].script != vault || outputs[0].value != m.allowanceValue) {
      assert expected[0] != outputs[0];
      return false;
    }
    var remainder := outputs[m.remainderVout];
    if remainder.script != vault || remainder.value != m.remainderValue || remainder.value < MinimalNonDust(vault) {
      assert expected[m.remainderVout] == TxOut(m.remainderValue, vault);
      return false;
    }
    if m.monthlyConnectorVout.Some? && outputs[m.monthlyConnectorVout.value] != ConnectorOutput(controller) {
      assert expected[2] == ConnectorOutput(controller);
      return false;
    }
    if m.emergencyConnectorVout.Some? && outputs[m.emergencyConnectorVout.value] != ConnectorOutput(controller) {
      assert expected[EmergencyVout(m)] == ConnectorOutput(controller);
      return false;
    }
    assert outputs == expected;
    return true;
  }

  // The vault output, its creating transaction and the connector that the next step must spend.
  datatype ChainState = ChainState(outpoint: OutPoint, prevout: TxOut, connector: ConnectorState)

  ghost predicate AtStep(state: ChainState, files: Files, rollover: Tx, allowances: seq<AllowanceStep>, k: nat)
    requires k <= |allowances|
  {
    var parent := ParentTx(files, rollover, allowances, k);
    && parent.Some? && |parent.value.outputs| > ChainVout(k)
    && var txid := TxidOf(parent.value);
    && state == ChainState(OutPoint(txid, ChainVout(k)), parent.value.outputs[ChainVout(k)],
                           ConnectorState(OutPoint(txid, 2), CONNECTOR_VALUE_SATS))
  }

  /** `validate_allowances`: threads the vault output and the connector through the chain. */
  method ValidateAllowances(config: VaultConfig, m: Manifest, files: Files, rollover: Tx) returns (ok: bool)
    requires |m.allowances| == m.allowanceCount
    requires m.allowanceCount > 0 ==> m.allowanceVout == Some(0) && m.monthlyConnectorVout == Some(2)
    requires m.allowanceCount > 0 ==> |rollover.outputs| > 0
    ensures ok <==> forall k :: 0 <= k < m.allowanceCount ==>
                      ValidStep(config, m.monthlyLimit, m.allowanceCount, files, rollover, m.allowances, k)
  {
    var count := m.allowanceCount;
    if count == 0 {
      return true;
    }
    var state := Some(ChainState(OutPoint(TxidOf(rollover), m.allowanceVout.value), rollover.outputs[0],
                            ConnectorState(OutPoint(TxidOf(rollover), m.monthlyConnectorVout.value), CONNECTOR_VALUE_SATS)));
    for k := 0 to count
      invariant forall j :: 0 <= j < k ==>
                  ValidStep(config, m.monthlyLimit, count, files, rollover, m.allowances, j)
      invariant k < count ==> state.Some? && AtStep(state.value, files, rollover, m.allowances, k)
    {
      var next := ValidateStep(config, m.monthlyLimit, count, files, rollover, m.allowances, k, state.value);
      if next.Failure? {
        return false;
      }
      state := next.value;
    }
    return true;
  }

  method ValidateStep(config: VaultConfig, limit: U64, count: nat, files: Files, ghost rollover: Tx,
                      allowances: seq<AllowanceStep>, k: nat, source: ChainState)
    returns (r: Result<Option<ChainState>>)
    requires k < count == |allowances|
    requires AtStep(source, files, rollover, allowances, k)
    ensures r.Success? <==> ValidStep(config, limit, count, files, rollover, allowances, k)
    ensures r.Success? && k + 1 < count ==> r.value.Some? && AtStep(r.value.value, files, rollover, allowances, k + 1)
  {
    var allowance := allowances[k];
    :- Need(allowance.step == k + 1, "step out of order");
    var p :- ReadPsbt(files, allowance.authorization.file);
    var ok := ValidateAuthorization(config, limit, k + 1 < count, source, p, allowance);
    :- Need(ok, "authorization breaks policy");
    if k + 1 < count {
      return Success(Some(ChainState(OutPoint(TxidOf(p.tx), 1), p.tx.outputs[1],
                                     ConnectorState(OutPoint(TxidOf(p.tx), 2), CONNECTOR_VALUE_SATS))));
    }
    return Success(None);
  }

  method ValidateAuthorization(config: VaultConfig, limit: U64, hasNext: bool, source: ChainState, p: Psbt, a: AllowanceStep)
    returns (ok: bool)
    requires source.connector.value == CONNECTOR_VALUE_SATS
    ensures ok <==> ValidAuthorization(config, limit, hasNext, source.prevout, source.outpoint,
                                       source.connector.outpoint, p, a)
  {
    var fee, tx, hot := a.authorization.fee, p.tx, a.hotAddress.script;
    if a.delaySeconds != MONTHLY_DELAY_SECONDS || a.delaySequence != MONTHLY_SEQUENCE
       || a.chainValue != source.prevout.value || a.connector != source.connector || a.hotAddress.network != config.network
    {
      return false;
    }
    var child := ValidateConnectorChild(p, source.prevout, source.outpoint, source.connector.outpoint,
                                        config.Controller(), a.authorization);
    if !child || tx.version != 2 || tx.lockTime != 0 || tx.inputs[0].sequence != MONTHLY_SEQUENCE
       || tx.inputs[1].sequence != SEQUENCE_RBF || |tx.outputs| != (if hasNext then 3 else 1)
       || tx.outputs[0].script != hot || tx.outputs[0].value != limit
    {
      return false;
    }
    assert tx.inputs == PolicyInputs(source.outpoint, MONTHLY_SEQUENCE, source.connector.outpoint);
    if hasNext {
      var afterLimit := CheckedSub(source.prevout.value, limit);
      if afterLimit.None? || afterLimit.value < fee {
        return false;
      }
      var nextValue := afterLimit.value - fee;
      if tx.outputs[1].script != config.Vault() || tx.outputs[1].value != nextValue
         || nextValue < MinimalNonDust(config.Vault()) || tx.outputs[2] != ConnectorOutput(config.Controller())
         || a.nextConnector != Some(ConnectorState(OutPoint(TxidOf(tx), 2), CONNECTOR_VALUE_SATS))
      {
        return false;
      }
      assert tx.outputs == [TxOut(limit, hot), TxOut(nextValue, config.Vault()), ConnectorOutput(config.Controller())];
    } else {
      // Two absent sums compare equal, but the child check has already bounded the left one.
      if CheckedAdd(source.prevout.value, CONNECTOR_VALUE_SATS) != CheckedAdd(limit, fee) || a.nextConnector != None {
        return false;
      }
      assert tx.outputs == [TxOut(limit, hot)];
    }
    var expected := EstimatePolicyVsize(tx, [0], [1]);
    PairRoles(tx);
    return fee == expected.value * DEFAULT_FEE_RATE_SAT_VB;
  }

  /** In every two-input policy transaction the roles are fixed: vault first, connector second. */
  lemma {:induction false} PairRoles(tx: Tx)
    requires |tx.inputs| == 2
    ensures RolesCover(2, [0], [1])
    ensures |ToSet([0])| == 1 && |ToSet([1])| == 1
  {
    assert ToSet([0]) == {0} && ToSet([1]) == {1};
  }

  /** `validate_connector_emergency`. */
  method ValidateConnectorEmergency(config: VaultConfig, m: Manifest, files: Files, rollover: Tx) returns (ok: bool)
    requires ValidVouts(m)
    requires |rollover.outputs| > RemainderVout(m)
    requires rollover.outputs[RemainderVout(m)].script == config.Vault()
    ensures ok <==> ValidEmergency(config, m.emergencyLimit, RemainderVout(m), EmergencyVout(m), files, rollover, m.emergency)
  {
    if m.emergencyLimit == 0 {
      return m.emergency.None?;
    }
    if m.emergency.None? {
      return false;
    }
    var e, vault, controller := m.emergency.value, config.Vault(), config.Controller();
    var source := OutPoint(TxidOf(rollover), m.remainderVout);
    var connector := ConnectorState(OutPoint(TxidOf(rollover), m.emergencyConnectorVout.value), CONNECTOR_VALUE_SATS);
    if !ValidEmergencyMetadata(config, m.emergencyLimit, e, connector.outpoint) || e.trigger.file !in files {
      return false;
    }
    var trigger := files[e.trigger.file];
    ok := ValidateTrigger(trigger, rollover.outputs[m.remainderVout], source, connector.outpoint, e, vault, controller);
    if !ok || e.withdrawalConnector != ConnectorState(OutPoint(TxidOf(trigger.tx), 2), CONNECTOR_VALUE_SATS)
       || e.withdrawal.file !in files
    {
      return false;
    }
    ok := ValidateWithdrawal(files[e.withdrawal.file], trigger.tx, e, m.emergencyLimit, vault, controller);
  }

  method ValidateTrigger(p: Psbt, prevout: TxOut, source: OutPoint, connector: OutPoint, e: EmergencyPolicy,
                         vault: Script, controller: Script) returns (ok: bool)
    ensures ok <==> ValidTrigger(p, prevout, source, connector, e.stagingValue, e.changeValue, e.trigger, vault, controller)
  {
    ok := ValidateConnectorChild(p, prevout, source, connector, controller, e.trigger);
    if !ok {
      return;
    }
    var tx := p.tx;
    if tx.version != 2 || tx.lockTime != 0 || tx.inputs[0].sequence != SEQUENCE_MAX
       || tx.inputs[1].sequence != SEQUENCE_RBF || |tx.outputs| != 3
       || tx.outputs[0] != TxOut(e.stagingValue, vault) || tx.outputs[1] != TxOut(e.changeValue, vault)
       || e.changeValue < MinimalNonDust(vault) || tx.outputs[2] != ConnectorOutput(controller)
    {
      return false;
    }
    assert tx.inputs == PolicyInputs(source, SEQUENCE_MAX, connector);
    assert tx.outputs == [TxOut(e.stagingValue, vault), TxOut(e.changeValue, vault), ConnectorOutput(controller)];
    var expected := EstimatePolicyVsize(tx, [0], [1]);
    PairRoles(tx);
    return e.trigger.fee == expected.value * DEFAULT_FEE_RATE_SAT_VB;
  }

  method ValidateWithdrawal(p: Psbt, trigger: Tx, e: EmergencyPolicy, limit: U64, vault: Script, controller: Script)
    returns (ok: bool)
    requires |trigger.outputs| > 0 && trigger.outputs[0] == TxOut(e.stagingValue, vault) && e.stagingVout == 0
    requires e.withdrawalConnector.outpoint == OutPoint(TxidOf(trigger), 2)
    ensures ok <==> ValidWithdrawal(p, TxidOf(trigger), e.stagingValue, limit, e.hotAddress.script, e.withdrawal, vault, controller)
  {
    ok := ValidateConnectorChild(p, trigger.outputs[e.stagingVout], OutPoint(TxidOf(trigger), e.stagingVout),
                                 e.withdrawalConnector.outpoint, controller, e.withdrawal);
    if !ok {
      return;
    }
    var tx := p.tx;
    if tx.version != 2 || tx.lockTime != 0 || tx.inputs[0].sequence != EMERGENCY_SEQUENCE
       || tx.inputs[1].sequence != SEQUENCE_RBF || |tx.outputs| != 1 || tx.outputs[0].script != e.hotAddress.script
       || tx.outputs[0].value != limit
       || CheckedAdd(e.stagingValue, CONNECTOR_VALUE_SATS) != CheckedAdd(limit, e.withdrawal.fee)
    {
      return false;
    }
    assert tx.inputs == PolicyInputs(OutPoint(TxidOf(trigger), 0), EMERGENCY_SEQUENCE, OutPoint(TxidOf(trigger), 2));
    assert tx.outputs == [TxOut(limit, e.hotAddress.script)];
    var expected := EstimatePolicyVsize(tx, [0], [1]);
    PairRoles(tx);
    return e.withdrawal.fee == expected.value * DEFAULT_FEE_RATE_SAT_VB;
  }

  lemma {:induction false} FirstEntry(m: Manifest)
    ensures |ManifestTransactions(m)| > 0 && ManifestTransactions(m)[0] == m.rollover
  {
  }

  /** `validate_batch`: accepts exactly the valid batches. */
  method ValidateBatch(config: VaultConfig, batch: Batch) returns (r: Result<Script>)
    ensures r.Success? <==> ValidBatch(config, batch)
    ensures r.Success? ==> r.value == config.Vault()
  {
    hide ManifestTransactions, ValidStep, ValidRolloverInputs, ValidAuthorization, ValidTrigger, ValidWithdrawal,
         ValidEmergencyMetadata, PolicyVsize, MinimalNonDust, DefaultSighashes;
    var m, files := batch.manifest, batch.files;
    var transactions := ManifestTransactions(m);
    for i := 0 to |transactions|
      invariant forall k :: 0 <= k < i ==>
                  transactions[k].file in files && DefaultSighashes(files[transactions[k].file])
    {
      var p :- ReadPsbt(files, transactions[i].file);
      var ok := ValidateDefaultSighashes(p);
      :- Need(ok, "not SIGHASH_DEFAULT");
    }
    :- Need(ValidHeader(config, m), "manifest of another policy");
    assert transactions[0] == m.rollover by { FirstEntry(m); }
    var rollover := files[m.rollover.file];
    var rolloverOk := ValidateRollover(config, m, rollover);
    :- Need(rolloverOk, "rollover breaks manifest");
    var allowancesOk := ValidateAllowances(config, m, files, rollover.tx);
    :- Need(allowancesOk, "allowances break policy");
    var emergencyOk := ValidateConnectorEmergency(config, m, files, rollover.tx);
    :- Need(emergencyOk, "emergency breaks policy");
    return Success(config.Vault());
  }
}
