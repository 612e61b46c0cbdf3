/** The annual policy batch: its manifest, its transaction templates, and what an acceptable
    batch is (src/core/ceremony.rs). */
module Ceremony {
  import opened Wrappers
  import opened Bitcoin
  import opened Fees
  import opened Psbts

  const MONTHS_PER_ROLLOVER: nat := 12
  const MONTHLY_DELAY_SECONDS: U32 := 5_063 * 512
  const EMERGENCY_DELAY_SECONDS: U32 := 1_182 * 512
  const MONTHLY_SEQUENCE: U32 := 0x40_0000 + 5_063
  const EMERGENCY_SEQUENCE: U32 := 0x40_0000 + 1_182

  /** Paths inside a batch directory, kept symbolic. */
  datatype FileName = RolloverFile | AuthorizationFile(step: nat) | TriggerFile | WithdrawalFile | OtherFile(name: string)

  type Files = map<FileName, Psbt>

  datatype VaultConfig = VaultConfig(network: Network, phone: Key, hww: Key, monthlyLimit: U64, emergencyLimit: U64) {
    function Vault(): Script {
      VaultScript(phone, hww)
    }

    function Controller(): Script {
      ControllerScript(phone, hww)
    }
  }

  datatype ConnectorState = ConnectorState(outpoint: OutPoint, value: U64)

  datatype BatchTransaction = BatchTransaction(
    file: FileName,
    unsignedTxid: Txid,
    fee: U64,
    vaultIndexes: seq<nat>,
    controllerIndexes: seq<nat>)

  datatype AllowanceStep = AllowanceStep(
    step: nat,
    delaySeconds: U32,
    delaySequence: U32,
    chainValue: U64,
    hotAddress: Address,
    connector: ConnectorState,
    nextConnector: Option<ConnectorState>,
    authorization: BatchTransaction)

  datatype EmergencyPolicy = EmergencyPolicy(
    amount: U64,
    delaySeconds: U32,
    delaySequence: U32,
    hotAddress: Address,
    stagingVout: U32,
    stagingValue: U64,
    changeVout: U32,
    changeValue: U64,
    triggerConnector: ConnectorState,
    withdrawalConnector: ConnectorState,
    trigger: BatchTransaction,
    withdrawal: BatchTransaction)

  datatype Manifest = Manifest(
    version: nat,
    network: Network,
    vaultDescriptor: Script,
    vaultAddress: Script,
    controllerDescriptor: Script,
    controllerAddress: Script,
    connectorValue: U64,
    monthlyLimit: U64,
    emergencyLimit: U64,
    feeRate: U64,
    totalInput: U64,
    vaultInput: U64,
    controllerInput: U64,
    allowanceCount: nat,
    rollover: BatchTransaction,
    allowanceVout: Option<U32>,
    allowanceValue: U64,
    remainderVout: U32,
    remainderValue: U64,
    monthlyConnectorVout: Option<U32>,
    emergencyConnectorVout: Option<U32>,
    allowances: seq<AllowanceStep>,
    emergency: Option<EmergencyPolicy>,
    phoneApproved: bool,
    hwwApproved: bool)

  /** A manifest together with the PSBT files beside it. */
  datatype Batch = Batch(manifest: Manifest, files: Files)

  function ManifestTransactions(m: Manifest): seq<BatchTransaction> {
    [m.rollover]
    + seq(|m.allowances|, i requires 0 <= i < |m.allowances| => m.allowances[i].authorization)
    + if m.emergency.Some? then [m.emergency.value.trigger, m.emergency.value.withdrawal] else []
  }

  // ----- Templates -----

  function ConnectorOutput(controller: Script): TxOut {
    TxOut(CONNECTOR_VALUE_SATS, controller)
  }

  function PolicyInputs(vaultOutpoint: OutPoint, sequence: U32, connector: OutPoint): seq<TxIn> {
    [TxIn(vaultOutpoint, sequence), TxIn(connector, SEQUENCE_RBF)]
  }

  function AuthorizationTemplate(vaultOutpoint: OutPoint, connector: OutPoint, limit: U64, hot: Script,
                                 nextChain: Option<TxOut>, controller: Script): Tx
  {
    Tx(2, 0, PolicyInputs(vaultOutpoint, MONTHLY_SEQUENCE, connector),
       if nextChain.Some? then [TxOut(limit, hot), nextChain.value, ConnectorOutput(controller)]
       else [TxOut(limit, hot)])
  }

  function TriggerTemplate(vaultOutpoint: OutPoint, connector: OutPoint, staging: U64, change: U64,
                           vault: Script, controller: Script): Tx
  {
    Tx(2, 0, PolicyInputs(vaultOutpoint, SEQUENCE_MAX, connector),
       [TxOut(staging, vault), TxOut(change, vault), ConnectorOutput(controller)])
  }

  function WithdrawalTemplate(vaultOutpoint: OutPoint, connector: OutPoint, amount: U64, hot: Script): Tx {
    Tx(2, 0, PolicyInputs(vaultOutpoint, EMERGENCY_SEQUENCE, connector), [TxOut(amount, hot)])
  }

  function RolloverOutputs(allowanceValue: Option<U64>, remainder: U64, vault: Script, controller: Script,
                           emergency: bool): seq<TxOut>
  {
    (if allowanceValue.Some? then [TxOut(allowanceValue.value, vault)] else [])
    + [TxOut(remainder, vault)]
    + (if allowanceValue.Some? then [ConnectorOutput(controller)] else [])
    + (if emergency then [ConnectorOutput(controller)] else [])
  }

  /** `allowance_chain_value`. */
  function AllowanceChainValue(count: nat, limit: U64, continuingFee: nat, finalFee: nat): Option<U64> {
    if count == 0 then Some(0)
    else if limit * count > MAX_U64 || continuingFee * (count - 1) > MAX_U64
            || limit * count + continuingFee * (count - 1) > MAX_U64
            || limit * count + continuingFee * (count - 1) + finalFee > MAX_U64
            || limit * count + continuingFee * (count - 1) + finalFee < CONNECTOR_VALUE_SATS then None
    else Some(limit * count + continuingFee * (count - 1) + finalFee - CONNECTOR_VALUE_SATS)
  }

  // ----- What validation accepts -----

  predicate ValidHeader(config: VaultConfig, m: Manifest) {
    && m.version == 5 && m.network == config.network
    && m.vaultDescriptor == config.Vault() && m.vaultAddress == config.Vault()
    && m.feeRate == DEFAULT_FEE_RATE_SAT_VB
    && !(m.monthlyLimit == 0 && m.allowanceCount != 0)
    && m.allowanceCount <= MONTHS_PER_ROLLOVER
    && |m.allowances| == m.allowanceCount
    && m.controllerDescriptor == config.Controller() && m.controllerAddress == config.Controller()
    && m.connectorValue == CONNECTOR_VALUE_SATS
  }

  function RoleSum(p: Psbt, indexes: seq<nat>): nat
    requires forall k :: 0 <= k < |indexes| ==> indexes[k] < |p.inputs| && p.inputs[indexes[k]].utxo.Some?
  {
    if indexes == [] then 0 else p.inputs[indexes[0]].utxo.value.value + RoleSum(p, indexes[1..])
  }

  /** Every listed input spends a previous output under `script`, with the given sequence. */
  predicate RoleInputs(p: Psbt, indexes: seq<nat>, script: Script, sequence: U32) {
    forall k :: 0 <= k < |indexes| ==>
      && indexes[k] < |p.inputs| && indexes[k] < |p.tx.inputs|
      && p.tx.inputs[indexes[k]].sequence == sequence
      && p.inputs[indexes[k]].utxo.Some?
      && p.inputs[indexes[k]].utxo.value.script == script
  }

  function RemainderVout(m: Manifest): U32 {
    if m.allowanceCount > 0 then 1 else 0
  }

  function EmergencyVout(m: Manifest): U32 {
    if m.allowanceCount > 0 then 3 else 1
  }

  predicate ValidVouts(m: Manifest) {
    && m.allowanceVout == (if m.allowanceCount > 0 then Some(0) else None)
    && m.remainderVout == RemainderVout(m)
    && m.monthlyConnectorVout == (if m.allowanceCount > 0 then Some(2) else None)
    && m.emergencyConnectorVout == (if m.emergencyLimit > 0 then Some(EmergencyVout(m)) else None)
    && (m.allowanceCount == 0 ==> m.allowanceValue == 0)
  }

  /** The rollover's inputs are split exactly between the two roles and add up to the manifest. */
  predicate ValidRolloverInputs(config: VaultConfig, m: Manifest, p: Psbt) {
    var V, C := m.rollover.vaultIndexes, m.rollover.controllerIndexes;
    && ValidateInputPartition(|p.tx.inputs|, V, C)
    && |p.tx.inputs| == |p.inputs| > 0
    && RoleInputs(p, V, config.Vault(), SEQUENCE_MAX)
    && RoleInputs(p, C, config.Controller(), SEQUENCE_RBF)
    && RoleSum(p, V) == m.vaultInput
    && RoleSum(p, C) == m.controllerInput
    && m.vaultInput + m.controllerInput == m.totalInput
  }

  predicate ValidRolloverOutputs(m: Manifest, outputs: seq<TxOut>, vault: Script, controller: Script) {
    && m.remainderValue >= MinimalNonDust(vault)
    && outputs == RolloverOutputs(if m.allowanceCount > 0 then Some(m.allowanceValue) else None,
                                  m.remainderValue, vault, controller, m.emergencyLimit > 0)
  }

  predicate ValidRollover(config: VaultConfig, m: Manifest, p: Psbt) {
    && ValidRolloverInputs(config, m, p)
    && TxidOf(p.tx) == m.rollover.unsignedTxid
    && p.tx.version == 2 && p.tx.lockTime == 0
    && m.totalInput == OutputSum(p.tx.outputs) + m.rollover.fee
    && m.rollover.fee == PolicyVsize(|m.rollover.vaultIndexes|, |m.rollover.controllerIndexes|, p.tx.outputs)
    && ValidVouts(m)
    && ValidRolloverOutputs(m, p.tx.outputs, config.Vault(), config.Controller())
  }

  /** `validate_connector_child`: the PSBT spends exactly its assigned vault output and its assigned,
      still unsigned connector. */
  predicate ValidChild(p: Psbt, prevout: TxOut, vaultOutpoint: OutPoint, connector: OutPoint,
                       controller: Script, t: BatchTransaction)
  {
    && t.vaultIndexes == [0] && t.controllerIndexes == [1]
    && TxidOf(p.tx) == t.unsignedTxid
    && |p.tx.inputs| == 2 && |p.inputs| == 2
    && p.tx.inputs[0].prevout == vaultOutpoint
    && p.inputs[0].utxo == Some(prevout)
    && p.tx.inputs[1].prevout == connector
    && p.inputs[1].signatures == map[]
    && p.inputs[1].utxo == Some(ConnectorOutput(controller))
    && prevout.value + CONNECTOR_VALUE_SATS <= MAX_U64
    && prevout.value + CONNECTOR_VALUE_SATS == OutputSum(p.tx.outputs) + t.fee
  }

  /** The transaction that creates the vault output and the connector of step `k`. */
  function ParentTx(files: Files, rollover: Tx, allowances: seq<AllowanceStep>, k: nat): Option<Tx>
    requires k <= |allowances|
  {
    if k == 0 then Some(rollover)
    else if allowances[k - 1].authorization.file in files then Some(files[allowances[k - 1].authorization.file].tx)
    else None
  }

  function ChainVout(k: nat): U32 {
    if k == 0 then 0 else 1
  }

  /** One authorization, given the vault output and the connector it must spend. */
  predicate ValidAuthorization(config: VaultConfig, limit: U64, hasNext: bool, source: TxOut, vaultOutpoint: OutPoint,
                               connector: OutPoint, p: Psbt, a: AllowanceStep)
  {
    var fee := a.authorization.fee;
    && a.delaySeconds == MONTHLY_DELAY_SECONDS && a.delaySequence == MONTHLY_SEQUENCE
    && a.chainValue == source.value
    && a.connector == ConnectorState(connector, CONNECTOR_VALUE_SATS)
    && a.hotAddress.network == config.network
    && ValidChild(p, source, vaultOutpoint, connector, config.Controller(), a.authorization)
    && fee == PolicyVsize(1, 1, p.tx.outputs)
    && if hasNext then
         && source.value >= limit + fee + MinimalNonDust(config.Vault())
         && p.tx == AuthorizationTemplate(vaultOutpoint, connector, limit, a.hotAddress.script,
                      Some(TxOut(source.value - limit - fee, config.Vault())), config.Controller())
         && a.nextConnector == Some(ConnectorState(OutPoint(TxidOf(p.tx), 2), CONNECTOR_VALUE_SATS))
       else
         && source.value + CONNECTOR_VALUE_SATS == limit + fee
         && p.tx == AuthorizationTemplate(vaultOutpoint, connector, limit, a.hotAddress.script, None, config.Controller())
         && a.nextConnector == None
  }

  /** Step `k` of the allowance chain follows the policy. */
  predicate ValidStep(config: VaultConfig, limit: U64, count: nat, files: Files, rollover: Tx,
                      allowances: seq<AllowanceStep>, k: nat)
    requires k < |allowances|
  {
    var a := allowances[k];
    var parent := ParentTx(files, rollover, allowances, k);
    && parent.Some? && |parent.value.outputs| > ChainVout(k)
    && a.authorization.file in files
    && a.step == k + 1
    && ValidAuthorization(config, limit, k + 1 < count, parent.value.outputs[ChainVout(k)],
                          OutPoint(TxidOf(parent.value), ChainVout(k)), OutPoint(TxidOf(parent.value), 2),
                          files[a.authorization.file], a)
  }

  /** The emergency trigger: stages the amount, returns the change, renews the connector. */
  predicate ValidTrigger(p: Psbt, prevout: TxOut, source: OutPoint, connector: OutPoint, staging: U64, change: U64,
                         entry: BatchTransaction, vault: Script, controller: Script)
  {
    && ValidChild(p, prevout, source, connector, controller, entry)
    && p.tx == TriggerTemplate(source, connector, staging, change, vault, controller)
    && change >= MinimalNonDust(vault)
    && entry.fee == PolicyVsize(1, 1, p.tx.outputs)
  }

  /** The delayed withdrawal of the staged amount. */
  predicate ValidWithdrawal(p: Psbt, trigger: Txid, staging: U64, amount: U64, hot: Script, entry: BatchTransaction,
                            vault: Script, controller: Script)
  {
    && ValidChild(p, TxOut(staging, vault), OutPoint(trigger, 0), OutPoint(trigger, 2), controller, entry)
    && p.tx == WithdrawalTemplate(OutPoint(trigger, 0), OutPoint(trigger, 2), amount, hot)
    && staging + CONNECTOR_VALUE_SATS == amount + entry.fee
    && entry.fee == PolicyVsize(1, 1, p.tx.outputs)
  }

  predicate ValidEmergencyMetadata(config: VaultConfig, limit: U64, e: EmergencyPolicy, connector: OutPoint) {
    && e.amount == limit && e.delaySeconds == EMERGENCY_DELAY_SECONDS && e.delaySequence == EMERGENCY_SEQUENCE
    && e.stagingVout == 0 && e.changeVout == 1
    && e.hotAddress.network == config.network
    && e.triggerConnector == ConnectorState(connector, CONNECTOR_VALUE_SATS)
  }

  predicate ValidEmergency(config: VaultConfig, limit: U64, remainderVout: U32, connectorVout: U32, files: Files,
                           rollover: Tx, emergency: Option<EmergencyPolicy>)
  {
    if limit == 0 then emergency == None
    else
      && emergency.Some?
      && var e := emergency.value;
         var source, connector := OutPoint(TxidOf(rollover), remainderVout), OutPoint(TxidOf(rollover), connectorVout);
      && |rollover.outputs| > remainderVout
      && e.trigger.file in files && e.withdrawal.file in files
      && var trigger := files[e.trigger.file];
      && ValidEmergencyMetadata(config, limit, e, connector)
      && ValidTrigger(trigger, rollover.outputs[remainderVout], source, connector, e.stagingValue, e.changeValue,
                      e.trigger, config.Vault(), config.Controller())
      && e.withdrawalConnector == ConnectorState(OutPoint(TxidOf(trigger.tx), 2), CONNECTOR_VALUE_SATS)
      && ValidWithdrawal(files[e.withdrawal.file], TxidOf(trigger.tx), e.stagingValue, limit, e.hotAddress.script,
                         e.withdrawal, config.Vault(), config.Controller())
  }

  /** The batches that `validate_batch` accepts. */
  ghost predicate ValidBatch(config: VaultConfig, batch: Batch) {
    var m, files := batch.manifest, batch.files;
    && (forall t :: t in ManifestTransactions(m) ==> t.file in files && DefaultSighashes(files[t.file]))
    && ValidHeader(config, m)
    && m.rollover.file in files
    && ValidRollover(config, m, files[m.rollover.file])
    && var rollover := files[m.rollover.file].tx;
    && (forall k :: 0 <= k < m.allowanceCount ==>
          ValidStep(config, m.monthlyLimit, m.allowanceCount, files, rollover, m.allowances, k))
    && ValidEmergency(config, m.emergencyLimit, RemainderVout(m), EmergencyVout(m), files, rollover, m.emergency)
  }

  // The parts of an accepted batch.
  lemma {:induction false} BatchParts(config: VaultConfig, batch: Batch)
    requires ValidBatch(config, batch)
    ensures var m, files := batch.manifest, batch.files;
            && |m.allowances| == m.allowanceCount && m.rollover.file in files
            && (forall t :: t in ManifestTransactions(m) ==> t.file in files && DefaultSighashes(files[t.file]))
            && ValidHeader(config, m)
            && ValidRollover(config, m, files[m.rollover.file])
            && (forall j :: 0 <= j < m.allowanceCount ==>
                  ValidStep(config, m.monthlyLimit, m.allowanceCount, files, files[m.rollover.file].tx, m.allowances, j))
            && ValidEmergency(config, m.emergencyLimit, RemainderVout(m), EmergencyVout(m), files,
                              files[m.rollover.file].tx, m.emergency)
  {
    hide ValidStep, ValidRollover, ValidEmergency, ManifestTransactions;
  }

  lemma {:induction false} StepAt(config: VaultConfig, batch: Batch, k: nat)
    requires ValidBatch(config, batch) && k < |batch.manifest.allowances|
    ensures var m := batch.manifest;
            && |m.allowances| == m.allowanceCount && m.rollover.file in batch.files
            && ValidStep(config, m.monthlyLimit, m.allowanceCount, batch.files, batch.files[m.rollover.file].tx, m.allowances, k)
  {
    BatchParts(config, batch);
    hide ValidBatch, ValidStep, ValidRollover, ValidEmergency, ManifestTransactions, ValidHeader;
  }

  lemma {:induction false} BatchFrom(config: VaultConfig, batch: Batch)
    requires var m, files := batch.manifest, batch.files;
             && |m.allowances| == m.allowanceCount && m.rollover.file in files
             && (forall t :: t in ManifestTransactions(m) ==> t.file in files && DefaultSighashes(files[t.file]))
             && ValidHeader(config, m)
             && ValidRollover(config, m, files[m.rollover.file])
             && (forall j :: 0 <= j < m.allowanceCount ==>
                   ValidStep(config, m.monthlyLimit, m.allowanceCount, files, files[m.rollover.file].tx, m.allowances, j))
             && ValidEmergency(config, m.emergencyLimit, RemainderVout(m), EmergencyVout(m), files,
                               files[m.rollover.file].tx, m.emergency)
    ensures ValidBatch(config, batch)
  {
    hide ValidStep, ValidRollover, ValidEmergency, ManifestTransactions;
  }

  /** The entries of a manifest: the rollover, the authorizations, the two emergency transactions. */
  lemma {:induction false} EntryCases(m: Manifest, t: BatchTransaction)
    requires t in ManifestTransactions(m)
    ensures || t == m.rollover
            || (exists k :: 0 <= k < |m.allowances| && t == m.allowances[k].authorization)
            || (m.emergency.Some? && (t == m.emergency.value.trigger || t == m.emergency.value.withdrawal))
  {
    var authorizations := seq(|m.allowances|, i requires 0 <= i < |m.allowances| => m.allowances[i].authorization);
    var rest := if m.emergency.Some? then [m.emergency.value.trigger, m.emergency.value.withdrawal] else [];
    assert ManifestTransactions(m) == [m.rollover] + authorizations + rest;
    if t in authorizations {
      var k :| 0 <= k < |authorizations| && authorizations[k] == t;
      assert t == m.allowances[k].authorization;
    }
  }

  lemma {:induction false} AllEntriesListed(m: Manifest)
    ensures m.rollover in ManifestTransactions(m)
    ensures forall k :: 0 <= k < |m.allowances| ==> m.allowances[k].authorization in ManifestTransactions(m)
    ensures m.emergency.Some? ==> m.emergency.value.trigger in ManifestTransactions(m)
                                  && m.emergency.value.withdrawal in ManifestTransactions(m)
  {
    var entries := ManifestTransactions(m);
    assert entries[0] == m.rollover;
    assert forall k :: 0 <= k < |m.allowances| ==> entries[k + 1] == m.allowances[k].authorization;
    if m.emergency.Some? {
      assert entries[|m.allowances| + 1] == m.emergency.value.trigger;
      assert entries[|m.allowances| + 2] == m.emergency.value.withdrawal;
    }
  }

  /** What a step spends is a vault output of its parent. */
  lemma {:induction false} StepIsChild(config: VaultConfig, limit: U64, count: nat, files: Files, rollover: Tx,
                                       allowances: seq<AllowanceStep>, k: nat)
    requires k < |allowances| <= count
    requires ValidStep(config, limit, count, files, rollover, allowances, k)
    requires k > 0 ==> ValidStep(config, limit, count, files, rollover, allowances, k - 1)
    requires |rollover.outputs| > 0 && rollover.outputs[0].script == config.Vault()
    ensures var a := allowances[k].authorization;
            && a.file in files
            && exists source: TxOut, outpoint, connector ::
                 source.script == config.Vault()
                 && ValidChild(files[a.file], source, outpoint, connector, config.Controller(), a)
  {
    hide PolicyVsize, MinimalNonDust, ValidChild;
  }

  lemma {:induction false} EmergencyIsChild(config: VaultConfig, limit: U64, remainderVout: U32, connectorVout: U32,
                                            files: Files, rollover: Tx, e: EmergencyPolicy)
    requires ValidEmergency(config, limit, remainderVout, connectorVout, files, rollover, Some(e))
    requires |rollover.outputs| > remainderVout && rollover.outputs[remainderVout].script == config.Vault()
    ensures forall t | t in [e.trigger, e.withdrawal] ::
              && t.file in files
              && exists source: TxOut, outpoint, connector ::
                   source.script == config.Vault()
                   && ValidChild(files[t.file], source, outpoint, connector, config.Controller(), t)
  {
    hide PolicyVsize, MinimalNonDust, ValidChild;
    assert TxOut(e.stagingValue, config.Vault()).script == config.Vault();
  }

  lemma {:induction false} RolloverPaysVault(config: VaultConfig, m: Manifest, p: Psbt)
    requires ValidRollover(config, m, p)
    ensures |p.tx.outputs| > RemainderVout(m) && p.tx.outputs[RemainderVout(m)].script == config.Vault()
    ensures |p.tx.outputs| > 0 && p.tx.outputs[0].script == config.Vault()
  {
    hide PolicyVsize, MinimalNonDust, ValidRolloverInputs;
  }

  /** Every entry but the rollover is a child: one vault input, one unsigned connector. */
  lemma {:induction false} EntriesAreChildren(config: VaultConfig, batch: Batch, t: BatchTransaction)
    requires ValidBatch(config, batch)
    requires t in ManifestTransactions(batch.manifest) && t != batch.manifest.rollover
    ensures t.file in batch.files
            && exists source: TxOut, outpoint, connector ::
                 source.script == config.Vault()
                 && ValidChild(batch.files[t.file], source, outpoint, connector, config.Controller(), t)
  {
    var m, files := batch.manifest, batch.files;
    BatchParts(config, batch);
    EntryCases(m, t);
    RolloverPaysVault(config, m, files[m.rollover.file]);
    hide ValidBatch, ManifestTransactions, ValidRollover, ValidStep, ValidEmergency, ValidChild;
    var rollover := files[m.rollover.file].tx;
    if k :| 0 <= k < |m.allowances| && t == m.allowances[k].authorization {
      StepIsChild(config, m.monthlyLimit, m.allowanceCount, files, rollover, m.allowances, k);
    } else {
      EmergencyIsChild(config, m.emergencyLimit, RemainderVout(m), EmergencyVout(m), files, rollover, m.emergency.value);
      assert t in [m.emergency.value.trigger, m.emergency.value.withdrawal];
    }
  }
}
