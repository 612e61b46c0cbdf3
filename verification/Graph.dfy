/** The presigned transaction graph of an accepted batch, as the chain sees it (src/core/ceremony.rs). */
module Graph {
  import opened Wrappers
  import opened Bitcoin
  import opened Fees
  import opened Psbts
  import opened Ceremony

  datatype Graph = Graph(
    rollover: Tx,
    authorizations: seq<Tx>,
    emergency: Option<(Tx, Tx)>,
    limit: U64,
    amount: U64,
    remainderVout: U32,
    emergencyVout: U32,
    vault: Script,
    controller: Script)
  {
    /** The transaction whose outputs authorization k spends. */
    function Parent(k: nat): Tx
      requires k <= |authorizations|
    {
      if k == 0 then rollover else authorizations[k - 1]
    }

    /** The vault output that authorization k spends. */
    function ChainOutput(k: nat): OutPoint
      requires k <= |authorizations|
    {
      OutPoint(TxidOf(Parent(k)), ChainVout(k))
    }

    /** The connector that authorization k spends. */
    function Connector(k: nat): OutPoint
      requires k <= |authorizations|
    {
      OutPoint(TxidOf(Parent(k)), 2)
    }

    function Remainder(): OutPoint {
      OutPoint(TxidOf(rollover), remainderVout)
    }

    function TriggerConnector(): OutPoint {
      OutPoint(TxidOf(rollover), emergencyVout)
    }

    function Staging(): OutPoint
      requires emergency.Some?
    {
      OutPoint(TxidOf(emergency.value.0), 0)
    }

    function WithdrawalConnector(): OutPoint
      requires emergency.Some?
    {
      OutPoint(TxidOf(emergency.value.0), 2)
    }

    /** Every transaction of the batch. */
    function Transactions(): set<Tx> {
      {rollover} + (set k | 0 <= k < |authorizations| :: authorizations[k])
      + if emergency.Some? then {emergency.value.0, emergency.value.1} else {}
    }
  }

  /** Authorization k spends its chain output, after the monthly delay, together with its connector. */
  predicate WellFormedStep(g: Graph, k: nat)
    requires k < |g.authorizations|
  {
    var tx, parent := g.authorizations[k], g.Parent(k);
    && tx.version == 2
    && tx.inputs == PolicyInputs(g.ChainOutput(k), MONTHLY_SEQUENCE, g.Connector(k))
    && IsPaidTo(parent, ChainVout(k), g.vault) && IsPaidTo(parent, 2, g.controller)
    && parent.outputs[2].value == CONNECTOR_VALUE_SATS
    && |tx.outputs| == (if k + 1 < |g.authorizations| then 3 else 1)
    && tx.outputs[0].value == g.limit
  }

  predicate IsPaidTo(tx: Tx, vout: U32, script: Script) {
    vout < |tx.outputs| && tx.outputs[vout].script == script
  }

  predicate WellFormedEmergency(g: Graph)
    requires g.emergency.Some?
  {
    var (trigger, withdrawal) := g.emergency.value;
    && IsPaidTo(g.rollover, g.emergencyVout, g.controller)
    && trigger.version == 2 && withdrawal.version == 2
    && trigger.inputs == PolicyInputs(g.Remainder(), SEQUENCE_MAX, g.TriggerConnector())
    && |trigger.outputs| == 3
    && IsPaidTo(trigger, 0, g.vault) && IsPaidTo(trigger, 1, g.vault) && IsPaidTo(trigger, 2, g.controller)
    && withdrawal.inputs == PolicyInputs(g.Staging(), EMERGENCY_SEQUENCE, g.WithdrawalConnector())
    && |withdrawal.outputs| == 1 && withdrawal.outputs[0].value == g.amount
  }

  ghost predicate WellFormed(g: Graph) {
    && (forall k :: 0 <= k < |g.authorizations| ==> WellFormedStep(g, k))
    && IsPaidTo(g.rollover, g.remainderVout, g.vault)
    && (forall i :: 0 <= i < |g.rollover.outputs| ==> g.rollover.outputs[i].script in {g.vault, g.controller})
    && g.remainderVout == (if |g.authorizations| > 0 then 1 else 0)
    && g.emergencyVout == (if |g.authorizations| > 0 then 3 else 1)
    && (g.emergency.Some? ==> WellFormedEmergency(g))
    && g.vault != g.controller
  }

  // ----- From an accepted batch -----

  ghost function GraphOf(config: VaultConfig, batch: Batch): Graph
    requires ValidBatch(config, batch)
  {
    BatchParts(config, batch);
    EntriesPresent(config, batch);
    var m, files := batch.manifest, batch.files;
    Graph(files[m.rollover.file].tx,
          seq(|m.allowances|, k requires 0 <= k < |m.allowances| =>
            if m.allowances[k].authorization.file in files then files[m.allowances[k].authorization.file].tx
            else files[m.rollover.file].tx),
          if m.emergency.Some?
          then Some((files[m.emergency.value.trigger.file].tx, files[m.emergency.value.withdrawal.file].tx)) else None,
          m.monthlyLimit, m.emergencyLimit, RemainderVout(m), EmergencyVout(m), config.Vault(), config.Controller())
  }

  lemma {:induction false} EntriesPresent(config: VaultConfig, batch: Batch)
    requires ValidBatch(config, batch)
    ensures var m, files := batch.manifest, batch.files;
            && (forall k :: 0 <= k < |m.allowances| ==> m.allowances[k].authorization.file in files)
            && (m.emergency.Some? ==> m.emergency.value.trigger.file in files && m.emergency.value.withdrawal.file in files)
  {
    BatchParts(config, batch);
    var m, files := batch.manifest, batch.files;
    hide ValidBatch, ManifestTransactions, ValidRollover, ValidTrigger, ValidWithdrawal, ValidAuthorization;
    forall k | 0 <= k < |m.allowances|
      ensures m.allowances[k].authorization.file in files
    {
      assert ValidStep(config, m.monthlyLimit, m.allowanceCount, files, files[m.rollover.file].tx, m.allowances, k);
    }
  }

  // What one accepted step says about the transactions themselves.
  lemma {:induction false} StepShape(config: VaultConfig, limit: U64, count: nat, files: Files, rollover: Tx,
                                     allowances: seq<AllowanceStep>, k: nat)
    requires k < |allowances| == count && ValidStep(config, limit, count, files, rollover, allowances, k)
    ensures allowances[k].authorization.file in files
    ensures var tx := files[allowances[k].authorization.file].tx;
            var parent := ParentTx(files, rollover, allowances, k);
            && parent.Some? && ChainVout(k) < |parent.value.outputs|
            && tx.version == 2
            && tx.inputs == PolicyInputs(OutPoint(TxidOf(parent.value), ChainVout(k)), MONTHLY_SEQUENCE, OutPoint(TxidOf(parent.value), 2))
            && parent.value.outputs[ChainVout(k)].value == allowances[k].chainValue
            && |tx.outputs| == (if k + 1 < count then 3 else 1) && tx.outputs[0].value == limit
            && (k + 1 < count ==> tx.outputs[1].script == config.Vault() && tx.outputs[2] == ConnectorOutput(config.Controller()))
  {
    hide ValidChild, PolicyVsize, MinimalNonDust;
  }

  lemma {:induction false} RolloverShapeOf(config: VaultConfig, m: Manifest, p: Psbt)
    requires ValidRollover(config, m, p)
    ensures IsPaidTo(p.tx, RemainderVout(m), config.Vault())
    ensures m.allowanceCount > 0 ==> |p.tx.outputs| > 2 && p.tx.outputs[0].script == config.Vault()
                                     && p.tx.outputs[2] == ConnectorOutput(config.Controller())
    ensures m.emergencyLimit > 0 ==> IsPaidTo(p.tx, EmergencyVout(m), config.Controller())
    ensures |p.tx.inputs| > 0
    ensures forall i :: 0 <= i < |p.tx.outputs| ==> p.tx.outputs[i].script in {config.Vault(), config.Controller()}
    ensures forall i :: 0 <= i < |p.tx.inputs| ==> |p.inputs| == |p.tx.inputs| && p.inputs[i].utxo.Some?
                                                   && p.inputs[i].utxo.value.script in {config.Vault(), config.Controller()}
  {
    hide PolicyVsize, MinimalNonDust;
    var V, C := m.rollover.vaultIndexes, m.rollover.controllerIndexes;
    PartitionIsExact(|p.tx.inputs|, V, C);
    forall i | 0 <= i < |p.tx.inputs|
      ensures p.inputs[i].utxo.Some? && p.inputs[i].utxo.value.script in {config.Vault(), config.Controller()}
    {
      hide RolloverOutputs;
      assert i in V || i in C;
    }
  }

  lemma {:induction false} EmergencyShape(config: VaultConfig, limit: U64, remainderVout: U32, connectorVout: U32,
                                          files: Files, rollover: Tx, e: EmergencyPolicy)
    requires ValidEmergency(config, limit, remainderVout, connectorVout, files, rollover, Some(e))
    ensures limit > 0 && e.trigger.file in files && e.withdrawal.file in files
    ensures var trigger, withdrawal := files[e.trigger.file].tx, files[e.withdrawal.file].tx;
            && trigger == TriggerTemplate(OutPoint(TxidOf(rollover), remainderVout), OutPoint(TxidOf(rollover), connectorVout),
                                          e.stagingValue, e.changeValue, config.Vault(), config.Controller())
            && withdrawal == WithdrawalTemplate(OutPoint(TxidOf(trigger), 0), OutPoint(TxidOf(trigger), 2), limit, e.hotAddress.script)
  {
    hide ValidChild, PolicyVsize, MinimalNonDust;
  }

  /** Every accepted batch is such a graph. */
  lemma {:induction false} GraphIsWellFormed(config: VaultConfig, batch: Batch)
    requires ValidBatch(config, batch)
    ensures var m, g := batch.manifest, GraphOf(config, batch);
            && WellFormed(g)
            && |g.authorizations| == |m.allowances| == m.allowanceCount && g.limit == m.monthlyLimit && g.amount == m.emergencyLimit
            && (g.emergency.Some? <==> m.emergencyLimit > 0)
  {
    var m, g := batch.manifest, GraphOf(config, batch);
    BatchParts(config, batch);
    forall k | 0 <= k < |g.authorizations|
      ensures WellFormedStep(g, k)
    {
      GraphStep(config, batch, k);
    }
    GraphEnds(config, batch);
    hide ValidBatch, WellFormedStep, WellFormedEmergency, ValidRollover, ValidEmergency, ValidStep, ManifestTransactions;
  }

  lemma {:induction false} GraphStep(config: VaultConfig, batch: Batch, k: nat)
    requires ValidBatch(config, batch) && k < |GraphOf(config, batch).authorizations|
    ensures WellFormedStep(GraphOf(config, batch), k)
  {
    hide ValidBatch, ManifestTransactions, ValidRollover, ValidEmergency, ValidStep, ValidHeader;
    var m, files, g := batch.manifest, batch.files, GraphOf(config, batch);
    BatchParts(config, batch);
    EntriesPresent(config, batch);
    var rollover := files[m.rollover.file];
    RolloverShapeOf(config, m, rollover);
    StepShape(config, m.monthlyLimit, m.allowanceCount, files, rollover.tx, m.allowances, k);
    if k > 0 {
      StepShape(config, m.monthlyLimit, m.allowanceCount, files, rollover.tx, m.allowances, k - 1);
    }
    assert ParentTx(files, rollover.tx, m.allowances, k) == Some(g.Parent(k));
  }

  lemma {:induction false} GraphEnds(config: VaultConfig, batch: Batch)
    requires ValidBatch(config, batch)
    ensures var m, g := batch.manifest, GraphOf(config, batch);
            && IsPaidTo(g.rollover, g.remainderVout, g.vault)
            && (forall i :: 0 <= i < |g.rollover.outputs| ==> g.rollover.outputs[i].script in {g.vault, g.controller})
            && (g.emergency.Some? <==> m.emergencyLimit > 0)
            && (g.emergency.Some? ==> WellFormedEmergency(g))
            && |m.allowances| == m.allowanceCount
  {
    var m, files, g := batch.manifest, batch.files, GraphOf(config, batch);
    BatchParts(config, batch);
    EntriesPresent(config, batch);
    hide ValidBatch, ManifestTransactions, ValidRollover, ValidEmergency, ValidStep;
    var rollover := files[m.rollover.file];
    RolloverShapeOf(config, m, rollover);
    if m.emergency.Some? {
      EmergencyShape(config, m.emergencyLimit, RemainderVout(m), EmergencyVout(m), files, rollover.tx, m.emergency.value);
    } else {
      NoEmergency(config, m.emergencyLimit, RemainderVout(m), EmergencyVout(m), files, rollover.tx);
    }
  }

  lemma {:induction false} NoEmergency(config: VaultConfig, limit: U64, remainderVout: U32, connectorVout: U32, files: Files, rollover: Tx)
    requires ValidEmergency(config, limit, remainderVout, connectorVout, files, rollover, None)
    ensures limit == 0
  {
  }

  /** The chain output of step k holds the value that the manifest reports for it. */
  lemma {:induction false} ChainOutputValue(config: VaultConfig, batch: Batch, k: nat)
    requires ValidBatch(config, batch) && k < batch.manifest.allowanceCount
    ensures var g := GraphOf(config, batch);
            && k < |g.authorizations| && k < |batch.manifest.allowances| && ChainVout(k) < |g.Parent(k).outputs|
            && g.Parent(k).outputs[ChainVout(k)].value == batch.manifest.allowances[k].chainValue
  {
    var m, files, g := batch.manifest, batch.files, GraphOf(config, batch);
    BatchParts(config, batch);
    EntriesPresent(config, batch);
    hide ValidBatch, ManifestTransactions, ValidRollover, ValidEmergency, ValidStep;
    StepShape(config, m.monthlyLimit, m.allowanceCount, files, files[m.rollover.file].tx, m.allowances, k);
  }

  /** The members of a graph are the transactions of its batch's manifest entries. */
  lemma {:induction false} TransactionsAreEntries(config: VaultConfig, batch: Batch, tx: Tx)
    requires ValidBatch(config, batch)
    ensures tx in GraphOf(config, batch).Transactions()
       <==> exists t :: t in ManifestTransactions(batch.manifest) && t.file in batch.files && batch.files[t.file].tx == tx
  {
    if exists t :: t in ManifestTransactions(batch.manifest) && t.file in batch.files && batch.files[t.file].tx == tx {
      var t :| t in ManifestTransactions(batch.manifest) && t.file in batch.files && batch.files[t.file].tx == tx;
      EntryIsMember(config, batch, t);
    }
    if tx in GraphOf(config, batch).Transactions() {
      MemberHasEntry(config, batch, tx);
    }
    hide ValidBatch, ManifestTransactions, GraphOf;
  }

  lemma {:induction false} EntryIsMember(config: VaultConfig, batch: Batch, t: BatchTransaction)
    requires ValidBatch(config, batch) && t in ManifestTransactions(batch.manifest)
    ensures t.file in batch.files && batch.files[t.file].tx in GraphOf(config, batch).Transactions()
  {
    var m, files, g := batch.manifest, batch.files, GraphOf(config, batch);
    EntriesPresent(config, batch);
    BatchParts(config, batch);
    EntryCases(m, t);
    hide ValidBatch, ManifestTransactions, ValidRollover, ValidEmergency, ValidStep, ValidHeader;
    if k :| 0 <= k < |m.allowances| && t == m.allowances[k].authorization {
      assert g.authorizations[k] == files[t.file].tx;
    }
  }

  lemma {:induction false} MemberHasEntry(config: VaultConfig, batch: Batch, tx: Tx)
    requires ValidBatch(config, batch) && tx in GraphOf(config, batch).Transactions()
    ensures exists t :: t in ManifestTransactions(batch.manifest) && t.file in batch.files && batch.files[t.file].tx == tx
  {
    var m, files, g := batch.manifest, batch.files, GraphOf(config, batch);
    EntriesPresent(config, batch);
    BatchParts(config, batch);
    AllEntriesListed(m);
    hide ValidBatch, ManifestTransactions, ValidRollover, ValidEmergency, ValidStep, ValidHeader;
    var t: BatchTransaction;
    if tx == g.rollover {
      t := m.rollover;
    } else if k :| 0 <= k < |g.authorizations| && g.authorizations[k] == tx {
      t := m.allowances[k].authorization;
    } else if tx == g.emergency.value.0 {
      t := m.emergency.value.trigger;
    } else {
      t := m.emergency.value.withdrawal;
    }
    assert t in ManifestTransactions(m) && t.file in files && files[t.file].tx == tx;
  }
}
