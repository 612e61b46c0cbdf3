/** Broadcasting the emergency transactions of the active schedule, and what the schedule names
    (src/hot_wallet/mod.rs). */
module EmergencyBroadcast {
  import opened Wrappers
  import opened Bitcoin
  import opened Fees
  import opened Psbts
  import opened Ceremony
  import opened ColdSigner
  import opened Activation
  import opened ActivationSafety
  import opened MonthlyBroadcast
  import Graph

  /** The txid and the connector that the schedule names for this transaction. */
  function ScheduledTxid(e: EmergencySchedule, kind: EmergencyKind): Txid {
    if kind.Trigger? then e.triggerTxid else e.withdrawalTxid
  }

  function ScheduledConnector(e: EmergencySchedule, kind: EmergencyKind): ConnectorState {
    if kind.Trigger? then e.triggerConnector else e.withdrawalConnector
  }

  ghost predicate EmergencyBroadcastable(config: VaultConfig, d: Disk, kind: EmergencyKind) {
    && d.schedule.Some? && d.schedule.value.version == 5 && d.schedule.value.emergency.Some?
    && var s, e := d.schedule.value, d.schedule.value.emergency.value;
    && s.controller == config.Controller() && s.connectorValue == CONNECTOR_VALUE_SATS
    && var stored := d.Dir(s.rolloverTxid).emergencies;
    && (kind, ScheduledTxid(e, kind)) in stored
    && Passes(config, stored[(kind, ScheduledTxid(e, kind))], ScheduledTxid(e, kind), ScheduledConnector(e, kind))
  }

  /** `broadcast_emergency_transaction`, up to the transaction that it hands to the backend. */
  method EmergencyToBroadcast(config: VaultConfig, d: Disk, kind: EmergencyKind) returns (r: Result<Tx>)
    ensures r.Success? <==> EmergencyBroadcastable(config, d, kind)
    ensures r.Success? ==>
              && d.schedule.Some? && d.schedule.value.emergency.Some?
              && TxidOf(r.value) == ScheduledTxid(d.schedule.value.emergency.value, kind)
  {
    hide Passes, AllFinalize, Signed, HasPrevouts, CanSign, DefaultSighashes, CanFinalize;
    if d.schedule.None? || d.schedule.value.version != 5 {
      return Failure("unsupported policy version");
    }
    var s := d.schedule.value;
    if s.emergency.None? {
      return Failure("emergency access disabled");
    }
    var txid, connector := ScheduledTxid(s.emergency.value, kind), ScheduledConnector(s.emergency.value, kind);
    var stored := d.Dir(s.rolloverTxid).emergencies;
    if (kind, txid) !in stored || s.controller != config.Controller() || s.connectorValue != CONNECTOR_VALUE_SATS {
      return Failure("schedule of other keys");
    }
    r := SignStored(config, stored[(kind, txid)], txid, connector);
    PassesNames(config, stored[(kind, txid)], txid, connector);
  }

  lemma {:induction false} PassesNames(config: VaultConfig, p: Psbt, txid: Txid, connector: ConnectorState)
    ensures Passes(config, p, txid, connector) ==> TxidOf(p.tx) == txid
  {
  }

  /** What every emergency transaction that leaves the phone satisfies. */
  lemma {:induction false} EmergencyIsScheduled(config: VaultConfig, d: Disk, kind: EmergencyKind)
    requires EmergencyBroadcastable(config, d, kind)
    ensures d.schedule.Some? && d.schedule.value.emergency.Some? && d.schedule.value.version == 5
    ensures d.schedule.value.controller == config.Controller() && d.schedule.value.connectorValue == 1_000
    ensures var e, stored := d.schedule.value.emergency.value, d.Dir(d.schedule.value.rolloverTxid).emergencies;
            var txid := if kind == Trigger then e.triggerTxid else e.withdrawalTxid;
            var connector := if kind == Trigger then e.triggerConnector else e.withdrawalConnector;
            && (kind, txid) in stored && TxidOf(stored[(kind, txid)].tx) == txid
            && |stored[(kind, txid)].tx.inputs| > 1 && stored[(kind, txid)].tx.inputs[1].prevout == connector.outpoint
            && |stored[(kind, txid)].inputs| > 1 && stored[(kind, txid)].inputs[1].utxo.Some?
            && stored[(kind, txid)].inputs[1].utxo.value.value == connector.value
  {
    hide AllFinalize, Signed, CanSign, DefaultSighashes;
  }

  // ----- What an accepted policy stores -----

  // Both emergency PSBTs are children whose connector is the one in the manifest.
  lemma {:induction false} EmergencyChildren(config: VaultConfig, limit: U64, remainderVout: U32, connectorVout: U32, files: Files,
                                             rollover: Tx, e: EmergencyPolicy)
    requires ValidEmergency(config, limit, remainderVout, connectorVout, files, rollover, Some(e))
    ensures e.trigger.file in files && e.withdrawal.file in files
    ensures e.trigger.vaultIndexes == [0] && e.withdrawal.vaultIndexes == [0]
    ensures ConnectorChildOf(config, files[e.trigger.file], e.triggerConnector)
    ensures ConnectorChildOf(config, files[e.withdrawal.file], e.withdrawalConnector)
  {
    hide PolicyVsize, MinimalNonDust;
  }

  predicate ConnectorChildOf(config: VaultConfig, p: Psbt, connector: ConnectorState) {
    && HasPrevouts(p) && |p.inputs| == 2 && ConsumesConnector(p, connector)
    && p.inputs[1].signatures == map[] && p.inputs[1].utxo == Some(ConnectorOutput(config.Controller()))
  }

  function NamedConnector(e: EmergencyPolicy, kind: EmergencyKind): ConnectorState {
    if kind.Trigger? then e.triggerConnector else e.withdrawalConnector
  }

  lemma {:induction false} EmergencyFacts(config: VaultConfig, batch: Batch, kind: EmergencyKind)
    requires ValidApproved(config, batch) && Complete(batch) && batch.manifest.emergency.Some?
    ensures var p := EmergencyPsbt(batch, kind);
            && ConnectorChildOf(config, p, NamedConnector(batch.manifest.emergency.value, kind))
            && DefaultSighashes(p) && CanFinalize(p, 0)
    ensures batch.manifest.controllerDescriptor == config.Controller() && batch.manifest.connectorValue == CONNECTOR_VALUE_SATS
  {
    var m := batch.manifest;
    var e := m.emergency.value;
    var t := if kind.Trigger? then e.trigger else e.withdrawal;
    ApprovedIsValid(config, batch);
    AllEntriesListed(m);
    BatchParts(config, batch);
    EntriesReadable(config, batch);
    assert EntryApproved(config, m, batch.files, t);
    hide ValidBatch, ManifestTransactions, ValidRollover, ValidStep, ValidEmergency, ValidApproved, SignedBy, CanFinalize, ConnectorChildOf,
         DefaultSighashes;
    EmergencyChildren(config, m.emergencyLimit, RemainderVout(m), EmergencyVout(m), batch.files, batch.files[m.rollover.file].tx, e);
    assert t.vaultIndexes[0] == 0;
  }

  /** Each emergency transaction of the active schedule can be broadcast exactly when its connector names
      the phone and lists the phone's leaf; without an emergency amount none can. */
  lemma {:induction false} ScheduledEmergencyBroadcasts(config: VaultConfig, d: Disk, batch: Batch, kind: EmergencyKind)
    requires ActiveHolds(config, d, batch)
    ensures EmergencyBroadcastable(config, d, kind)
       <==> batch.manifest.emergency.Some? && ConnectorUsable(config, EmergencyPsbt(batch, kind))
  {
    if batch.manifest.emergency.Some? {
      EmergencyFacts(config, batch, kind);
      var p := EmergencyPsbt(batch, kind);
      ConnectorFinalizes(config, p);
      EmergencyNames(batch, kind);
      hide ValidApproved, AllFinalize, Signed, CanFinalize, ListsLeaf, DefaultSighashes, ConsumesConnector, EmergencyFor, EntryFor;
      assert (kind, TxidOf(p.tx)) in d.Dir(Epoch(batch)).emergencies;
    }
    hide ValidApproved, Passes;
  }

  // What the schedule says of the emergency is what the batch has.
  lemma {:induction false} EmergencyNames(batch: Batch, kind: EmergencyKind)
    requires Complete(batch) && batch.manifest.emergency.Some?
    ensures var s := ScheduleFor(batch);
            && s.emergency.Some? && ScheduledTxid(s.emergency.value, kind) == TxidOf(EmergencyPsbt(batch, kind).tx)
            && ScheduledConnector(s.emergency.value, kind) == NamedConnector(batch.manifest.emergency.value, kind)
  {
  }

  // ----- The schedule and the graph -----

  /** A schedule describes a graph: every txid, connector, amount and address that it names is the graph's. */
  ghost predicate Describes(config: VaultConfig, s: Schedule, g: Graph.Graph) {
    && s.rolloverTxid == TxidOf(g.rollover) && s.controller == g.controller && s.connectorValue == 1_000
    && s.monthlyLimit == g.limit && s.emergencyLimit == g.amount
    && |s.entries| == |g.authorizations|
    && (forall k :: 0 <= k < |s.entries| ==> DescribesStep(config, s.entries[k], g, k))
    && (s.emergency.Some? <==> g.emergency.Some?)
    && (s.emergency.Some? ==> DescribesEmergency(config, s.emergency.value, g))
  }

  ghost predicate DescribesStep(config: VaultConfig, entry: ScheduleEntry, g: Graph.Graph, k: nat)
    requires k < |g.authorizations|
  {
    var tx := g.authorizations[k];
    && entry.step == k + 1 && entry.authorizationTxid == TxidOf(tx)
    && entry.connector == ConnectorState(g.Connector(k), 1_000)
    && entry.nextConnector == (if k + 1 < |g.authorizations| then Some(ConnectorState(g.Connector(k + 1), 1_000)) else None)
    && |tx.outputs| > 0 && tx.outputs[0].script == entry.hotAddress.script && entry.hotAddress.network == config.network
  }

  ghost predicate DescribesEmergency(config: VaultConfig, e: EmergencySchedule, g: Graph.Graph)
    requires g.emergency.Some?
  {
    var (trigger, withdrawal) := g.emergency.value;
    && e.amount == g.amount && e.triggerTxid == TxidOf(trigger) && e.withdrawalTxid == TxidOf(withdrawal)
    && e.triggerConnector == ConnectorState(g.TriggerConnector(), 1_000)
    && e.withdrawalConnector == ConnectorState(g.WithdrawalConnector(), 1_000)
    && |withdrawal.outputs| > 0 && withdrawal.outputs[0].script == e.hotAddress.script && e.hotAddress.network == config.network
  }

  lemma {:induction false} StepNames(config: VaultConfig, limit: U64, count: nat, files: Files, rollover: Tx, allowances: seq<AllowanceStep>,
                                     k: nat)
    requires k < |allowances| == count && ValidStep(config, limit, count, files, rollover, allowances, k)
    ensures allowances[k].authorization.file in files
    ensures var a, tx := allowances[k], files[allowances[k].authorization.file].tx;
            var parent := ParentTx(files, rollover, allowances, k);
            && parent.Some? && a.step == k + 1
            && a.connector == ConnectorState(OutPoint(TxidOf(parent.value), 2), CONNECTOR_VALUE_SATS)
            && a.nextConnector == (if k + 1 < count then Some(ConnectorState(OutPoint(TxidOf(tx), 2), CONNECTOR_VALUE_SATS)) else None)
            && |tx.outputs| > 0 && tx.outputs[0].script == a.hotAddress.script && a.hotAddress.network == config.network
  {
    hide PolicyVsize, MinimalNonDust, ValidChild;
  }

  lemma {:induction false} StepIsDescribed(config: VaultConfig, batch: Batch, k: nat)
    requires ValidBatch(config, batch) && Complete(batch) && k < |batch.manifest.allowances|
    ensures k < |Graph.GraphOf(config, batch).authorizations|
    ensures DescribesStep(config, EntryFor(batch, k), Graph.GraphOf(config, batch), k)
  {
    var m, files, g := batch.manifest, batch.files, Graph.GraphOf(config, batch);
    StepAt(config, batch, k);
    Graph.EntriesPresent(config, batch);
    StepNames(config, m.monthlyLimit, m.allowanceCount, files, files[m.rollover.file].tx, m.allowances, k);
    hide ValidBatch, ValidStep;
    assert g.authorizations[k] == files[m.allowances[k].authorization.file].tx;
    assert ParentTx(files, files[m.rollover.file].tx, m.allowances, k) == Some(g.Parent(k));
  }

  lemma {:induction false} EmergencyPolicyNames(config: VaultConfig, limit: U64, remainderVout: U32, connectorVout: U32, files: Files,
                                                rollover: Tx, e: EmergencyPolicy)
    requires ValidEmergency(config, limit, remainderVout, connectorVout, files, rollover, Some(e))
    ensures e.trigger.file in files && e.withdrawal.file in files
    ensures var trigger, withdrawal := files[e.trigger.file].tx, files[e.withdrawal.file].tx;
            && e.amount == limit && e.hotAddress.network == config.network
            && e.triggerConnector == ConnectorState(OutPoint(TxidOf(rollover), connectorVout), CONNECTOR_VALUE_SATS)
            && e.withdrawalConnector == ConnectorState(OutPoint(TxidOf(trigger), 2), CONNECTOR_VALUE_SATS)
            && |withdrawal.outputs| > 0 && withdrawal.outputs[0].script == e.hotAddress.script
  {
    hide PolicyVsize, MinimalNonDust, ValidChild;
  }

  lemma {:induction false} EmergencyIsDescribed(config: VaultConfig, batch: Batch)
    requires ValidBatch(config, batch) && Complete(batch) && batch.manifest.emergency.Some?
    ensures Graph.GraphOf(config, batch).emergency.Some? && EmergencyFor(batch).Some?
    ensures DescribesEmergency(config, EmergencyFor(batch).value, Graph.GraphOf(config, batch))
  {
    var m, files := batch.manifest, batch.files;
    BatchParts(config, batch);
    EmergencyPolicyNames(config, m.emergencyLimit, RemainderVout(m), EmergencyVout(m), files, files[m.rollover.file].tx, m.emergency.value);
    hide ValidBatch, ValidStep, ValidRollover, ValidEmergency, ManifestTransactions;
  }

  /** The schedule that activation writes describes the graph of the accepted policy. */
  lemma {:induction false} ScheduleDescribesGraph(config: VaultConfig, batch: Batch)
    requires ValidBatch(config, batch) && Complete(batch)
    ensures Describes(config, ScheduleFor(batch), Graph.GraphOf(config, batch))
  {
    var s, g := ScheduleFor(batch), Graph.GraphOf(config, batch);
    BatchParts(config, batch);
    Graph.GraphIsWellFormed(config, batch);
    if batch.manifest.emergency.Some? {
      EmergencyIsDescribed(config, batch);
    }
    forall k | 0 <= k < |s.entries|
      ensures k < |g.authorizations| && DescribesStep(config, s.entries[k], g, k)
    {
      StepIsDescribed(config, batch, k);
    }
    hide ValidBatch, DescribesStep, DescribesEmergency, ValidRollover, ValidStep, ValidEmergency, ManifestTransactions, EntryFor,
         EmergencyFor, Graph.WellFormed;
    SchedulesGraph(config, batch);
  }

  lemma {:induction false} SchedulesGraph(config: VaultConfig, batch: Batch)
    requires ValidBatch(config, batch) && Complete(batch)
    ensures var s, g := ScheduleFor(batch), Graph.GraphOf(config, batch);
            && s.rolloverTxid == TxidOf(g.rollover) && s.controller == g.controller && s.connectorValue == 1_000
            && s.monthlyLimit == g.limit && s.emergencyLimit == g.amount && |s.entries| == |g.authorizations|
            && (s.emergency.Some? <==> g.emergency.Some?)
  {
    BatchParts(config, batch);
    hide ValidBatch, ValidRollover, ValidStep, ValidEmergency, ManifestTransactions;
  }

  /** In every history with one policy per epoch: the active schedule describes the graph of an accepted
      policy, and both emergency transactions that it names are on the phone. What is stored there is the
      approved trigger and the approved withdrawal; the withdrawal spends the trigger's first output and its
      connector. */
  lemma {:induction false} ActiveEmergencyIsStored(config: VaultConfig, disks: seq<Disk>, attempts: seq<Attempt>, n: nat) returns (i: nat)
    requires History(config, disks, attempts) && n < |disks|
    requires disks[0].schedule.None? && OnePolicyPerEpoch(attempts)
    ensures disks[n].schedule.Some? ==>
              && i < n && ValidBatch(config, attempts[i].batch)
              && var s, g := disks[n].schedule.value, Graph.GraphOf(config, attempts[i].batch);
              && Describes(config, s, g) && (s.emergency.Some? ==> StoresEmergency(disks[n].Dir(s.rolloverTxid), s.emergency.value, g))
  {
    i := ActiveIsStored(config, disks, attempts, n);
    if disks[n].schedule.Some? {
      ApprovedIsValid(config, attempts[i].batch);
      ScheduleDescribesGraph(config, attempts[i].batch);
      StoredEmergency(config, disks[n], attempts[i].batch);
      hide History, OnePolicyPerEpoch, ValidApproved, ValidBatch, Describes, StoresEmergency;
    }
  }

  ghost predicate StoresEmergency(dir: EpochDir, e: EmergencySchedule, g: Graph.Graph)
    requires g.emergency.Some?
  {
    var (trigger, withdrawal) := g.emergency.value;
    && (Trigger, e.triggerTxid) in dir.emergencies && dir.emergencies[(Trigger, e.triggerTxid)].tx == trigger
    && (Withdrawal, e.withdrawalTxid) in dir.emergencies && dir.emergencies[(Withdrawal, e.withdrawalTxid)].tx == withdrawal
    && |trigger.inputs| == 2 && trigger.inputs[0].prevout == g.Remainder() && trigger.inputs[1].prevout == e.triggerConnector.outpoint
    && |withdrawal.inputs| == 2 && withdrawal.inputs[0].prevout == OutPoint(e.triggerTxid, 0)
    && withdrawal.inputs[1].prevout == e.withdrawalConnector.outpoint == OutPoint(e.triggerTxid, 2)
  }

  lemma {:induction false} StoredEmergency(config: VaultConfig, d: Disk, batch: Batch)
    requires ActiveHolds(config, d, batch) && ValidBatch(config, batch)
    ensures var s, g := ScheduleFor(batch), Graph.GraphOf(config, batch);
            s.emergency.Some? ==> g.emergency.Some? && StoresEmergency(d.Dir(s.rolloverTxid), s.emergency.value, g)
  {
    if batch.manifest.emergency.Some? {
      EmergencyIsDescribed(config, batch);
      EmergencyNames(batch, Trigger);
      EmergencyNames(batch, Withdrawal);
      GraphEmergency(config, batch);
      hide ValidApproved, ValidBatch;
      assert (Trigger, TxidOf(EmergencyPsbt(batch, Trigger).tx)) in d.Dir(Epoch(batch)).emergencies;
      assert (Withdrawal, TxidOf(EmergencyPsbt(batch, Withdrawal).tx)) in d.Dir(Epoch(batch)).emergencies;
    }
  }

  lemma {:induction false} GraphEmergency(config: VaultConfig, batch: Batch)
    requires ValidBatch(config, batch) && Complete(batch) && batch.manifest.emergency.Some?
    ensures var g := Graph.GraphOf(config, batch);
            && g.emergency == Some((EmergencyPsbt(batch, Trigger).tx, EmergencyPsbt(batch, Withdrawal).tx))
            && Graph.WellFormedEmergency(g)
  {
    Graph.GraphIsWellFormed(config, batch);
    hide ValidBatch;
  }
}
