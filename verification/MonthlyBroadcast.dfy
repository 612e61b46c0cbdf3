/** Broadcasting a scheduled allowance (src/hot_wallet/mod.rs): what the active schedule names is
    always on the phone, as long as no two policies share one rollover. */
module MonthlyBroadcast {
  import opened Wrappers
  import opened Bitcoin
  import opened Fees
  import opened Psbts
  import opened Ceremony
  import opened ColdSigner
  import opened Activation
  import opened ActivationSafety

  /** `ensure_connector_input`. */
  predicate ConsumesConnector(p: Psbt, connector: ConnectorState) {
    && |p.tx.inputs| > 1 && p.tx.inputs[1].prevout == connector.outpoint
    && |p.inputs| > 1 && p.inputs[1].utxo.Some? && p.inputs[1].utxo.value.value == connector.value
  }

  // The entry with this step, when it is the first one.
  ghost predicate IsEntryFor(s: Schedule, step: nat, k: nat) {
    k < |s.entries| && s.entries[k].step == step && forall j :: 0 <= j < k ==> s.entries[j].step != step
  }

  /** A stored PSBT is the named transaction, consumes the named connector, can be signed by the phone, and
      can then be finalized. */
  ghost predicate Passes(config: VaultConfig, p: Psbt, txid: Txid, connector: ConnectorState) {
    && TxidOf(p.tx) == txid && ConsumesConnector(p, connector)
    && DefaultSighashes(p) && CanSign(p, config.phone, ControllerLeaf(config.phone), 1)
    && AllFinalize(Signed(p, config.phone, ControllerLeaf(config.phone), [1]))
  }

  ghost predicate StoredPasses(config: VaultConfig, p: Psbt, entry: ScheduleEntry) {
    Passes(config, p, entry.authorizationTxid, entry.connector)
  }

  /** The stored authorization of this entry passes every check made before the broadcast. */
  ghost predicate Broadcastable(config: VaultConfig, d: Disk, step: nat, k: nat) {
    && d.schedule.Some? && d.schedule.value.version == 5
    && var s := d.schedule.value;
    && IsEntryFor(s, step, k)
    && s.controller == config.Controller() && s.connectorValue == CONNECTOR_VALUE_SATS
    && var stored := d.Dir(s.rolloverTxid).authorizations;
    && step in stored && StoredPasses(config, stored[step], s.entries[k])
  }

  /** Some entry of the active schedule can be broadcast for this step. */
  ghost predicate CanBroadcast(config: VaultConfig, d: Disk, step: nat) {
    exists k: nat :: Broadcastable(config, d, step, k)
  }

  /** `broadcast_monthly`, up to the transaction that it hands to the backend. */
  method AuthorizationToBroadcast(config: VaultConfig, d: Disk, step: nat) returns (r: Result<Tx>)
    ensures r.Success? <==> CanBroadcast(config, d, step)
    ensures r.Success? ==>
              && d.schedule.Some? && step in d.Dir(d.schedule.value.rolloverTxid).authorizations
              && var p := d.Dir(d.schedule.value.rolloverTxid).authorizations[step];
              && r.value == p.tx && HasPrevouts(p) && AllFinalize(Signed(p, config.phone, ControllerLeaf(config.phone), [1]))
  {
    hide DefaultSighashes, CanSign, ConsumesConnector, IsEntryFor, Signed, HasPrevouts, AllFinalize;
    if d.schedule.None? || d.schedule.value.version != 5 {
      return Failure("unsupported policy version");
    }
    var s := d.schedule.value;
    var found := FindEntry(s, step);
    if found.None? {
      return Failure("no such allowance");
    }
    var k := found.value;
    assert k < |s.entries| by { EntryInRange(s, step, k); }
    var stored := d.Dir(s.rolloverTxid).authorizations;
    if step !in stored || s.controller != config.Controller() || s.connectorValue != CONNECTOR_VALUE_SATS {
      return Failure("schedule of other keys");
    }
    r := SignStored(config, stored[step], s.entries[k].authorizationTxid, s.entries[k].connector);
    assert r.Success? <==> Broadcastable(config, d, step, k);
  }

  lemma {:induction false} EntryInRange(s: Schedule, step: nat, k: nat)
    requires IsEntryFor(s, step, k)
    ensures k < |s.entries|
  {
  }

  method FindEntry(s: Schedule, step: nat) returns (r: Option<nat>)
    ensures r.Some? ==> forall k: nat :: IsEntryFor(s, step, k) <==> k == r.value
    ensures r.None? ==> forall k: nat :: !IsEntryFor(s, step, k)
  {
    var k := 0;
    while k < |s.entries|
      invariant k <= |s.entries|
      invariant forall j :: 0 <= j < k ==> s.entries[j].step != step
    {
      if s.entries[k].step == step {
        return Some(k);
      }
      k := k + 1;
    }
    return None;
  }

  method SignStored(config: VaultConfig, p: Psbt, txid: Txid, connector: ConnectorState) returns (r: Result<Tx>)
    ensures r.Success? <==> Passes(config, p, txid, connector)
    ensures r.Success? ==>
              && r.value == p.tx && HasPrevouts(p)
              && AllFinalize(Signed(p, config.phone, ControllerLeaf(config.phone), [1]))
  {
    hide DefaultSighashes, CanSign, Signed, AllFinalize;
    if TxidOf(p.tx) != txid {
      return Failure("not the scheduled transaction");
    }
    if !ConsumesConnector(p, connector) {
      return Failure("not the scheduled connector");
    }
    var signed := SignInputs(p, config.phone, ControllerLeaf(config.phone), [1]);
    assert signed.Success? ==> CanSign(p, config.phone, ControllerLeaf(config.phone), [1][0]);
    if signed.Failure? {
      return Failure("key not authorized");
    }
    SignerSeesPrevouts(p, config.phone, ControllerLeaf(config.phone), 1);
    SigningPreserves(p, config.phone, ControllerLeaf(config.phone), [1]);
    r := FinalizeVaultPsbt(signed.value);
  }

  lemma {:induction false} SignerSeesPrevouts(p: Psbt, key: Key, leaf: Leaf, index: nat)
    requires CanSign(p, key, leaf, index)
    ensures HasPrevouts(p)
  {
  }

  /** What every allowance that leaves the phone satisfies: it is the transaction that the active schedule
      names for this step, spends the named connector at its scheduled value, and the schedule is one of the
      configured keys. */
  lemma {:induction false} BroadcastIsScheduled(config: VaultConfig, d: Disk, step: nat)
    requires CanBroadcast(config, d, step)
    ensures d.schedule.Some? && d.schedule.value.version == 5 && d.schedule.value.controller == config.Controller()
    ensures d.schedule.value.connectorValue == 1_000
    ensures exists k: nat ::
              && k < |d.schedule.value.entries| && d.schedule.value.entries[k].step == step
              && var entry, stored := d.schedule.value.entries[k], d.Dir(d.schedule.value.rolloverTxid).authorizations;
              && step in stored && TxidOf(stored[step].tx) == entry.authorizationTxid
              && |stored[step].tx.inputs| > 1 && stored[step].tx.inputs[1].prevout == entry.connector.outpoint
              && |stored[step].inputs| > 1 && stored[step].inputs[1].utxo.Some?
              && stored[step].inputs[1].utxo.value.value == entry.connector.value
  {
    var k: nat :| Broadcastable(config, d, step, k);
    hide AllFinalize, Signed, CanSign, DefaultSighashes;
    assert k < |d.schedule.value.entries|;
  }

  // ----- The active schedule's files -----

  /** The directory holds every authorization of the policy, and both emergency transactions. */
  ghost predicate Holds(dir: EpochDir, batch: Batch)
    requires Complete(batch)
  {
    && (forall k :: 0 <= k < |batch.manifest.allowances| ==>
          && batch.manifest.allowances[k].step in dir.authorizations
          && dir.authorizations[batch.manifest.allowances[k].step] == Authorization(batch, k))
    && HoldsEmergency(dir, batch)
  }

  /** The PSBT of one emergency transaction. */
  function EmergencyPsbt(batch: Batch, kind: EmergencyKind): Psbt
    requires Complete(batch) && batch.manifest.emergency.Some?
  {
    var e := batch.manifest.emergency.value;
    if kind.Trigger? then batch.files[e.trigger.file] else batch.files[e.withdrawal.file]
  }

  ghost predicate HoldsEmergency(dir: EpochDir, batch: Batch)
    requires Complete(batch)
  {
    batch.manifest.emergency.Some? ==>
      forall kind :: var p := EmergencyPsbt(batch, kind);
        (kind, TxidOf(p.tx)) in dir.emergencies && dir.emergencies[(kind, TxidOf(p.tx))] == p
  }

  predicate StepsInOrder(batch: Batch) {
    forall k :: 0 <= k < |batch.manifest.allowances| ==> batch.manifest.allowances[k].step == k + 1
  }

  lemma {:induction false} AuthorizationMapHolds(batch: Batch, n: nat)
    requires Complete(batch) && StepsInOrder(batch) && n <= |batch.manifest.allowances|
    ensures forall step :: step in AuthorizationMap(batch, n) <==> 1 <= step <= n
    ensures forall k :: 0 <= k < n ==> AuthorizationMap(batch, n)[k + 1] == Authorization(batch, k)
  {
    if n > 0 {
      AuthorizationMapHolds(batch, n - 1);
    }
  }

  /** The active schedule belongs to `batch`, and all that it names is stored. */
  ghost predicate ActiveHolds(config: VaultConfig, d: Disk, batch: Batch) {
    && ValidApproved(config, batch) && Complete(batch) && StepsInOrder(batch)
    && d.schedule == Some(ScheduleFor(batch)) && Holds(d.Dir(Epoch(batch)), batch)
  }

  lemma {:induction false} ApprovedInOrder(config: VaultConfig, batch: Batch)
    requires ValidApproved(config, batch)
    ensures Complete(batch) && StepsInOrder(batch)
  {
    ApprovedIsComplete(config, batch);
    BatchParts(config, batch);
    var m := batch.manifest;
    hide ValidApproved, ValidBatch, ValidRollover, ValidEmergency, ValidAuthorization, ManifestTransactions;
    forall k | 0 <= k < |m.allowances|
      ensures m.allowances[k].step == k + 1
    {
      assert ValidStep(config, m.monthlyLimit, m.allowanceCount, batch.files, batch.files[m.rollover.file].tx, m.allowances, k);
    }
  }

  predicate SameEpoch(a: Batch, b: Batch) {
    Complete(a) && Complete(b) && Epoch(a) == Epoch(b)
  }

  /** No two attempted policies share a rollover. */
  ghost predicate OnePolicyPerEpoch(attempts: seq<Attempt>) {
    forall i, j :: 0 <= i < |attempts| && 0 <= j < |attempts| && SameEpoch(attempts[i].batch, attempts[j].batch) ==>
      attempts[i].batch == attempts[j].batch
  }

  lemma {:induction false} EmergencyMapHolds(dir: EpochDir, batch: Batch, j: int)
    requires Complete(batch)
    ensures HoldsEmergency(dir, batch) || j >= 2 ==>
              HoldsEmergency(dir.(emergencies := dir.emergencies + EmergencyMap(batch, j)), batch)
  {
  }

  // An attempt for the same policy, or for another epoch, keeps what is stored.
  lemma {:induction false} AttemptKeeps(d: Disk, active: Batch, batch: Batch, n: nat)
    requires Complete(active) && StepsInOrder(active) && Complete(batch)
    requires batch == active || Epoch(batch) != Epoch(active)
    requires Holds(d.Dir(Epoch(active)), active)
    ensures Holds(StateAt(d, batch, n).Dir(Epoch(active)), active)
  {
    hide EmergencyMap, ScheduleFor;
    EmergencyMapHolds(d.Dir(Epoch(active)), active, n - 2 - |active.manifest.allowances|);
    hide HoldsEmergency;
    if batch == active {
      AuthorizationMapHolds(active, Clamp(n - 2, |active.manifest.allowances|));
      SameEmergencies(StateAt(d, batch, n).Dir(Epoch(active)),
                      d.Dir(Epoch(active)).(emergencies := d.Dir(Epoch(active)).emergencies + EmergencyMap(active, n - 2 - |active.manifest.allowances|)),
                      d.Dir(Epoch(active)), active);
    } else {
      hide DirAt;
    }
  }

  // Once the new schedule is active, everything it names has been staged.
  lemma {:induction false} NewlyHeld(d: Disk, batch: Batch, n: nat)
    requires Complete(batch) && StepsInOrder(batch) && n > SwitchPosition(batch, Previous(d))
    ensures Holds(StateAt(d, batch, n).Dir(Epoch(batch)), batch)
    ensures StateAt(d, batch, n).schedule == Some(ScheduleFor(batch))
  {
    hide EmergencyMap, ScheduleFor;
    var dir, j := d.Dir(Epoch(batch)), n - 2 - |batch.manifest.allowances|;
    EmergencyMapHolds(dir, batch, j);
    AuthorizationMapHolds(batch, |batch.manifest.allowances|);
    SameEmergencies(StateAt(d, batch, n).Dir(Epoch(batch)), dir.(emergencies := dir.emergencies + EmergencyMap(batch, j)), dir, batch);
    if batch.manifest.emergency.None? {
      NoEmergencyHolds(StateAt(d, batch, n).Dir(Epoch(batch)), batch);
    }
    hide HoldsEmergency;
  }

  lemma {:induction false} NoEmergencyHolds(dir: EpochDir, batch: Batch)
    requires Complete(batch) && batch.manifest.emergency.None?
    ensures HoldsEmergency(dir, batch)
  {
  }

  lemma {:induction false} SameEmergencies(dir: EpochDir, a: EpochDir, b: EpochDir, batch: Batch)
    requires Complete(batch)
    ensures dir.emergencies == a.emergencies && HoldsEmergency(a, batch) ==> HoldsEmergency(dir, batch)
    ensures dir.emergencies == b.emergencies && HoldsEmergency(b, batch) ==> HoldsEmergency(dir, batch)
  {
  }

  lemma {:induction false} AttemptKeepsActive(config: VaultConfig, d: Disk, active: Batch, a: Attempt)
    requires ActiveHolds(config, d, active)
    requires SameEpoch(a.batch, active) ==> a.batch == active
    ensures ActiveHolds(config, After(config, d, a), active) || ActiveHolds(config, After(config, d, a), a.batch)
  {
    if !Refuses(config, d, a.batch) {
      AfterIsStateAt(config, d, a);
      NotSuperseded(config, d, a.batch);
      ApprovedInOrder(config, a.batch);
      hide ValidApproved, After, Refuses, StateAt, ScheduleFor, Holds;
      var n := Reached(a.batch, d, a.cut, a.accepts);
      AttemptKeeps(d, active, a.batch, n);
      if n > SwitchPosition(a.batch, Previous(d)) {
        NewlyHeld(d, a.batch, n);
      } else {
        ScheduleUnmoved(d, a.batch, n);
      }
    }
  }

  lemma {:induction false} ScheduleUnmoved(d: Disk, batch: Batch, n: nat)
    requires Complete(batch) && n <= SwitchPosition(batch, Previous(d))
    ensures StateAt(d, batch, n).schedule == d.schedule
  {
  }

  lemma {:induction false} FirstActivation(config: VaultConfig, d: Disk, a: Attempt)
    requires d.schedule.None?
    ensures After(config, d, a).schedule.None? || ActiveHolds(config, After(config, d, a), a.batch)
  {
    if !Refuses(config, d, a.batch) {
      AfterIsStateAt(config, d, a);
      NotSuperseded(config, d, a.batch);
      ApprovedInOrder(config, a.batch);
      hide ValidApproved, After, Refuses, StateAt, ScheduleFor, Holds;
      var n := Reached(a.batch, d, a.cut, a.accepts);
      if n > SwitchPosition(a.batch, Previous(d)) {
        NewlyHeld(d, a.batch, n);
      } else {
        ScheduleUnmoved(d, a.batch, n);
      }
    }
  }

  /** In every history that starts without a schedule and never mixes two policies of one epoch,
      all that the active schedule names is on the phone. */
  lemma {:induction false} ActiveIsStored(config: VaultConfig, disks: seq<Disk>, attempts: seq<Attempt>, n: nat) returns (i: nat)
    requires History(config, disks, attempts) && n < |disks|
    requires disks[0].schedule.None? && OnePolicyPerEpoch(attempts)
    ensures disks[n].schedule.Some? ==> i < n && ActiveHolds(config, disks[n], attempts[i].batch)
  {
    hide ActiveHolds, After, Complete, SameEpoch;
    i := 0;
    if n > 0 {
      i := ActiveIsStored(config, disks, attempts, n - 1);
      var d, a := disks[n - 1], attempts[n - 1];
      assert disks[n] == After(config, d, a);
      if d.schedule.None? {
        FirstActivation(config, d, a);
        i := n - 1;
      } else {
        assert SameEpoch(a.batch, attempts[i].batch) ==> a.batch == attempts[i].batch;
        AttemptKeepsActive(config, d, attempts[i].batch, a);
        if !ActiveHolds(config, disks[n], attempts[i].batch) {
          i := n - 1;
        }
      }
    }
  }

  /** The connector input of a stored authorization names the phone as a signer of its leaf, and lists
      that leaf. */
  predicate ConnectorUsable(config: VaultConfig, p: Psbt) {
    && |p.inputs| > 1 && (config.phone, ControllerLeaf(config.phone)) in p.inputs[1].origins
    && ListsLeaf(p, 1, ControllerLeaf(config.phone))
  }

  /** Then each scheduled allowance can be broadcast exactly when its connector input names the phone
      and lists the phone's leaf. */
  lemma {:induction false} ScheduledAllowanceBroadcasts(config: VaultConfig, d: Disk, batch: Batch, k: nat)
    requires ActiveHolds(config, d, batch) && k < |batch.manifest.allowances|
    ensures var p := Authorization(batch, k);
            && |p.inputs| == 2
            && (Broadcastable(config, d, k + 1, k) <==> ConnectorUsable(config, p))
  {
    ApprovedIsValid(config, batch);
    AuthorizationFacts(config, batch, k);
    PassesExactly(config, batch, k, EntryFor(batch, k));
    hide ValidApproved, ValidBatch, StoredPasses, ConnectorUsable, ConsumesConnector;
    var s := d.schedule.value;
    assert s.entries[k] == EntryFor(batch, k);
    assert IsEntryFor(s, k + 1, k) by {
      forall j | 0 <= j < k
        ensures s.entries[j].step != k + 1
      {
        assert s.entries[j] == EntryFor(batch, j);
      }
    }
  }

  /** A signed authorization of an approved batch finalizes exactly when its connector lists the leaf. */
  lemma {:induction false} AuthorizationFinalizes(config: VaultConfig, batch: Batch, k: nat)
    requires ValidApproved(config, batch) && Complete(batch) && k < |batch.manifest.allowances|
    ensures var p := Authorization(batch, k);
            && HasPrevouts(p) && |p.inputs| == 2
            && (AllFinalize(Signed(p, config.phone, ControllerLeaf(config.phone), [1])) <==> ListsLeaf(p, 1, ControllerLeaf(config.phone)))
  {
    var m := batch.manifest;
    var t := m.allowances[k].authorization;
    AllEntriesListed(m);
    StepAt(config, batch, k);
    AuthorizationFacts(config, batch, k);
    assert EntryApproved(config, m, batch.files, t);
    hide ValidBatch, ManifestTransactions, ValidStep, ValidApproved, CanFinalize, AllFinalize, SignedBy, DefaultSighashes;
    StepConnectorInput(config, m.monthlyLimit, m.allowanceCount, batch.files, batch.files[m.rollover.file].tx, m.allowances, k);
    assert t.vaultIndexes[0] == 0;
    ConnectorFinalizes(config, Authorization(batch, k));
  }

  lemma {:induction false} StepConnectorInput(config: VaultConfig, limit: U64, count: nat, files: Files, rollover: Tx,
                                              allowances: seq<AllowanceStep>, k: nat)
    requires k < |allowances| && ValidStep(config, limit, count, files, rollover, allowances, k)
    ensures allowances[k].authorization.file in files && allowances[k].authorization.vaultIndexes == [0]
    ensures var p := files[allowances[k].authorization.file];
            |p.inputs| == 2 && p.inputs[1].signatures == map[] && p.inputs[1].utxo == Some(ConnectorOutput(config.Controller()))
  {
    hide PolicyVsize, MinimalNonDust, AuthorizationTemplate;
  }

  lemma {:induction false} ConnectorFinalizes(config: VaultConfig, p: Psbt)
    requires HasPrevouts(p) && |p.inputs| == 2 && p.inputs[1].signatures == map[] && CanFinalize(p, 0)
    requires p.inputs[1].utxo == Some(ConnectorOutput(config.Controller()))
    ensures AllFinalize(Signed(p, config.phone, ControllerLeaf(config.phone), [1])) <==> ListsLeaf(p, 1, ControllerLeaf(config.phone))
  {
    var q := Signed(p, config.phone, ControllerLeaf(config.phone), [1]);
    SigningKeepsFinal(p, config.phone, ControllerLeaf(config.phone), [1], 0);
    SigningPreserves(p, config.phone, ControllerLeaf(config.phone), [1]);
    assert 1 in [1];
    assert q.inputs[1].signatures.Keys == {(config.phone, ControllerLeaf(config.phone))};
    hide Signed;
    assert AllFinalize(q) == (CanFinalize(q, 0) && CanFinalize(q, 1));
    assert CanFinalize(q, 1) == ListsLeaf(p, 1, ControllerLeaf(config.phone)) by { hide AllFinalize; }
  }

  /** The checks of one stored authorization, for any entry that it is compared with. */
  lemma {:induction false} PassesExactly(config: VaultConfig, batch: Batch, k: nat, entry: ScheduleEntry)
    requires ValidApproved(config, batch) && Complete(batch) && k < |batch.manifest.allowances|
    ensures var p := Authorization(batch, k);
            && (StoredPasses(config, p, entry) <==>
                TxidOf(p.tx) == entry.authorizationTxid && ConsumesConnector(p, entry.connector) && ConnectorUsable(config, p))
  {
    ApprovedIsValid(config, batch);
    AuthorizationFacts(config, batch, k);
    AuthorizationFinalizes(config, batch, k);
    hide ValidApproved, ValidBatch, DefaultSighashes, AllFinalize, Signed, ListsLeaf, ConsumesConnector, HasPrevouts;
  }

  lemma {:induction false} ApprovedIsValid(config: VaultConfig, batch: Batch)
    requires ValidApproved(config, batch)
    ensures ValidBatch(config, batch)
  {
    hide ValidBatch, ManifestTransactions;
  }

  lemma {:induction false} AuthorizationFacts(config: VaultConfig, batch: Batch, k: nat)
    requires ValidBatch(config, batch) && Complete(batch) && k < |batch.manifest.allowances|
    ensures var a, p := batch.manifest.allowances[k], Authorization(batch, k);
            && |p.inputs| == 2 && HasPrevouts(p) && DefaultSighashes(p)
            && ConsumesConnector(p, a.connector)
    ensures batch.manifest.controllerDescriptor == config.Controller() && batch.manifest.connectorValue == CONNECTOR_VALUE_SATS
  {
    var m := batch.manifest;
    BatchParts(config, batch);
    AllEntriesListed(m);
    hide ValidBatch, ValidRollover, ValidEmergency, ManifestTransactions, ValidStep, DefaultSighashes, ConsumesConnector, HasPrevouts;
    assert m.allowances[k].authorization in ManifestTransactions(m);
    StepConsumesConnector(config, m.monthlyLimit, m.allowanceCount, batch.files, batch.files[m.rollover.file].tx, m.allowances, k);
  }

  lemma {:induction false} StepConsumesConnector(config: VaultConfig, limit: U64, count: nat, files: Files, rollover: Tx,
                                                 allowances: seq<AllowanceStep>, k: nat)
    requires k < |allowances| && ValidStep(config, limit, count, files, rollover, allowances, k)
    ensures var a := allowances[k];
            && a.authorization.file in files
            && var p := files[a.authorization.file];
            && |p.inputs| == 2 && HasPrevouts(p) && ConsumesConnector(p, a.connector)
  {
    hide PolicyVsize, MinimalNonDust, AuthorizationTemplate;
  }
}
