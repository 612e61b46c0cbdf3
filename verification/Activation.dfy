/** Policy activation on the phone: a sequence of durable writes around one broadcast, which a crash,
    a failed write or a rejection can cut anywhere (src/hot_wallet/mod.rs, src/core/storage.rs). */
module Activation {
  import opened Wrappers
  import opened Bitcoin
  import opened Psbts
  import opened Ceremony
  import opened ColdSigner

  datatype EmergencyKind = Trigger | Withdrawal

  datatype ScheduleEntry = ScheduleEntry(
    step: nat,
    hotAddress: Address,
    authorizationTxid: Txid,
    connector: ConnectorState,
    nextConnector: Option<ConnectorState>)

  datatype EmergencySchedule = EmergencySchedule(
    amount: U64,
    hotAddress: Address,
    triggerTxid: Txid,
    withdrawalTxid: Txid,
    triggerConnector: ConnectorState,
    withdrawalConnector: ConnectorState)

  datatype Schedule = Schedule(
    version: nat,
    rolloverTxid: Txid,
    controller: Script,
    connectorValue: U64,
    monthlyLimit: U64,
    emergencyLimit: U64,
    entries: seq<ScheduleEntry>,
    emergency: Option<EmergencySchedule>)

  /** The directory of one epoch, named by its rollover. */
  datatype EpochDir = EpochDir(
    approved: Option<Batch>,
    rollover: Option<Tx>,
    authorizations: map<nat, Psbt>,
    emergencies: map<(EmergencyKind, Txid), Psbt>,
    staged: Option<Schedule>,
    activated: bool)

  const EMPTY_DIR := EpochDir(None, None, map[], map[], None, false)

  /** What survives a crash, and what the network has accepted. */
  datatype Disk = Disk(
    schedule: Option<Schedule>,
    epochs: map<Txid, EpochDir>,
    monthlyLimit: U64,
    emergencyLimit: U64,
    accepted: set<Txid>)
  {
    function Dir(epoch: Txid): EpochDir {
      if epoch in epochs then epochs[epoch] else EMPTY_DIR
    }
  }

  // ----- The durable operations, in the order they are made -----

  datatype Op =
    | StageApproval(batch: Batch)
    | StageRollover(tx: Tx)
    | StageAuthorization(step: nat, psbt: Psbt)
    | StageEmergency(kind: EmergencyKind, psbt: Psbt)
    | StageSchedule(staged: Schedule)
    | Broadcast
    | MarkActivated(marked: Txid)
    | PointSchedule(schedule: Schedule)
    | SaveLimits(monthly: U64, emergency: U64)

  /** One operation of the activation of `epoch`, carried out completely. */
  function Apply(epoch: Txid, op: Op, d: Disk): Disk {
    match op
    case StageApproval(batch) => d.(epochs := d.epochs[epoch := d.Dir(epoch).(approved := Some(batch))])
    case StageRollover(tx) => d.(epochs := d.epochs[epoch := d.Dir(epoch).(rollover := Some(tx))])
    case StageAuthorization(step, psbt) =>
      d.(epochs := d.epochs[epoch := d.Dir(epoch).(authorizations := d.Dir(epoch).authorizations[step := psbt])])
    case StageEmergency(kind, psbt) =>
      d.(epochs := d.epochs[epoch := d.Dir(epoch).(emergencies := d.Dir(epoch).emergencies[(kind, TxidOf(psbt.tx)) := psbt])])
    case StageSchedule(staged) => d.(epochs := d.epochs[epoch := d.Dir(epoch).(staged := Some(staged))])
    case Broadcast => d.(accepted := d.accepted + {epoch})
    case MarkActivated(marked) => d.(epochs := d.epochs[marked := d.Dir(marked).(activated := true)])
    case PointSchedule(schedule) => d.(schedule := Some(schedule))
    case SaveLimits(monthly, emergency) => d.(monthlyLimit := monthly, emergencyLimit := emergency)
  }

  function ApplyAll(epoch: Txid, ops: seq<Op>, d: Disk): Disk {
    if ops == [] then d else Apply(epoch, ops[|ops| - 1], ApplyAll(epoch, ops[..|ops| - 1], d))
  }

  lemma {:induction false} ApplyAppend(epoch: Txid, a: seq<Op>, b: seq<Op>, d: Disk)
    ensures ApplyAll(epoch, a + b, d) == ApplyAll(epoch, b, ApplyAll(epoch, a, d))
  {
    if b == [] {
      assert a + b == a;
    } else {
      assert (a + b)[..|a + b| - 1] == a + b[..|b| - 1];
      ApplyAppend(epoch, a, b[..|b| - 1], d);
    }
  }

  /** Every PSBT that the manifest names is in the batch. */
  predicate Complete(batch: Batch) {
    var m := batch.manifest;
    && m.rollover.file in batch.files
    && (forall k :: 0 <= k < |m.allowances| ==> m.allowances[k].authorization.file in batch.files)
    && (m.emergency.Some? ==> m.emergency.value.trigger.file in batch.files && m.emergency.value.withdrawal.file in batch.files)
  }

  function Epoch(batch: Batch): Txid
    requires Complete(batch)
  {
    TxidOf(batch.files[batch.manifest.rollover.file].tx)
  }

  function Authorization(batch: Batch, k: nat): Psbt
    requires Complete(batch) && k < |batch.manifest.allowances|
  {
    batch.files[batch.manifest.allowances[k].authorization.file]
  }

  function EntryFor(batch: Batch, k: nat): ScheduleEntry
    requires Complete(batch) && k < |batch.manifest.allowances|
  {
    var a := batch.manifest.allowances[k];
    ScheduleEntry(a.step, a.hotAddress, TxidOf(Authorization(batch, k).tx), a.connector, a.nextConnector)
  }

  function EmergencyFor(batch: Batch): Option<EmergencySchedule>
    requires Complete(batch)
  {
    var m := batch.manifest;
    if m.emergency.None? then None
    else
      var e := m.emergency.value;
      Some(EmergencySchedule(e.amount, e.hotAddress, TxidOf(batch.files[e.trigger.file].tx),
                             TxidOf(batch.files[e.withdrawal.file].tx), e.triggerConnector, e.withdrawalConnector))
  }

  function ScheduleFor(batch: Batch): Schedule
    requires Complete(batch)
  {
    var m := batch.manifest;
    Schedule(5, Epoch(batch), m.controllerDescriptor, m.connectorValue, m.monthlyLimit, m.emergencyLimit,
             seq(|m.allowances|, k requires 0 <= k < |m.allowances| => EntryFor(batch, k)), EmergencyFor(batch))
  }

  function AuthorizationOps(batch: Batch, n: nat): seq<Op>
    requires Complete(batch) && n <= |batch.manifest.allowances|
  {
    seq(n, k requires 0 <= k < n => StageAuthorization(batch.manifest.allowances[k].step, Authorization(batch, k)))
  }

  function EmergencyOps(batch: Batch): seq<Op>
    requires Complete(batch)
  {
    var m := batch.manifest;
    if m.emergency.None? then []
    else [StageEmergency(Trigger, batch.files[m.emergency.value.trigger.file]),
          StageEmergency(Withdrawal, batch.files[m.emergency.value.withdrawal.file])]
  }

  /** Everything written before the broadcast. */
  function StagingOps(batch: Batch): seq<Op>
    requires Complete(batch)
  {
    [StageApproval(batch), StageRollover(batch.files[batch.manifest.rollover.file].tx)]
    + AuthorizationOps(batch, |batch.manifest.allowances|) + EmergencyOps(batch) + [StageSchedule(ScheduleFor(batch))]
  }

  /** The broadcast and everything written after it. */
  function CommitOps(batch: Batch, previous: Option<Txid>): seq<Op>
    requires Complete(batch)
  {
    [Broadcast]
    + (if previous.Some? && previous.value != Epoch(batch) then [MarkActivated(previous.value)] else [])
    + [PointSchedule(ScheduleFor(batch)), SaveLimits(batch.manifest.monthlyLimit, batch.manifest.emergencyLimit),
       MarkActivated(Epoch(batch))]
  }

  function Previous(d: Disk): Option<Txid> {
    if d.schedule.Some? then Some(d.schedule.value.rolloverTxid) else None
  }

  function Ops(batch: Batch, d: Disk): seq<Op>
    requires Complete(batch)
  {
    StagingOps(batch) + CommitOps(batch, Previous(d))
  }

  /** The guard against reviving a superseded epoch. */
  predicate Superseded(d: Disk, epoch: Txid) {
    d.Dir(epoch).activated && d.schedule.Some? && d.schedule.value.rolloverTxid != epoch
  }

  /** One call: the approved policy, how many durable operations happen before a crash, and whether
      the backend accepts the rollover. */
  datatype Attempt = Attempt(batch: Batch, cut: nat, accepts: bool)

  ghost predicate Refuses(config: VaultConfig, d: Disk, batch: Batch) {
    || !ValidApproved(config, batch)
    || (d.schedule.Some? && d.schedule.value.version != 5)
    || (Complete(batch) && Superseded(d, Epoch(batch)))
  }

  lemma {:induction false} ApprovedIsComplete(config: VaultConfig, batch: Batch)
    requires ValidApproved(config, batch)
    ensures Complete(batch)
  {
    EntriesReadable(config, batch);
    AllEntriesListed(batch.manifest);
    hide ValidBatch, ManifestTransactions, EntryApproved, DefaultSighashes;
  }

  function Min(a: nat, b: nat): nat {
    if a <= b then a else b
  }

  // The operations that take effect.
  function Reached(batch: Batch, d: Disk, cut: nat, accepts: bool): nat
    requires Complete(batch)
  {
    Min(cut, if accepts then |Ops(batch, d)| else |StagingOps(batch)|)
  }

  /** The disk after an attempt. */
  ghost function After(config: VaultConfig, d: Disk, a: Attempt): Disk {
    if Refuses(config, d, a.batch) then d
    else
      ApprovedIsComplete(config, a.batch);
      ApplyAll(Epoch(a.batch), Ops(a.batch, d)[..Reached(a.batch, d, a.cut, a.accepts)], d)
  }

  // ----- The phone's code -----

  ghost predicate Succeeds(config: VaultConfig, d: Disk, a: Attempt) {
    && !Refuses(config, d, a.batch) && a.accepts
    && Complete(a.batch) && a.cut >= |Ops(a.batch, d)|
  }

  lemma {:induction false} ApplyNext(epoch: Txid, ops: seq<Op>, n: nat, d: Disk)
    requires n < |ops|
    ensures ApplyAll(epoch, ops[..n + 1], d) == Apply(epoch, ops[n], ApplyAll(epoch, ops[..n], d))
  {
    assert ops[..n + 1][..n] == ops[..n];
  }

  /** The phone's storage, and how many more durable operations succeed before it stops. */
  class Phone {
    var disk: Disk
    var remaining: nat

    constructor (disk: Disk, remaining: nat)
      ensures this.disk == disk && this.remaining == remaining
    {
      this.disk, this.remaining := disk, remaining;
    }

    // The first n operations have been made, each of them on a live phone.
    ghost predicate At(epoch: Txid, ops: seq<Op>, n: nat, before: Disk, budget: nat)
      reads this
    {
      n <= |ops| && n <= budget && remaining == budget - n && disk == ApplyAll(epoch, ops[..n], before)
    }

    /** One atomic durable write (or accepted broadcast): it happens entirely or not at all. */
    method Durable(epoch: Txid, op: Op, ghost ops: seq<Op>, ghost n: nat, ghost before: Disk, ghost budget: nat) returns (ok: bool)
      requires n < |ops| && ops[n] == op && At(epoch, ops, n, before, budget)
      modifies this
      ensures ok ==> At(epoch, ops, n + 1, before, budget)
      ensures !ok ==> n == budget && At(epoch, ops, n, before, budget)
    {
      if remaining == 0 {
        return false;
      }
      ApplyNext(epoch, ops, n, before);
      disk := Apply(epoch, op, disk);
      remaining := remaining - 1;
      return true;
    }

    /** The staging half: each policy transaction in its own file, then the schedule beside them. */
    method Stage(epoch: Txid, batch: Batch, ghost ops: seq<Op>, ghost before: Disk, ghost budget: nat) returns (ok: bool)
      requires Complete(batch) && StagingOps(batch) <= ops && At(epoch, ops, 0, before, budget)
      modifies this
      ensures ok ==> At(epoch, ops, |StagingOps(batch)|, before, budget)
      ensures !ok ==> budget < |StagingOps(batch)| && At(epoch, ops, budget, before, budget)
    {
      hide StagingOps, At, ApplyAll, Apply, ScheduleFor;
      var m := batch.manifest;
      StagingLayout(batch);
      assert forall i :: 0 <= i < |StagingOps(batch)| ==> ops[i] == StagingOps(batch)[i];
      AtBudget(epoch, ops, 0, before, budget);
      ok := Durable(epoch, StageApproval(batch), ops, 0, before, budget);
      if !ok { return; }
      AtBudget(epoch, ops, 1, before, budget);
      ok := Durable(epoch, StageRollover(batch.files[m.rollover.file].tx), ops, 1, before, budget);
      if !ok { return; }
      for k := 0 to |m.allowances|
        invariant At(epoch, ops, 2 + k, before, budget)
      {
        ok := Durable(epoch, StageAuthorization(m.allowances[k].step, Authorization(batch, k)), ops, 2 + k, before, budget);
        if !ok { return; }
      }
      ok := StageLast(epoch, batch, ops, 2 + |m.allowances|, before, budget);
    }

    // The emergency transactions, when there are any, and the staged schedule.
    method StageLast(epoch: Txid, batch: Batch, ghost ops: seq<Op>, ghost n: nat, ghost before: Disk, ghost budget: nat) returns (ok: bool)
      requires Complete(batch) && StagingOps(batch) <= ops && At(epoch, ops, n, before, budget)
      requires n == 2 + |batch.manifest.allowances|
      modifies this
      ensures ok ==> At(epoch, ops, |StagingOps(batch)|, before, budget)
      ensures !ok ==> budget < |StagingOps(batch)| && At(epoch, ops, budget, before, budget)
    {
      hide StagingOps, At, ApplyAll, Apply, ScheduleFor;
      var m := batch.manifest;
      StagingLayout(batch);
      assert forall i :: 0 <= i < |StagingOps(batch)| ==> ops[i] == StagingOps(batch)[i];
      ghost var last := n;
      if m.emergency.Some? {
        ok := Durable(epoch, StageEmergency(Trigger, batch.files[m.emergency.value.trigger.file]), ops, n, before, budget);
        if !ok { return; }
        ok := Durable(epoch, StageEmergency(Withdrawal, batch.files[m.emergency.value.withdrawal.file]), ops, n + 1, before, budget);
        if !ok { return; }
        last := n + 2;
      }
      ok := Durable(epoch, StageSchedule(ScheduleFor(batch)), ops, last, before, budget);
    }

    /** `activate_policy`. */
    method Activate(config: VaultConfig, batch: Batch, accepts: bool) returns (r: Result<Schedule>)
      modifies this
      ensures disk == After(config, old(disk), Attempt(batch, old(remaining), accepts))
      ensures r.Success? <==> Succeeds(config, old(disk), Attempt(batch, old(remaining), accepts))
      ensures r.Success? ==> Complete(batch) && r.value == ScheduleFor(batch)
    {
      hide ValidApproved, StagingOps, ScheduleFor, ApplyAll, AllFinalize, DefaultSighashes;
      ghost var before, budget := disk, remaining;
      var approved := ValidateApprovedBatch(config, batch);
      if approved.Failure? {
        return Failure("batch is not approved");
      }
      ApprovedIsComplete(config, batch);
      ApprovedRolloverFinalizes(config, batch);
      var rollover := FinalizeVaultPsbt(batch.files[batch.manifest.rollover.file]);
      var epoch := TxidOf(rollover.value);
      if disk.schedule.Some? && disk.schedule.value.version != 5 {
        return Failure("unsupported policy version");
      }
      var previous := Previous(disk);
      if disk.Dir(epoch).activated && previous.Some? && previous.value != epoch {
        return Failure("epoch already superseded");
      }
      ghost var ops := Ops(batch, disk);
      ghost var staged := |StagingOps(batch)|;
      assert ops[..0] == [] && ApplyAll(epoch, [], disk) == disk by { NothingApplied(epoch, disk); }
      var ok := Stage(epoch, batch, ops, before, budget);
      if !ok {
        return Failure("staging failed");
      }
      if !accepts {
        return Failure("broadcast failed");
      }
      r := Commit(epoch, batch, previous, ops, before, budget);
    }

    /** The broadcast has been accepted; retire the previous epoch and point at the new one. */
    method Commit(epoch: Txid, batch: Batch, previous: Option<Txid>, ghost ops: seq<Op>, ghost before: Disk, ghost budget: nat)
      returns (r: Result<Schedule>)
      requires Complete(batch) && epoch == Epoch(batch)
      requires ops == StagingOps(batch) + CommitOps(batch, previous)
      requires At(epoch, ops, |StagingOps(batch)|, before, budget)
      modifies this
      ensures At(epoch, ops, Min(budget, |ops|), before, budget)
      ensures r.Success? <==> budget >= |ops|
      ensures r.Success? ==> r.value == ScheduleFor(batch)
    {
      hide ApplyAll, Apply, StagingOps, ScheduleFor, At, CommitOps;
      ghost var n := |StagingOps(batch)|;
      CommitLayout(batch, previous, ops);
      AtBudget(epoch, ops, n, before, budget);
      var ok := Durable(epoch, Broadcast, ops, n, before, budget);
      if !ok {
        return Failure("crashed");
      }
      n := n + 1;
      if previous.Some? && previous.value != epoch {
        ok := Durable(epoch, MarkActivated(previous.value), ops, n, before, budget);
        if !ok {
          return Failure("accepted; archiving failed");
        }
        n := n + 1;
      }
      r := Point(epoch, batch, ops, n, before, budget);
    }

    /** The last three writes: the active schedule, the limits, the activation marker. */
    method Point(epoch: Txid, batch: Batch, ghost ops: seq<Op>, ghost n: nat, ghost before: Disk, ghost budget: nat)
      returns (r: Result<Schedule>)
      requires Complete(batch) && n + 3 == |ops|
      requires ops[n] == PointSchedule(ScheduleFor(batch))
      requires ops[n + 1] == SaveLimits(batch.manifest.monthlyLimit, batch.manifest.emergencyLimit)
      requires ops[n + 2] == MarkActivated(epoch)
      requires At(epoch, ops, n, before, budget)
      modifies this
      ensures At(epoch, ops, Min(budget, |ops|), before, budget)
      ensures r.Success? <==> budget >= |ops|
      ensures r.Success? ==> r.value == ScheduleFor(batch)
    {
      hide ApplyAll, Apply, StagingOps, ScheduleFor, At;
      AtBudget(epoch, ops, n, before, budget);
      var schedule := ScheduleFor(batch);
      var ok := Durable(epoch, PointSchedule(schedule), ops, n, before, budget);
      if !ok {
        return Failure("accepted; schedule failed");
      }
      AtBudget(epoch, ops, n + 1, before, budget);
      ok := Durable(epoch, SaveLimits(batch.manifest.monthlyLimit, batch.manifest.emergencyLimit), ops, n + 1, before, budget);
      if !ok {
        return Failure("accepted; saving limits failed");
      }
      AtBudget(epoch, ops, n + 2, before, budget);
      ok := Durable(epoch, MarkActivated(epoch), ops, n + 2, before, budget);
      if !ok {
        return Failure("crashed");
      }
      AtBudget(epoch, ops, n + 3, before, budget);
      return Success(schedule);
    }

    lemma {:induction false} AtBudget(epoch: Txid, ops: seq<Op>, n: nat, before: Disk, budget: nat)
      requires At(epoch, ops, n, before, budget)
      ensures n <= |ops| && n <= budget
    {
    }
  }

  lemma {:induction false} CommitLayout(batch: Batch, previous: Option<Txid>, ops: seq<Op>)
    requires Complete(batch) && ops == StagingOps(batch) + CommitOps(batch, previous)
    ensures var n, other := |StagingOps(batch)|, previous.Some? && previous.value != Epoch(batch);
            var p := if other then n + 2 else n + 1;
            && |ops| == p + 3
            && ops[n] == Broadcast && (other ==> ops[n + 1] == MarkActivated(previous.value))
            && ops[p] == PointSchedule(ScheduleFor(batch))
            && ops[p + 1] == SaveLimits(batch.manifest.monthlyLimit, batch.manifest.emergencyLimit)
            && ops[p + 2] == MarkActivated(Epoch(batch))
  {
    hide StagingOps, ScheduleFor;
    var n, tail := |StagingOps(batch)|, CommitOps(batch, previous);
    assert forall i :: 0 <= i < |tail| ==> ops[n + i] == tail[i];
  }

  lemma {:induction false} NothingApplied(epoch: Txid, d: Disk)
    ensures ApplyAll(epoch, [], d) == d
  {
  }

  lemma {:induction false} StagingLayout(batch: Batch)
    requires Complete(batch)
    ensures var ops, m := StagingOps(batch), batch.manifest;
            var n := |m.allowances|;
            && |ops| == n + 3 + (if m.emergency.Some? then 2 else 0)
            && ops[0] == StageApproval(batch) && ops[1] == StageRollover(batch.files[m.rollover.file].tx)
            && (forall k :: 0 <= k < n ==> ops[2 + k] == StageAuthorization(m.allowances[k].step, Authorization(batch, k)))
            && (m.emergency.Some? ==>
                  && ops[n + 2] == StageEmergency(Trigger, batch.files[m.emergency.value.trigger.file])
                  && ops[n + 3] == StageEmergency(Withdrawal, batch.files[m.emergency.value.withdrawal.file]))
            && ops[|ops| - 1] == StageSchedule(ScheduleFor(batch))
  {
    hide ScheduleFor;
  }
}
