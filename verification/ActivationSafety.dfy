/** What activation guarantees over every history of attempts, crashes and rejections
    (src/hot_wallet/mod.rs). */
module ActivationSafety {
  import opened Wrappers
  import opened Bitcoin
  import opened Psbts
  import opened Ceremony
  import opened ColdSigner
  import opened Activation

  // ----- The disk after the first n operations, written out -----

  predicate ReplacesOther(batch: Batch, previous: Option<Txid>)
    requires Complete(batch)
  {
    previous.Some? && previous.value != Epoch(batch)
  }

  // How many staging operations there are, and where the active schedule is written.
  function Staged(batch: Batch): nat {
    |batch.manifest.allowances| + 3 + if batch.manifest.emergency.Some? then 2 else 0
  }

  function SwitchPosition(batch: Batch, previous: Option<Txid>): nat
    requires Complete(batch)
  {
    Staged(batch) + 1 + if ReplacesOther(batch, previous) then 1 else 0
  }

  function Total(batch: Batch, previous: Option<Txid>): nat
    requires Complete(batch)
  {
    SwitchPosition(batch, previous) + 3
  }

  function AuthorizationMap(batch: Batch, k: nat): map<nat, Psbt>
    requires Complete(batch) && k <= |batch.manifest.allowances|
  {
    if k == 0 then map[]
    else AuthorizationMap(batch, k - 1)[batch.manifest.allowances[k - 1].step := Authorization(batch, k - 1)]
  }

  function EmergencyMap(batch: Batch, j: int): map<(EmergencyKind, Txid), Psbt>
    requires Complete(batch)
  {
    if batch.manifest.emergency.None? || j <= 0 then map[]
    else
      var e := batch.manifest.emergency.value;
      var t := batch.files[e.trigger.file];
      var w := batch.files[e.withdrawal.file];
      if j == 1 then map[(Trigger, TxidOf(t.tx)) := t]
      else map[(Trigger, TxidOf(t.tx)) := t][(Withdrawal, TxidOf(w.tx)) := w]
  }

  function Clamp(n: int, max: nat): nat {
    if n < 0 then 0 else if n > max then max else n
  }

  /** The epoch's own directory after n operations on `dir`. */
  function DirAt(dir: EpochDir, batch: Batch, previous: Option<Txid>, n: nat): EpochDir
    requires Complete(batch)
  {
    var N := |batch.manifest.allowances|;
    EpochDir(if n >= 1 then Some(batch) else dir.approved,
             if n >= 2 then Some(batch.files[batch.manifest.rollover.file].tx) else dir.rollover,
             dir.authorizations + AuthorizationMap(batch, Clamp(n - 2, N)),
             dir.emergencies + EmergencyMap(batch, n - 2 - N),
             if n >= Staged(batch) then Some(ScheduleFor(batch)) else dir.staged,
             dir.activated || n >= Total(batch, previous))
  }

  /** The whole disk after n operations on `d`. */
  function StateAt(d: Disk, batch: Batch, n: nat): Disk
    requires Complete(batch)
  {
    var previous, e := Previous(d), Epoch(batch);
    var own := if n == 0 then d.epochs else d.epochs[e := DirAt(d.Dir(e), batch, previous, n)];
    Disk(if n > SwitchPosition(batch, previous) then Some(ScheduleFor(batch)) else d.schedule,
         if ReplacesOther(batch, previous) && n > Staged(batch) + 1
         then own[previous.value := d.Dir(previous.value).(activated := true)] else own,
         if n > SwitchPosition(batch, previous) + 1 then batch.manifest.monthlyLimit else d.monthlyLimit,
         if n > SwitchPosition(batch, previous) + 1 then batch.manifest.emergencyLimit else d.emergencyLimit,
         if n > Staged(batch) then d.accepted + {e} else d.accepted)
  }

  lemma {:induction false} OpsLayout(batch: Batch, d: Disk)
    requires Complete(batch)
    ensures |StagingOps(batch)| == Staged(batch) && |Ops(batch, d)| == Total(batch, Previous(d))
    ensures var ops, s, p := Ops(batch, d), Staged(batch), SwitchPosition(batch, Previous(d));
            && (forall i :: 0 <= i < s ==> ops[i] == StagingOps(batch)[i])
            && ops[s] == Broadcast
            && (ReplacesOther(batch, Previous(d)) ==> ops[s + 1] == MarkActivated(Previous(d).value))
            && ops[p] == PointSchedule(ScheduleFor(batch))
            && ops[p + 1] == SaveLimits(batch.manifest.monthlyLimit, batch.manifest.emergencyLimit)
            && ops[p + 2] == MarkActivated(Epoch(batch))
  {
    StagingLayout(batch);
    hide StagingOps, ScheduleFor;
    var ops, tail := Ops(batch, d), CommitOps(batch, Previous(d));
    assert forall i :: 0 <= i < |tail| ==> ops[Staged(batch) + i] == tail[i];
  }

  lemma {:induction false} StagingStep(d: Disk, batch: Batch, n: nat)
    requires Complete(batch) && n < Staged(batch)
    ensures n < |StagingOps(batch)|
    ensures Apply(Epoch(batch), StagingOps(batch)[n], StateAt(d, batch, n)) == StateAt(d, batch, n + 1)
  {
    var e, N, op := Epoch(batch), |batch.manifest.allowances|, StagingOps(batch)[n];
    var before, after := StateAt(d, batch, n), StateAt(d, batch, n + 1);
    StagingLayout(batch);
    hide StagingOps, ScheduleFor;
    assert before.Dir(e) == DirAt(d.Dir(e), batch, Previous(d), n) by { DirAtStart(d.Dir(e), batch, Previous(d)); }
    assert after.epochs == before.epochs[e := DirAt(d.Dir(e), batch, Previous(d), n + 1)];
    StagingDir(d.Dir(e), batch, Previous(d), n, e, before);
  }

  lemma {:induction false} DirAtStart(dir: EpochDir, batch: Batch, previous: Option<Txid>)
    requires Complete(batch)
    ensures DirAt(dir, batch, previous, 0) == dir
  {
    assert dir.authorizations + map[] == dir.authorizations && dir.emergencies + map[] == dir.emergencies;
  }

  lemma {:induction false} StagingDir(dir: EpochDir, batch: Batch, previous: Option<Txid>, n: nat, e: Txid, d: Disk)
    requires Complete(batch) && n < Staged(batch) == |StagingOps(batch)|
    requires d.Dir(e) == DirAt(dir, batch, previous, n)
    ensures Apply(e, StagingOps(batch)[n], d) == d.(epochs := d.epochs[e := DirAt(dir, batch, previous, n + 1)])
  {
    StagingLayout(batch);
    hide StagingOps, ScheduleFor;
    NextDir(dir, batch, previous, n);
    hide DirAt, AuthorizationMap, EmergencyMap;
  }

  // The directory that one staging operation makes of another.
  function Edited(dir: EpochDir, op: Op): EpochDir {
    match op
    case StageApproval(batch) => dir.(approved := Some(batch))
    case StageRollover(tx) => dir.(rollover := Some(tx))
    case StageAuthorization(step, psbt) => dir.(authorizations := dir.authorizations[step := psbt])
    case StageEmergency(kind, psbt) => dir.(emergencies := dir.emergencies[(kind, TxidOf(psbt.tx)) := psbt])
    case StageSchedule(staged) => dir.(staged := Some(staged))
    case _ => dir
  }

  lemma {:induction false} NextDir(dir: EpochDir, batch: Batch, previous: Option<Txid>, n: nat)
    requires Complete(batch) && n < Staged(batch) == |StagingOps(batch)|
    ensures DirAt(dir, batch, previous, n + 1) == Edited(DirAt(dir, batch, previous, n), StagingOps(batch)[n])
    ensures var op := StagingOps(batch)[n];
            op.StageApproval? || op.StageRollover? || op.StageAuthorization? || op.StageEmergency? || op.StageSchedule?
  {
    var m, op := batch.manifest, StagingOps(batch)[n];
    var N := |m.allowances|;
    StagingLayout(batch);
    hide StagingOps, ScheduleFor;
    if 2 <= n < N + 2 {
      NextAuthorization(dir, batch, previous, n);
    } else if n >= N + 2 && m.emergency.Some? && n < N + 4 {
      NextEmergency(dir, batch, previous, n);
    }
  }

  lemma {:induction false} NextAuthorization(dir: EpochDir, batch: Batch, previous: Option<Txid>, n: nat)
    requires Complete(batch) && 2 <= n < |batch.manifest.allowances| + 2
    ensures var here := DirAt(dir, batch, previous, n);
            DirAt(dir, batch, previous, n + 1)
            == here.(authorizations := here.authorizations[batch.manifest.allowances[n - 2].step := Authorization(batch, n - 2)])
  {
    hide ScheduleFor;
    var here, next := DirAt(dir, batch, previous, n), DirAt(dir, batch, previous, n + 1);
    assert next.authorizations == here.authorizations[batch.manifest.allowances[n - 2].step := Authorization(batch, n - 2)];
  }

  lemma {:induction false} NextEmergency(dir: EpochDir, batch: Batch, previous: Option<Txid>, n: nat)
    requires Complete(batch) && batch.manifest.emergency.Some?
    requires |batch.manifest.allowances| + 2 <= n < |batch.manifest.allowances| + 4
    ensures var here, e := DirAt(dir, batch, previous, n), batch.manifest.emergency.value;
            var psbt := if n == |batch.manifest.allowances| + 2 then batch.files[e.trigger.file] else batch.files[e.withdrawal.file];
            var kind := if n == |batch.manifest.allowances| + 2 then Trigger else Withdrawal;
            DirAt(dir, batch, previous, n + 1) == here.(emergencies := here.emergencies[(kind, TxidOf(psbt.tx)) := psbt])
  {
    hide ScheduleFor, AuthorizationMap;
    var here, next, e := DirAt(dir, batch, previous, n), DirAt(dir, batch, previous, n + 1), batch.manifest.emergency.value;
    var t, w := batch.files[e.trigger.file], batch.files[e.withdrawal.file];
    if n == |batch.manifest.allowances| + 2 {
      assert next.emergencies == here.emergencies[(Trigger, TxidOf(t.tx)) := t];
    } else {
      assert next.emergencies == here.emergencies[(Withdrawal, TxidOf(w.tx)) := w];
    }
  }

  lemma {:induction false} CommitStep(d: Disk, batch: Batch, n: nat)
    requires Complete(batch) && Staged(batch) <= n < Total(batch, Previous(d)) == |Ops(batch, d)|
    ensures Apply(Epoch(batch), Ops(batch, d)[n], StateAt(d, batch, n)) == StateAt(d, batch, n + 1)
  {
    OpsLayout(batch, d);
    hide StagingOps, ScheduleFor, Ops;
    var e, previous, N := Epoch(batch), Previous(d), |batch.manifest.allowances|;
    var before, after := StateAt(d, batch, n), StateAt(d, batch, n + 1);
    CommitDir(d.Dir(e), batch, previous, n);
    if ReplacesOther(batch, previous) && n == Staged(batch) + 1 {
      assert after.epochs == before.epochs[previous.value := d.Dir(previous.value).(activated := true)];
    }
    if n == SwitchPosition(batch, previous) + 2 {
      assert after.epochs == before.epochs[e := before.Dir(e).(activated := true)];
    }
  }

  // After staging, only the activation marker of the directory can still change.
  lemma {:induction false} CommitDir(dir: EpochDir, batch: Batch, previous: Option<Txid>, n: nat)
    requires Complete(batch) && Staged(batch) <= n < Total(batch, previous)
    ensures DirAt(dir, batch, previous, n + 1)
         == DirAt(dir, batch, previous, n).(activated := dir.activated || n + 1 == Total(batch, previous))
  {
  }

  lemma {:induction false} StateAtIsApplied(d: Disk, batch: Batch, n: nat)
    requires Complete(batch) && n <= |Ops(batch, d)|
    ensures ApplyAll(Epoch(batch), Ops(batch, d)[..n], d) == StateAt(d, batch, n)
  {
    hide StagingOps, ScheduleFor, Ops, StateAt, ApplyAll, Apply;
    if n > 0 {
      StateAtIsApplied(d, batch, n - 1);
      ApplyNext(Epoch(batch), Ops(batch, d), n - 1, d);
      OpsLayout(batch, d);
      if n - 1 < Staged(batch) {
        StagingStep(d, batch, n - 1);
      } else {
        CommitStep(d, batch, n - 1);
      }
    } else {
      StateAtStart(d, batch);
    }
  }

  lemma {:induction false} StateAtStart(d: Disk, batch: Batch)
    requires Complete(batch)
    ensures StateAt(d, batch, 0) == d && ApplyAll(Epoch(batch), Ops(batch, d)[..0], d) == d
  {
  }

  /** What an attempt leaves behind. */
  lemma {:induction false} AfterIsStateAt(config: VaultConfig, d: Disk, a: Attempt)
    requires !Refuses(config, d, a.batch)
    ensures Complete(a.batch)
    ensures var n := Reached(a.batch, d, a.cut, a.accepts);
            && n <= Total(a.batch, Previous(d)) && (!a.accepts ==> n <= Staged(a.batch))
            && After(config, d, a) == StateAt(d, a.batch, n)
  {
    ApprovedIsComplete(config, a.batch);
    OpsLayout(a.batch, d);
    StateAtIsApplied(d, a.batch, Reached(a.batch, d, a.cut, a.accepts));
    hide ValidApproved, StateAt, ApplyAll, Ops, StagingOps;
  }

  // ----- Histories -----

  /** Any sequence of attempts: each cut anywhere, each accepted or rejected, for any policy. */
  ghost predicate History(config: VaultConfig, disks: seq<Disk>, attempts: seq<Attempt>) {
    && |disks| == |attempts| + 1
    && forall i :: 0 <= i < |attempts| ==> disks[i + 1] == After(config, disks[i], attempts[i])
  }

  /** The active schedule names an accepted rollover. */
  predicate PointsToAccepted(d: Disk) {
    d.schedule.Some? ==> d.schedule.value.rolloverTxid in d.accepted
  }

  /** What one attempt can do to the active schedule and the markers. */
  lemma {:induction false} AttemptEffect(config: VaultConfig, d: Disk, a: Attempt)
    ensures var d' := After(config, d, a);
            && d.accepted <= d'.accepted
            && (forall x :: d.Dir(x).activated ==> d'.Dir(x).activated)
            && (d.schedule.Some? ==> d'.schedule.Some?)
            && (d'.schedule != d.schedule ==>
                  && Complete(a.batch) && !Superseded(d, Epoch(a.batch))
                  && d'.schedule == Some(ScheduleFor(a.batch)) && Epoch(a.batch) in d'.accepted
                  && (ReplacesOther(a.batch, Previous(d)) ==> d'.Dir(Previous(d).value).activated))
  {
    if !Refuses(config, d, a.batch) {
      AfterIsStateAt(config, d, a);
      hide After, ValidApproved, Refuses;
      var batch, n := a.batch, Reached(a.batch, d, a.cut, a.accepts);
      var d' := StateAt(d, batch, n);
      NotSuperseded(config, d, batch);
      StateAtMarkers(d, batch, n);
      hide StateAt, DirAt, Reached;
    }
  }

  lemma {:induction false} NotSuperseded(config: VaultConfig, d: Disk, batch: Batch)
    requires !Refuses(config, d, batch)
    ensures Complete(batch) && !Superseded(d, Epoch(batch)) && ValidApproved(config, batch)
    ensures d.schedule.Some? ==> d.schedule.value.version == 5
  {
    ApprovedIsComplete(config, batch);
    hide ValidApproved;
  }

  lemma {:induction false} StateAtMarkers(d: Disk, batch: Batch, n: nat)
    requires Complete(batch)
    ensures var d' := StateAt(d, batch, n);
            && d.accepted <= d'.accepted
            && (forall x :: d.Dir(x).activated ==> d'.Dir(x).activated)
            && (d.schedule.Some? ==> d'.schedule.Some?)
            && (d'.schedule != d.schedule ==>
                  && d'.schedule == Some(ScheduleFor(batch)) && Epoch(batch) in d'.accepted
                  && (ReplacesOther(batch, Previous(d)) ==> d'.Dir(Previous(d).value).activated))
  {
    hide ScheduleFor, AuthorizationMap, EmergencyMap;
  }

  /** In every history the active schedule names only an accepted rollover. */
  lemma {:induction false} ScheduleIsAccepted(config: VaultConfig, disks: seq<Disk>, attempts: seq<Attempt>, n: nat)
    requires History(config, disks, attempts) && n < |disks| && PointsToAccepted(disks[0])
    ensures PointsToAccepted(disks[n])
  {
    if n > 0 {
      ScheduleIsAccepted(config, disks, attempts, n - 1);
      AttemptEffect(config, disks[n - 1], attempts[n - 1]);
      assert disks[n] == After(config, disks[n - 1], attempts[n - 1]);
      hide After, EmergencyFor, EntryFor;
    }
  }

  /** `epoch` is the active one, or it has been marked. */
  predicate ActiveOrRetired(d: Disk, epoch: Txid) {
    d.schedule.Some? && (d.schedule.value.rolloverTxid == epoch || d.Dir(epoch).activated)
  }

  lemma {:induction false} OnceActive(config: VaultConfig, disks: seq<Disk>, attempts: seq<Attempt>, i: nat, j: nat, epoch: Txid)
    requires History(config, disks, attempts) && i <= j < |disks|
    requires Previous(disks[i]) == Some(epoch)
    ensures ActiveOrRetired(disks[j], epoch)
  {
    if i == j {
      assert ActiveOrRetired(disks[j], epoch);
    } else {
      OnceActive(config, disks, attempts, i, j - 1, epoch);
      StaysActiveOrRetired(config, disks[j - 1], attempts[j - 1], epoch);
      assert disks[j] == After(config, disks[j - 1], attempts[j - 1]);
      hide After, ActiveOrRetired;
    }
  }

  lemma {:induction false} StaysActiveOrRetired(config: VaultConfig, d: Disk, a: Attempt, epoch: Txid)
    requires ActiveOrRetired(d, epoch)
    ensures ActiveOrRetired(After(config, d, a), epoch)
  {
    AttemptEffect(config, d, a);
    hide After, EmergencyFor, EntryFor;
  }

  // A marked epoch that is not the active one is refused, and no other attempt points at it.
  lemma {:induction false} StaysReplaced(config: VaultConfig, d: Disk, a: Attempt, epoch: Txid)
    requires ActiveOrRetired(d, epoch) && Previous(d) != Some(epoch)
    ensures Previous(After(config, d, a)) != Some(epoch)
  {
    AttemptEffect(config, d, a);
    hide After, EmergencyFor, EntryFor;
  }

  /** No reactivation: an epoch that was active and has been replaced is never active again, in
      any history of activations, crashes, failed writes and rejected broadcasts. */
  lemma {:induction false} NeverReactivated(config: VaultConfig, disks: seq<Disk>, attempts: seq<Attempt>, i: nat, j: nat, k: nat,
                                            epoch: Txid)
    requires History(config, disks, attempts) && i <= j <= k < |disks|
    requires Previous(disks[i]) == Some(epoch) && Previous(disks[j]) != Some(epoch)
    ensures Previous(disks[k]) != Some(epoch)
  {
    hide After, Previous, ActiveOrRetired;
    if j < k {
      NeverReactivated(config, disks, attempts, i, j, k - 1, epoch);
      OnceActive(config, disks, attempts, i, k - 1, epoch);
      assert disks[k] == After(config, disks[k - 1], attempts[k - 1]);
      StaysReplaced(config, disks[k - 1], attempts[k - 1], epoch);
    }
  }

  // ----- Rejection and retry -----

  /** A rejected broadcast leaves the schedule, the limits, every activation marker, the accepted
      set and every other epoch's directory as they were, wherever it was cut. */
  lemma {:induction false} RejectionChangesNothing(config: VaultConfig, d: Disk, batch: Batch, cut: nat, x: Txid)
    ensures var d' := After(config, d, Attempt(batch, cut, false));
            && d'.schedule == d.schedule && d'.accepted == d.accepted
            && d'.monthlyLimit == d.monthlyLimit && d'.emergencyLimit == d.emergencyLimit
            && d'.Dir(x).activated == d.Dir(x).activated
            && (Complete(batch) && x != Epoch(batch) ==> d'.Dir(x) == d.Dir(x))
  {
    var a := Attempt(batch, cut, false);
    if !Refuses(config, d, batch) {
      AfterIsStateAt(config, d, a);
      hide After, Refuses, AuthorizationMap, EmergencyMap, ScheduleFor;
    }
  }

  // Retrying with everything accepted from the state after n operations.
  lemma {:induction false} RetryFromAnywhere(d: Disk, batch: Batch, n: nat)
    requires Complete(batch) && n <= Total(batch, Previous(d))
    ensures var d1 := StateAt(d, batch, n);
            StateAt(d1, batch, Total(batch, Previous(d1))) == StateAt(d, batch, Total(batch, Previous(d)))
  {
    var e, d1 := Epoch(batch), StateAt(d, batch, n);
    var full, again := StateAt(d, batch, Total(batch, Previous(d))), StateAt(d1, batch, Total(batch, Previous(d1)));
    hide AuthorizationMap, EmergencyMap, EmergencyFor, EntryFor;
    if n > 0 {
      RetryDir(d.Dir(e), batch, Previous(d), Previous(d1), n);
      assert d1.Dir(e) == DirAt(d.Dir(e), batch, Previous(d), n);
    }
    hide DirAt;
    assert again.epochs == full.epochs;
  }

  lemma {:induction false} RetryDir(dir: EpochDir, batch: Batch, previous: Option<Txid>, previous': Option<Txid>, n: nat)
    requires Complete(batch)
    ensures DirAt(DirAt(dir, batch, previous, n), batch, previous', Total(batch, previous'))
         == DirAt(dir, batch, previous, Total(batch, previous))
  {
    var N := |batch.manifest.allowances|;
    MapsGrow(batch, Clamp(n - 2, N), N);
    var A, A', E, E' := AuthorizationMap(batch, Clamp(n - 2, N)), AuthorizationMap(batch, N),
                        EmergencyMap(batch, n - 2 - N), EmergencyMap(batch, Total(batch, previous) - 2 - N);
    assert (dir.authorizations + A) + A' == dir.authorizations + A';
    assert EmergencyMap(batch, Total(batch, previous') - 2 - N) == E';
    assert E.Keys <= E'.Keys;
    assert (dir.emergencies + E) + E' == dir.emergencies + E';
  }

  lemma {:induction false} MapsGrow(batch: Batch, a: nat, b: nat)
    requires Complete(batch) && a <= b <= |batch.manifest.allowances|
    ensures AuthorizationMap(batch, a).Keys <= AuthorizationMap(batch, b).Keys
  {
    if a < b {
      MapsGrow(batch, a, b - 1);
    }
  }

  /** Retrying converges: from every crash point, and after any rejection, the same policy tried
      again with an accepting backend ends in exactly the disk of an uninterrupted activation. */
  lemma {:induction false} RetryConverges(config: VaultConfig, d: Disk, batch: Batch, cut: nat, accepts: bool)
    requires ValidApproved(config, batch)
    ensures Complete(batch)
    ensures var d1 := After(config, d, Attempt(batch, cut, accepts));
            After(config, d1, Attempt(batch, Total(batch, Previous(d1)), true))
            == After(config, d, Attempt(batch, Total(batch, Previous(d)), true))
  {
    ApprovedIsComplete(config, batch);
    var d1 := After(config, d, Attempt(batch, cut, accepts));
    if !Refuses(config, d, batch) {
      AfterIsStateAt(config, d, Attempt(batch, cut, accepts));
      AfterIsStateAt(config, d, Attempt(batch, Total(batch, Previous(d)), true));
      var n := Reached(batch, d, cut, accepts);
      NotSuperseded(config, d, batch);
      StillAllowed(d, batch, n);
      assert !Refuses(config, d1, batch) by { hide ValidApproved, After, StateAt; }
      AfterIsStateAt(config, d1, Attempt(batch, Total(batch, Previous(d1)), true));
      OpsLayout(batch, d);
      OpsLayout(batch, d1);
      hide ValidApproved, After, StateAt, Refuses, Ops, StagingOps, ScheduleFor, SwitchPosition;
      RetryFromAnywhere(d, batch, n);
    }
  }

  lemma {:induction false} StillAllowed(d: Disk, batch: Batch, n: nat)
    requires Complete(batch) && n <= Total(batch, Previous(d)) && !Superseded(d, Epoch(batch))
    requires d.schedule.Some? ==> d.schedule.value.version == 5
    ensures var d1 := StateAt(d, batch, n);
            && !Superseded(d1, Epoch(batch))
            && (d1.schedule.Some? ==> d1.schedule.value.version == 5)
  {
    hide AuthorizationMap, EmergencyMap, EmergencyFor, EntryFor;
  }

  /** An uninterrupted, accepted activation ends with its own schedule, limits and marker. */
  lemma {:induction false} ActivationCompletes(config: VaultConfig, d: Disk, batch: Batch, cut: nat)
    requires !Refuses(config, d, batch)
    ensures Complete(batch)
    ensures cut >= Total(batch, Previous(d)) ==>
              var d' := After(config, d, Attempt(batch, cut, true));
              && d'.schedule == Some(ScheduleFor(batch)) && Epoch(batch) in d'.accepted
              && d'.monthlyLimit == batch.manifest.monthlyLimit && d'.emergencyLimit == batch.manifest.emergencyLimit
              && d'.Dir(Epoch(batch)).activated && d'.Dir(Epoch(batch)).staged == d'.schedule
  {
    NotSuperseded(config, d, batch);
    OpsLayout(batch, d);
    AfterIsStateAt(config, d, Attempt(batch, cut, true));
    hide ValidApproved, After, Refuses, Ops, StagingOps, ScheduleFor, AuthorizationMap, EmergencyMap;
  }
}
