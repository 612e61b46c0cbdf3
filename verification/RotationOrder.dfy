/** What a rotation sends before it moves the vault and switches keys (src/hot_wallet/rotation.rs). */
module RotationOrder {
  import opened Wrappers
  import opened Bitcoin
  import opened Psbts
  import opened Ceremony
  import opened Sweep
  import opened Rotation
  import opened RotationActivation
  import opened RotationSafety

  /** What the hot sweep and the revocation have left on the disk, with the archive holding the sweep. */
  ghost predicate HotSwept(r: Run, d: Disk) {
    r.hotSweep.Some? ==> Sent(HotSweep, SweepId(r.package)) in d.sent && d.ArchiveOf(SweepId(r.package)).hotSweep == r.hotSweep
  }

  ghost predicate Revoked(r: Run, d: Disk) {
    r.revokes ==> Sent(ConnectorRevocation, SweepId(r.package)) in d.sent
  }

  ghost predicate Sends(d: Disk, d': Disk, kind: BroadcastKind, r: Run) {
    Sent(kind, SweepId(r.package)) in d'.sent && Sent(kind, SweepId(r.package)) !in d.sent
  }

  // How far the two early broadcasts have come after n operations.
  ghost predicate Early(d: Disk, r: Run, n: nat, d': Disk) {
    var x := SweepId(r.package);
    var revokesAt := if r.hotSweep.Some? then 9 else 7;
    && SweepAt(r) == revokesAt + (if r.revokes then 1 else 0)
    && d'.ArchiveOf(x).hotSweep == (if n >= 8 && r.hotSweep.Some? then r.hotSweep else d.ArchiveOf(x).hotSweep)
    && d'.sent == d.sent + (if n >= 9 && r.hotSweep.Some? then {Sent(HotSweep, x)} else {})
                         + (if n > revokesAt && r.revokes then {Sent(ConnectorRevocation, x)} else {})
                         + (if n > SweepAt(r) then {Sent(VaultSweep, x)} else {})
  }

  lemma {:induction false} EarlyShape(r: Run)
    ensures |EarlySends(r)| == (if r.hotSweep.Some? then 2 else 0) + (if r.revokes then 1 else 0)
    ensures r.hotSweep.Some? ==> EarlySends(r)[0] == WriteHotSweep(r.hotSweep.value) && EarlySends(r)[1] == Publish(HotSweep)
    ensures r.revokes ==> EarlySends(r)[|EarlySends(r)| - 1] == Publish(ConnectorRevocation)
  {
  }

  lemma {:induction false} EarlyStart(d: Disk, r: Run)
    ensures Early(d, r, 0, d) && ApplyAll(SweepId(r.package), Ops(d, r)[..0], d) == d
  {
    EarlyShape(r);
  }

  lemma {:induction false} WhatAnOpSends(x: Txid, op: Op, d: Disk)
    ensures var d' := Apply(x, op, d);
            && d'.sent == d.sent + (if op.Publish? then {Sent(op.kind, x)} else {})
            && d'.ArchiveOf(x).hotSweep == (if op.WriteHotSweep? then Some(op.tx) else d.ArchiveOf(x).hotSweep)
  {
  }

  lemma {:induction false} EarlyNext(d: Disk, r: Run, n: nat, d': Disk)
    requires n < |Ops(d, r)| && Early(d, r, n, d')
    ensures Early(d, r, n + 1, Apply(SweepId(r.package), Ops(d, r)[n], d'))
  {
    hide Ops, EarlySends, Apply;
    WhatIsSentAt(d, r, n);
    WhatAnOpSends(SweepId(r.package), Ops(d, r)[n], d');
  }

  // Where the hot sweep is written, and where the three broadcasts are.
  lemma {:induction false} WhatIsSentAt(d: Disk, r: Run, n: nat)
    requires n < |Ops(d, r)|
    ensures var op, revokesAt := Ops(d, r)[n], if r.hotSweep.Some? then 9 else 7;
            && SweepAt(r) == revokesAt + (if r.revokes then 1 else 0)
            && (op.WriteHotSweep? <==> r.hotSweep.Some? && n == 7) && (op.WriteHotSweep? ==> Some(op.tx) == r.hotSweep)
            && (op.Publish? <==> (r.hotSweep.Some? && n == 8) || (r.revokes && n == revokesAt) || n == SweepAt(r))
            && (op.Publish? ==> op.kind == if n == SweepAt(r) then VaultSweep else if n == 8 && r.hotSweep.Some? then HotSweep
                                           else ConnectorRevocation)
  {
    OpsLayout(d, r);
    EarlyShape(r);
    hide Ops, EarlySends;
  }

  lemma {:induction false} PrefixEarly(d: Disk, r: Run, n: nat)
    requires n <= |Ops(d, r)|
    ensures Early(d, r, n, ApplyAll(SweepId(r.package), Ops(d, r)[..n], d))
  {
    hide Early, Apply, Ops;
    if n > 0 {
      PrefixEarly(d, r, n - 1);
      ApplyNext(SweepId(r.package), Ops(d, r), n - 1, d);
      EarlyNext(d, r, n - 1, ApplyAll(SweepId(r.package), Ops(d, r)[..n - 1], d));
      hide ApplyAll;
    } else {
      EarlyStart(d, r);
    }
  }

  /** One run, cut anywhere. It archives its hot sweep before it sends it, sends that before it revokes the
      connectors, and both before it sends the vault sweep or switches a key; it sends nothing that it was
      not to send, or that is rejected; and what it changes in `sent` is exactly that. */
  lemma {:induction false} RunSendsInOrder(d: Disk, r: Run, n: nat, d': Disk)
    requires Step(d, r, n, d')
    ensures Sends(d, d', HotSweep, r) ==>
              r.hotSweep.Some? && HotSweep in r.accepts && d'.ArchiveOf(SweepId(r.package)).hotSweep == r.hotSweep
    ensures Sends(d, d', ConnectorRevocation, r) ==> r.revokes && ConnectorRevocation in r.accepts && HotSwept(r, d')
    ensures Sends(d, d', VaultSweep, r) ==>
              VaultSweep in r.accepts && FullySigned(d.config, r.package.sweep) && HotSwept(r, d') && Revoked(r, d')
    ensures d'.config != d.config || d'.device != d.device ==>
              Sent(VaultSweep, SweepId(r.package)) in d'.sent && HotSwept(r, d') && Revoked(r, d')
    ensures d.sent <= d'.sent && forall e :: e in d'.sent && e !in d.sent ==> e.sweep == SweepId(r.package)
    ensures d'.sent != d.sent ==>
              && r.package.sweep.phoneApproved && r.package.sweep.hwwApproved && r.pending == Some(r.package.newPhone)
              && (r.package.renewed.Some? ==> r.package.renewed.value.manifest.hwwApproved)
  {
    ActivatableIsApproved(d.config, r.pending, r.package);
    if Activatable(d.config, r.pending, r.package) {
      PrefixEarly(d, r, n);
      PrefixProgress(d, r, n);
      NothingBlocked(d, r, n);
      hide Activatable, StopsAt, ApplyAll, Ops, EarlySends;
    }
  }

  lemma {:induction false} ActivatableIsApproved(config: VaultConfig, pending: Option<Key>, p: RotationPackage)
    ensures Activatable(config, pending, p) ==>
              && p.sweep.phoneApproved && p.sweep.hwwApproved && pending == Some(p.newPhone)
              && (p.renewed.Some? ==> p.renewed.value.manifest.hwwApproved)
  {
  }

  // What the run has passed was accepted.
  lemma {:induction false} NothingBlocked(d: Disk, r: Run, n: nat)
    requires StopsAt(d, r, n)
    ensures n >= 9 && r.hotSweep.Some? ==> HotSweep in r.accepts
    ensures n >= SweepAt(r) && r.revokes ==> ConnectorRevocation in r.accepts
    ensures n > SweepAt(r) ==> VaultSweep in r.accepts && FullySigned(d.config, r.package.sweep)
  {
    OpsLayout(d, r);
    EarlyShape(r);
    hide Ops, EarlySends, FullySigned, ForeignWallet, ArchiveTaken;
    assert n >= 9 && r.hotSweep.Some? ==> !Blocks(d, r, Ops(d, r)[8]);
    assert n >= SweepAt(r) && r.revokes ==> !Blocks(d, r, Ops(d, r)[SweepAt(r) - 1]);
    assert n > SweepAt(r) ==> !Blocks(d, r, Ops(d, r)[SweepAt(r)]);
  }

  /** A rejected hot sweep or revocation stops the run: no vault sweep, and both keys stay. */
  lemma {:induction false} RejectionStopsSweep(d: Disk, r: Run, n: nat, d': Disk)
    requires Step(d, r, n, d')
    requires (r.hotSweep.Some? && HotSweep !in r.accepts) || (r.revokes && ConnectorRevocation !in r.accepts)
    ensures !Sends(d, d', VaultSweep, r) && d'.config == d.config && d'.device == d.device && d'.policy == d.policy
  {
    if Activatable(d.config, r.pending, r.package) {
      PrefixEarly(d, r, n);
      PrefixProgress(d, r, n);
      NothingBlocked(d, r, n);
      EarlyShape(r);
      hide Activatable, StopsAt, ApplyAll, Ops, EarlySends;
    }
  }

  lemma {:induction false} StepIsPrefix(d: Disk, r: Run, n: nat, d': Disk)
    requires Activatable(d.config, r.pending, r.package) && Step(d, r, n, d')
    ensures n <= |Ops(d, r)| && d' == ApplyAll(SweepId(r.package), Ops(d, r)[..n], d)
  {
    hide Activatable, ApplyAll, Ops, Blocks;
  }

  /** A run that reaches its end has sent all that it had to. */
  lemma {:induction false} CompleteRunSendsAll(d: Disk, r: Run, d': Disk)
    requires Activatable(d.config, r.pending, r.package) && Step(d, r, |Ops(d, r)|, d')
    ensures d'.sent == d.sent + {Sent(VaultSweep, SweepId(r.package))}
                       + (if r.hotSweep.Some? then {Sent(HotSweep, SweepId(r.package))} else {})
                       + (if r.revokes then {Sent(ConnectorRevocation, SweepId(r.package))} else {})
    ensures HotSwept(r, d') && Revoked(r, d')
  {
    StepIsPrefix(d, r, |Ops(d, r)|, d');
    PrefixEarly(d, r, |Ops(d, r)|);
    OpsLength(d, r);
    hide Activatable, Step, ApplyAll, Ops, EarlySends;
  }

  lemma {:induction false} OpsLength(d: Disk, r: Run)
    ensures |Ops(d, r)| == SweepAt(r) + 8
  {
  }

  // ----- Histories -----

  /** The run at position i has sent its vault sweep, after everything that it had to send before. */
  ghost predicate Prepared(disks: seq<Disk>, events: seq<Event>, n: nat, x: Txid, i: nat) {
    && i < n <= |events| && n < |disks| && events[i].Rotate? && SweepId(events[i].run.package) == x
    && HotSwept(events[i].run, disks[i + 1]) && Revoked(events[i].run, disks[i + 1])
    && (forall e :: e in disks[i + 1].sent ==> e in disks[n].sent)
  }

  lemma {:induction false} HappensKeepsSent(d: Disk, e: Event, d': Disk)
    requires Happens(d, e, d')
    ensures d.sent <= d'.sent
  {
    if e.Rotate? {
      RunSendsInOrder(d, e.run, e.cut, d');
    }
    hide Step;
  }

  /** Over every history: a vault sweep that was sent on the way was sent by a run which by then had swept
      the old hot wallet and revoked the live connectors, and a configured key that changed did so in one. */
  lemma {:induction false} SweepsArePrepared(disks: seq<Disk>, events: seq<Event>, n: nat, x: Txid) returns (i: nat)
    requires History(disks, events) && n < |disks|
    requires Sent(VaultSweep, x) in disks[n].sent && Sent(VaultSweep, x) !in disks[0].sent
    ensures Prepared(disks, events, n, x, i)
  {
    var d, e := disks[n - 1], events[n - 1];
    assert Happens(d, e, disks[n]);
    HappensKeepsSent(d, e, disks[n]);
    hide Step;
    if Sent(VaultSweep, x) in d.sent {
      i := SweepsArePrepared(disks, events, n - 1, x);
    } else {
      RunSendsInOrder(d, e.run, e.cut, disks[n]);
      i := n - 1;
    }
  }

  lemma {:induction false} SwitchesArePrepared(disks: seq<Disk>, events: seq<Event>, i: nat)
    requires History(disks, events) && i < |events|
    requires disks[i + 1].config.phone != disks[i].config.phone || disks[i + 1].device != disks[i].device
    ensures events[i].Rotate? && Prepared(disks, events, i + 1, SweepId(events[i].run.package), i)
  {
    assert Happens(disks[i], events[i], disks[i + 1]);
    RunSendsInOrder(disks[i], events[i].run, events[i].cut, disks[i + 1]);
    hide Step;
  }
}
