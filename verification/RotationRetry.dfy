/** Retrying an interrupted rotation (src/hot_wallet/rotation.rs). */
module RotationRetry {
  import opened Wrappers
  import opened Bitcoin
  import opened Psbts
  import opened Ceremony
  import opened Sweep
  import opened Rotation
  import opened RotationActivation
  import opened RotationSafety
  import Activation

  /** What n operations of a run have done to the old epoch and to the backups. */
  ghost predicate Moved(d: Disk, r: Run, n: nat, d': Disk) {
    var s, a, a' := SweepAt(r), d.ArchiveOf(SweepId(r.package)), d'.ArchiveOf(SweepId(r.package));
    && d'.policy == d.policy.(schedule := if n > s + 2 then None else d.policy.schedule,
                              epochs := if n > s + 3 then map[] else d.policy.epochs)
    && a'.schedule == (if n > s + 2 && d.policy.schedule.Some? then d.policy.schedule else a.schedule)
    && a'.epochs == (if n > s + 3 && d.policy.epochs != map[] then d.policy.epochs else a.epochs)
    && a'.backup == (if n >= 3 && d.backup.Some? then d.backup else a.backup)
    && d'.backup == (if n > s + 7 then r.package.backup else d.backup)
  }

  lemma {:induction false} FirstMoved(d: Disk, r: Run, n: nat, d': Disk)
    requires n < 7 && Moved(d, r, n, d')
    ensures Moved(d, r, n + 1, Apply(SweepId(r.package), FirstOps(d, r)[n], d'))
  {
    hide EarlySends;
  }

  lemma {:induction false} EarlyMoved(d: Disk, r: Run, n: nat, d': Disk)
    requires 7 <= n < SweepAt(r) && Moved(d, r, n, d')
    ensures Moved(d, r, n + 1, Apply(SweepId(r.package), EarlySends(r)[n - 7], d'))
  {
    EarlySendsShape(r, n - 7);
    hide EarlySends;
  }

  lemma {:induction false} SwitchMoved(d: Disk, r: Run, n: nat, d': Disk)
    requires SweepAt(r) <= n < SweepAt(r) + 8 && Moved(d, r, n, d')
    ensures Moved(d, r, n + 1, Apply(SweepId(r.package), SwitchOps(d, r.package)[n - SweepAt(r)], d'))
  {
    hide EarlySends;
  }

  lemma {:induction false} PrefixMoved(d: Disk, r: Run, n: nat)
    requires n <= |Ops(d, r)|
    ensures Moved(d, r, n, ApplyAll(SweepId(r.package), Ops(d, r)[..n], d))
  {
    hide Moved, Apply;
    if n > 0 {
      PrefixMoved(d, r, n - 1);
      RotationActivation.ApplyNext(SweepId(r.package), Ops(d, r), n - 1, d);
      OpsLayout(d, r);
      var d' := ApplyAll(SweepId(r.package), Ops(d, r)[..n - 1], d);
      hide Ops, ApplyAll, EarlySends;
      if n - 1 < 7 {
        FirstMoved(d, r, n - 1, d');
      } else if n - 1 < SweepAt(r) {
        EarlyMoved(d, r, n - 1, d');
      } else {
        SwitchMoved(d, r, n - 1, d');
      }
    } else {
      NothingMoved(d, r);
    }
  }

  lemma {:induction false} NothingMoved(d: Disk, r: Run)
    ensures Moved(d, r, 0, d) && ApplyAll(SweepId(r.package), Ops(d, r)[..0], d) == d
  {
  }

  /** Every broadcast is accepted, and nothing interrupts the run. */
  ghost predicate Unhindered(d: Disk, r: Run) {
    && r.accepts == {HotSweep, ConnectorRevocation, VaultSweep} && FullySigned(d.config, r.package.sweep)
    && r.cut >= |Ops(d, r)|
  }

  /** Such a run completes exactly when the hot wallet's database belongs to the device, and the old
      policy directory has a free place in the archive. */
  lemma {:induction false} CompletesExactly(d: Disk, r: Run, n: nat, d': Disk)
    requires Activatable(d.config, r.pending, r.package) && Unhindered(d, r) && Step(d, r, n, d')
    ensures n == |Ops(d, r)| <==> !ForeignWallet(d) && !ArchiveTaken(d, SweepId(r.package))
  {
    OpsLayout(d, r);
    hide Ops, FullySigned, Activatable, ApplyAll, ForeignWallet, ArchiveTaken;
    var ops, s := Ops(d, r), SweepAt(r);
    assert Blocks(d, r, ops[6]) <==> ForeignWallet(d);
    assert Blocks(d, r, ops[s + 3]) <==> ArchiveTaken(d, SweepId(r.package));
    forall i | 0 <= i < |ops| && i != 6 && i != s + 3
      ensures !Blocks(d, r, ops[i])
    {
      if 7 <= i < s {
        EarlySendsShape(r, i - 7);
      }
    }
  }

  /** What a run that stopped before the configuration was written leaves for the next one. */
  lemma {:induction false} Interrupted(d: Disk, r: Run, n: nat, d': Disk)
    requires Activatable(d.config, r.pending, r.package) && Step(d, r, n, d') && n <= SweepAt(r) + 5
    ensures d'.config == d.config && d'.device == d.device && d'.backup == d.backup
    ensures ForeignWallet(d') <==> ForeignWallet(d)
    ensures ArchiveTaken(d', SweepId(r.package)) <==> ArchiveTaken(d, SweepId(r.package))
  {
    PrefixProgress(d, r, n);
    PrefixMoved(d, r, n);
    NotBlockedBefore(d, r, n);
    hide *;
    InterruptedFields(d, r, n, d');
  }

  lemma {:induction false} NotBlockedBefore(d: Disk, r: Run, n: nat)
    requires StopsAt(d, r, n)
    ensures n > 6 ==> !ForeignWallet(d)
    ensures n > SweepAt(r) + 3 ==> !ArchiveTaken(d, SweepId(r.package))
  {
    OpsLayout(d, r);
    hide Ops, EarlySends, FullySigned, ForeignWallet, ArchiveTaken;
    assert n > 6 ==> !Blocks(d, r, Ops(d, r)[6]);
    assert n > SweepAt(r) + 3 ==> !Blocks(d, r, Ops(d, r)[SweepAt(r) + 3]);
  }

  lemma {:induction false} InterruptedFields(d: Disk, r: Run, n: nat, d': Disk)
    requires Progress(d, r, n, d') && Moved(d, r, n, d') && n <= SweepAt(r) + 5
    requires n > 6 ==> !ForeignWallet(d)
    requires n > SweepAt(r) + 3 ==> !ArchiveTaken(d, SweepId(r.package))
    ensures d'.config == d.config && d'.device == d.device && d'.backup == d.backup
    ensures ForeignWallet(d') <==> ForeignWallet(d)
    ensures ArchiveTaken(d', SweepId(r.package)) <==> ArchiveTaken(d, SweepId(r.package))
  {
    hide EarlySends;
  }

  /** The same, but for what a retry repeats: the hot wallet's database and sweep in the archive. */
  ghost predicate SameOutcome(x: Txid, d: Disk, e: Disk) {
    && d.config == e.config && d.device == e.device && d.backup == e.backup && d.policy == e.policy && d.wallet == e.wallet
    && d.archives.Keys == e.archives.Keys && (forall y :: y in d.archives && y != x ==> d.archives[y] == e.archives[y])
    && d.ArchiveOf(x).(wallet := None, hotSweep := None) == e.ArchiveOf(x).(wallet := None, hotSweep := None)
    && Sent(VaultSweep, x) in d.sent && Sent(VaultSweep, x) in e.sent
  }

  /** Retrying converges. From every stop before the configuration was written, an unhindered retry of
      the same package with nothing in between completes if and only if the wallet and the archive were
      usable from the start; and then it ends where an uninterrupted run ends. */
  lemma {:induction false} RetryConverges(d: Disk, r: Run, n: nat, d1: Disk, again: Run, m: nat, d2: Disk)
    requires Activatable(d.config, r.pending, r.package) && Step(d, r, n, d1) && n <= SweepAt(r) + 5
    requires again.package == r.package && again.pending == r.pending && Unhindered(d1, again) && Step(d1, again, m, d2)
    ensures m == |Ops(d1, again)| <==> !ForeignWallet(d) && !ArchiveTaken(d, SweepId(r.package))
    ensures forall whole, d3 :: m == |Ops(d1, again)| && Uninterrupted(d, r, whole, d3) ==> SameOutcome(SweepId(r.package), d2, d3)
  {
    Interrupted(d, r, n, d1);
    CompletesExactly(d1, again, m, d2);
    hide Step, Activatable, Unhindered, SameOutcome, ForeignWallet, ArchiveTaken;
    forall whole, d3 | m == |Ops(d1, again)| && Uninterrupted(d, r, whole, d3)
      ensures SameOutcome(SweepId(r.package), d2, d3)
    {
      Outcome(d, r, n, d1, again, d2, whole, d3);
    }
  }

  /** A complete run of the same package from the same disk. */
  ghost predicate Uninterrupted(d: Disk, r: Run, whole: Run, d': Disk) {
    whole.package == r.package && whole.pending == r.pending && Step(d, whole, |Ops(d, whole)|, d')
  }

  lemma {:induction false} Outcome(d: Disk, r: Run, n: nat, d1: Disk, again: Run, d2: Disk, whole: Run, d3: Disk)
    requires Activatable(d.config, r.pending, r.package) && Step(d, r, n, d1) && n <= SweepAt(r) + 5
    requires again.package == whole.package == r.package && again.pending == whole.pending == r.pending
    requires Step(d1, again, |Ops(d1, again)|, d2) && Step(d, whole, |Ops(d, whole)|, d3)
    ensures SameOutcome(SweepId(r.package), d2, d3)
  {
    Interrupted(d, r, n, d1);
    PrefixProgress(d, r, n);
    PrefixMoved(d, r, n);
    PrefixProgress(d1, again, |Ops(d1, again)|);
    PrefixMoved(d1, again, |Ops(d1, again)|);
    PrefixProgress(d, whole, |Ops(d, whole)|);
    PrefixMoved(d, whole, |Ops(d, whole)|);
    OpsLayout(d1, again);
    OpsLayout(d, whole);
    hide Activatable, ApplyAll, Ops, StopsAt, EarlySends;
    SameArchives(d, r, n, d1, again, d2, whole, d3);
  }

  lemma {:induction false} SameArchives(d: Disk, r: Run, n: nat, d1: Disk, again: Run, d2: Disk, whole: Run, d3: Disk)
    requires again.package == whole.package == r.package && n <= SweepAt(r) + 5
    requires Progress(d, r, n, d1) && Moved(d, r, n, d1)
    requires Progress(d1, again, SweepAt(again) + 8, d2) && Moved(d1, again, SweepAt(again) + 8, d2)
    requires Progress(d, whole, SweepAt(whole) + 8, d3) && Moved(d, whole, SweepAt(whole) + 8, d3)
    ensures SameOutcome(SweepId(r.package), d2, d3)
  {
    hide EarlySends;
    var x := SweepId(r.package);
    forall y | y != x
      ensures y in d2.archives <==> y in d3.archives
      ensures y in d2.archives ==> d2.archives[y] == d3.archives[y]
    {
      assert d2.ArchiveOf(y) == d1.ArchiveOf(y) == d.ArchiveOf(y) == d3.ArchiveOf(y);
    }
    assert d2.archives.Keys == d3.archives.Keys;
  }
}
