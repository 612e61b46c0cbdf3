/** What rotation guarantees over every history of runs, crashes and rejections
    (src/hot_wallet/rotation.rs). */
module RotationSafety {
  import opened Wrappers
  import opened Bitcoin
  import opened Psbts
  import opened Ceremony
  import opened Sweep
  import opened Rotation
  import opened RotationActivation
  import Activation
  import ColdSigner
  import ActivationSafety

  /** The archive holds the live configuration and key, and the replacements. */
  predicate Retains(a: Archive, d: Disk, p: RotationPackage) {
    && a.config == Some(d.config) && a.device == Some(d.device)
    && a.newConfig == Some(RotatedConfig(d.config, p.newPhone)) && a.newDevice == Some(p.newPhone)
    && a.newBackup == p.backup && a.newBackup.Some?
  }

  /** The disk after n operations of a run. */
  ghost predicate Progress(d: Disk, r: Run, n: nat, d': Disk) {
    var x, s := SweepId(r.package), SweepAt(r);
    && (forall y :: y != x ==> (y in d'.archives <==> y in d.archives) && d'.ArchiveOf(y) == d.ArchiveOf(y))
    && (x in d'.archives <==> n >= 1 || x in d.archives)
    && d'.ArchiveOf(x).config == (if n >= 1 then Some(d.config) else d.ArchiveOf(x).config)
    && d'.ArchiveOf(x).device == (if n >= 2 then Some(d.device) else d.ArchiveOf(x).device)
    && d'.ArchiveOf(x).newConfig == (if n >= 4 then Some(RotatedConfig(d.config, r.package.newPhone)) else d.ArchiveOf(x).newConfig)
    && d'.ArchiveOf(x).newDevice == (if n >= 5 then Some(r.package.newPhone) else d.ArchiveOf(x).newDevice)
    && d'.ArchiveOf(x).newBackup == (if n >= 6 then r.package.backup else d.ArchiveOf(x).newBackup)
    && (n <= 7 ==> d'.sent == d.sent)
    && d.sent <= d'.sent && (forall e :: e in d'.sent && e !in d.sent ==> e.sweep == x)
    && (n <= s ==> d'.policy == d.policy) && (n > s ==> Sent(VaultSweep, x) in d'.sent)
    && (n > s + 2 ==> d'.policy.schedule.None?)
    && d'.config == (if n > s + 5 then RotatedConfig(d.config, r.package.newPhone) else d.config)
    && d'.device == (if n > s + 6 then r.package.newPhone else d.device)
    && d'.wallet == (if n > s + 4 then None else if n >= 7 && d.wallet.None? then Some(HotWallet(d.device, 0, 0)) else d.wallet)
    && d'.ArchiveOf(x).wallet
       == (if n <= s + 4 then d.ArchiveOf(x).wallet else if d.wallet.Some? then d.wallet else Some(HotWallet(d.device, 0, 0)))
  }

  lemma {:induction false} EarlySendsShape(r: Run, i: nat)
    requires i < |EarlySends(r)|
    ensures EarlySends(r)[i].WriteHotSweep? || EarlySends(r)[i].Publish?
  {
  }

  // What one operation does to the archives: only the archive of this sweep is touched.
  lemma {:induction false} OneArchive(x: Txid, op: Op, d: Disk, y: Txid)
    requires y != x
    ensures var d' := Apply(x, op, d); (y in d'.archives <==> y in d.archives) && d'.ArchiveOf(y) == d.ArchiveOf(y)
  {
  }

  // The seventh operation opens the hot wallet.
  function FirstOps(d: Disk, r: Run): seq<Op> {
    PreserveOps(d, r.package) + [OpenWallet(d.device)]
  }

  lemma {:induction false} PreserveStep(d: Disk, r: Run, n: nat, d': Disk)
    requires n < 7 && Progress(d, r, n, d')
    ensures Progress(d, r, n + 1, Apply(SweepId(r.package), FirstOps(d, r)[n], d'))
  {
    hide EarlySends;
    forall y | y != SweepId(r.package)
      ensures var d'' := Apply(SweepId(r.package), FirstOps(d, r)[n], d');
              (y in d''.archives <==> y in d.archives) && d''.ArchiveOf(y) == d.ArchiveOf(y)
    {
      OneArchive(SweepId(r.package), FirstOps(d, r)[n], d', y);
    }
  }

  lemma {:induction false} EarlyStep(d: Disk, r: Run, n: nat, d': Disk)
    requires 7 <= n < SweepAt(r) && Progress(d, r, n, d')
    ensures Progress(d, r, n + 1, Apply(SweepId(r.package), EarlySends(r)[n - 7], d'))
  {
    EarlySendsShape(r, n - 7);
    hide EarlySends;
    forall y | y != SweepId(r.package)
      ensures var d'' := Apply(SweepId(r.package), EarlySends(r)[n - 7], d');
              (y in d''.archives <==> y in d.archives) && d''.ArchiveOf(y) == d.ArchiveOf(y)
    {
      OneArchive(SweepId(r.package), EarlySends(r)[n - 7], d', y);
    }
  }

  lemma {:induction false} SwitchStep(d: Disk, r: Run, n: nat, d': Disk)
    requires SweepAt(r) <= n < SweepAt(r) + 8 && Progress(d, r, n, d')
    ensures Progress(d, r, n + 1, Apply(SweepId(r.package), SwitchOps(d, r.package)[n - SweepAt(r)], d'))
  {
    hide EarlySends;
    var op := SwitchOps(d, r.package)[n - SweepAt(r)];
    forall y | y != SweepId(r.package)
      ensures var d'' := Apply(SweepId(r.package), op, d');
              (y in d''.archives <==> y in d.archives) && d''.ArchiveOf(y) == d.ArchiveOf(y)
    {
      OneArchive(SweepId(r.package), op, d', y);
    }
  }

  lemma {:induction false} ProgressStep(d: Disk, r: Run, n: nat, d': Disk)
    requires n < |Ops(d, r)| && Progress(d, r, n, d')
    ensures Progress(d, r, n + 1, Apply(SweepId(r.package), Ops(d, r)[n], d'))
  {
    OpsLayout(d, r);
    hide Ops, EarlySends, Progress, Apply;
    if n < 7 {
      PreserveStep(d, r, n, d');
    } else if n < SweepAt(r) {
      EarlyStep(d, r, n, d');
    } else {
      SwitchStep(d, r, n, d');
    }
  }

  lemma {:induction false} PrefixProgress(d: Disk, r: Run, n: nat)
    requires n <= |Ops(d, r)|
    ensures Progress(d, r, n, ApplyAll(SweepId(r.package), Ops(d, r)[..n], d))
  {
    hide Ops, Apply;
    if n > 0 {
      PrefixProgress(d, r, n - 1);
      assert Ops(d, r)[..n][..n - 1] == Ops(d, r)[..n - 1];
      ProgressStep(d, r, n - 1, ApplyAll(SweepId(r.package), Ops(d, r)[..n - 1], d));
      hide Progress, ApplyAll;
    }
  }

  /** One run, cut anywhere: if it sent anything, the archive already held both generations; it
      switched the configuration, and then the device, only after the vault sweep was accepted. */
  lemma {:induction false} RunRetainsKeys(d: Disk, r: Run, n: nat, d': Disk)
    requires Step(d, r, n, d')
    ensures var x := SweepId(r.package);
            && (d'.sent != d.sent ==> x in d'.archives && Retains(d'.archives[x], d, r.package))
            && (d'.config != d.config || d'.device != d.device ==>
                  && Sent(VaultSweep, x) in d'.sent && Retains(d'.ArchiveOf(x), d, r.package)
                  && d'.policy.schedule.None?)
            && (d'.device != d.device ==> d'.config == RotatedConfig(d.config, r.package.newPhone))
  {
    if Activatable(d.config, r.pending, r.package) {
      PrefixProgress(d, r, n);
      hide Activatable, StopsAt, ApplyAll, Ops;
    }
  }

  /** Starting from agreement, the configuration and the device key disagree after a run exactly when
      it stopped between the two writes of a rotation to a different key; the missing key is then in
      the archive. */
  lemma {:induction false} OnlyWindow(d: Disk, r: Run, n: nat, d': Disk)
    requires Step(d, r, n, d') && d.device == d.config.phone
    ensures d'.device != d'.config.phone
       <==> Activatable(d.config, r.pending, r.package) && n == SweepAt(r) + 6 && r.package.newPhone != d.config.phone
    ensures d'.device != d'.config.phone ==> d'.ArchiveOf(SweepId(r.package)).newDevice == Some(d'.config.phone)
  {
    if Activatable(d.config, r.pending, r.package) {
      PrefixProgress(d, r, n);
      hide Activatable, StopsAt, ApplyAll, Ops;
    }
  }

  /** The run opens its wallet, finds no foreign files in its archive, and all its broadcasts are accepted. */
  ghost predicate Unblocked(d: Disk, r: Run) {
    && !ForeignWallet(d) && !ArchiveTaken(d, SweepId(r.package))
    && FullySigned(d.config, r.package.sweep) && r.accepts == {HotSweep, ConnectorRevocation, VaultSweep}
  }

  /** Every such run that is cut at that point gets there. */
  lemma {:induction false} WindowIsReached(d: Disk, r: Run)
    requires Activatable(d.config, r.pending, r.package) && Unblocked(d, r)
    requires d.device == d.config.phone && r.package.newPhone != d.config.phone && r.cut == SweepAt(r) + 6
    ensures var n := SweepAt(r) + 6;
            && n <= |Ops(d, r)|
            && var d' := ApplyAll(SweepId(r.package), Ops(d, r)[..n], d);
            && Step(d, r, n, d') && d'.config.phone == r.package.newPhone && d'.device == d.config.phone
  {
    var n := SweepAt(r) + 6;
    OpsLayout(d, r);
    hide Ops, FullySigned, Activatable, ApplyAll;
    assert |Ops(d, r)| == SweepAt(r) + 8;
    PrefixProgress(d, r, n);
    hide Progress, EarlySends;
    assert forall i :: 0 <= i < n ==> !Blocks(d, r, Ops(d, r)[i]);
  }

  /** So every package that the phone builds and the hardware wallet approves has such a run. */
  lemma {:induction false} BuiltRotationHasWindow(d: Disk, utxos: seq<Utxo>, newPhone: Key, built: RotationPackage, r: Run)
    requires IsRotation(d.config, utxos, newPhone, built) && ApprovedRotation(d.config, built, r.package) && r.pending == Some(newPhone)
    requires !ForeignWallet(d) && !ArchiveTaken(d, SweepId(r.package)) && r.accepts == {HotSweep, ConnectorRevocation, VaultSweep}
    requires d.device == d.config.phone && newPhone != d.config.phone && r.cut == SweepAt(r) + 6
    ensures exists d' :: Step(d, r, SweepAt(r) + 6, d') && d'.config.phone == newPhone && d'.device == d.config.phone
  {
    RotationComposes(d.config, utxos, newPhone, built, r.package);
    SamePhone(d.config, utxos, newPhone, built, r.package);
    hide IsRotation, ApprovedRotation, Activatable, FullySigned, Ops, Step;
    WindowIsReached(d, r);
  }

  lemma {:induction false} SamePhone(config: VaultConfig, utxos: seq<Utxo>, newPhone: Key, p: RotationPackage, q: RotationPackage)
    requires IsRotation(config, utxos, newPhone, p) && ApprovedRotation(config, p, q)
    ensures q.newPhone == newPhone
  {
    hide IsSweepOf, SweepPossible, ValidBatch, HasPrevouts;
  }

  /** Once the configuration has been switched to a different key, the same package is refused. */
  lemma {:induction false} NoSecondSwitch(d: Disk, r: Run, n: nat, d': Disk, pending: Option<Key>)
    requires Step(d, r, n, d') && d'.config != d.config
    ensures !Activatable(d'.config, pending, r.package)
  {
    PrefixProgress(d, r, n);
    hide StopsAt, ApplyAll, Ops, ValidSweep;
  }

  // ----- Histories -----

  /** A run cut after so many operations, or anything else that the wallet does. */
  datatype Event = Rotate(run: Run, cut: nat) | Meanwhile

  /** Between runs policies are activated, limits and backups set, the hot wallet used: everything but
      the keys, the archives and what earlier rotations sent may change. */
  ghost predicate Environment(d: Disk, d': Disk) {
    && d'.config == d.config.(monthlyLimit := d'.config.monthlyLimit, emergencyLimit := d'.config.emergencyLimit)
    && d'.device == d.device && d'.archives == d.archives && d'.sent == d.sent
  }

  ghost predicate Happens(d: Disk, e: Event, d': Disk) {
    match e
    case Rotate(run, cut) => Step(d, run, cut, d')
    case Meanwhile => Environment(d, d')
  }

  /** Any sequence of runs, of any packages, and of other activity. */
  ghost predicate History(disks: seq<Disk>, events: seq<Event>) {
    && |disks| == |events| + 1
    && forall i :: 0 <= i < |events| ==> Happens(disks[i], events[i], disks[i + 1])
  }

  /** The package records the outputs that its inputs really spend. */
  predicate Truthful(actual: map<OutPoint, TxOut>, p: RotationPackage) {
    forall i :: 0 <= i < |p.sweep.psbt.tx.inputs| && i < |p.sweep.psbt.inputs| ==>
      && p.sweep.psbt.tx.inputs[i].prevout in actual
      && p.sweep.psbt.inputs[i].utxo == Some(actual[p.sweep.psbt.tx.inputs[i].prevout])
  }

  /** The archive of sweep y holds the configuration and phone key of the vault that y empties, and
      those of the vault that y fills. */
  predicate BothGenerations(actual: map<OutPoint, TxOut>, y: Txid, a: Archive) {
    && y.TxidOf? && |y.tx.inputs| > 0 && |y.tx.outputs| == 1 && y.tx.inputs[0].prevout in actual
    && a.config.Some? && a.config.value.Vault() == actual[y.tx.inputs[0].prevout].script
    && a.device == Some(a.config.value.phone)
    && a.newConfig.Some? && a.newConfig.value.Vault() == y.tx.outputs[0].script
    && a.newDevice == Some(a.newConfig.value.phone)
  }

  ghost predicate AllRetained(actual: map<OutPoint, TxOut>, d: Disk) {
    forall e :: e in d.sent ==> e.sweep in d.archives && BothGenerations(actual, e.sweep, d.archives[e.sweep])
  }

  // The sweep of an accepted package goes from the configured vault to the replacement.
  lemma {:induction false} SweepEnds(actual: map<OutPoint, TxOut>, config: VaultConfig, pending: Option<Key>, p: RotationPackage)
    requires Activatable(config, pending, p) && Truthful(actual, p)
    ensures var tx := p.sweep.psbt.tx;
            && |tx.inputs| > 0 && |tx.outputs| == 1 && tx.inputs[0].prevout in actual
            && actual[tx.inputs[0].prevout].script == config.Vault()
            && tx.outputs[0].script == RotatedConfig(config, p.newPhone).Vault()
  {
    assert ValidSweep(config, p.sweep);
  }

  lemma {:induction false} RunKeepsRetention(actual: map<OutPoint, TxOut>, d: Disk, r: Run, n: nat, d': Disk)
    requires Step(d, r, n, d') && AllRetained(actual, d)
    requires d.device == d.config.phone && Truthful(actual, r.package)
    ensures AllRetained(actual, d')
  {
    if Activatable(d.config, r.pending, r.package) {
      PrefixProgress(d, r, n);
      SweepEnds(actual, d.config, r.pending, r.package);
      hide Activatable, StopsAt, ApplyAll, Ops, Truthful;
      var x := SweepId(r.package);
      forall e | e in d'.sent
        ensures e.sweep in d'.archives && BothGenerations(actual, e.sweep, d'.archives[e.sweep])
      {
        if e.sweep == x {
          if e in d.sent {
            assert BothGenerations(actual, x, d.archives[x]);
          }
        } else {
          assert e in d.sent && d'.ArchiveOf(e.sweep) == d.ArchiveOf(e.sweep);
        }
      }
    }
  }

  /** Key retention over every history: whenever any broadcast of any rotation was accepted, its
      archive holds the old and the replacement configuration and key. Each run must start with the
      configured key on the device, and name its inputs' outputs truthfully. */
  lemma {:induction false} KeysAreRetained(actual: map<OutPoint, TxOut>, disks: seq<Disk>, events: seq<Event>, n: nat)
    requires History(disks, events) && n < |disks| && disks[0].sent == {}
    requires forall i :: 0 <= i < n && events[i].Rotate? ==>
               disks[i].device == disks[i].config.phone && Truthful(actual, events[i].run.package)
    ensures AllRetained(actual, disks[n])
  {
    hide Step, Truthful;
    if n > 0 {
      KeysAreRetained(actual, disks, events, n - 1);
      var e := events[n - 1];
      assert Happens(disks[n - 1], e, disks[n]);
      if e.Rotate? {
        RunKeepsRetention(actual, disks[n - 1], e.run, e.cut, disks[n]);
      }
    } else {
      NothingSent(actual, disks[0]);
    }
  }

  lemma {:induction false} NothingSent(actual: map<OutPoint, TxOut>, d: Disk)
    requires d.sent == {}
    ensures AllRetained(actual, d)
  {
  }

  // ----- No key is ever lost -----

  /** The sweep empties, or fills, the vault of this phone key. */
  predicate Empties(actual: map<OutPoint, TxOut>, hww: Key, x: Txid, k: Key) {
    && x.TxidOf? && |x.tx.inputs| > 0 && x.tx.inputs[0].prevout in actual
    && actual[x.tx.inputs[0].prevout].script == VaultScript(k, hww)
  }

  predicate Fills(hww: Key, x: Txid, k: Key) {
    x.TxidOf? && |x.tx.outputs| == 1 && x.tx.outputs[0].script == VaultScript(k, hww)
  }

  /** Some archive holds the key as a replacement. */
  ghost predicate Replacement(d: Disk, k: Key) {
    exists x :: x in d.archives && d.archives[x].newDevice == Some(k)
  }

  /** Some archive holds the key, as a replacement or as the key of the vault that it empties. */
  ghost predicate Kept(actual: map<OutPoint, TxOut>, hww: Key, d: Disk, k: Key) {
    || Replacement(d, k)
    || exists x :: x in d.archives && d.archives[x].device == Some(k) && Empties(actual, hww, x, k)
  }

  // An archived replacement is the key of the vault that its sweep fills.
  ghost predicate ReplacementsFill(hww: Key, d: Disk) {
    forall x :: x in d.archives && d.archives[x].newDevice.Some? ==> Fills(hww, x, d.archives[x].newDevice.value)
  }

  /** The configured key is on the device or in an archive; so is the device's key, if another one is
      configured; and the archives hold the keys of every vault that an accepted broadcast belongs to. */
  ghost predicate Secured(actual: map<OutPoint, TxOut>, hww: Key, d: Disk) {
    && d.config.hww == hww && ReplacementsFill(hww, d)
    && (d.device != d.config.phone ==> Replacement(d, d.config.phone) && Kept(actual, hww, d, d.device))
    && (forall e :: e in d.sent ==>
          && (exists k :: Empties(actual, hww, e.sweep, k) && Kept(actual, hww, d, k))
          && (exists k :: Fills(hww, e.sweep, k) && Replacement(d, k)))
  }

  // What one run does to the archives.
  ghost predicate ArchivesAfter(d: Disk, r: Run, d': Disk) {
    var x := SweepId(r.package);
    && (forall y :: y != x && y in d.archives ==> y in d'.archives && d'.archives[y] == d.archives[y])
    && (forall y :: y != x && y in d'.archives ==> y in d.archives)
    && (x in d.archives ==> x in d'.archives)
    && (x in d'.archives ==>
          && d'.archives[x].device in {Some(d.device), d.ArchiveOf(x).device}
          && d'.archives[x].newDevice in {Some(r.package.newPhone), d.ArchiveOf(x).newDevice})
    && (d'.sent != d.sent || d'.config != d.config || d'.device != d.device ==>
          x in d'.archives && d'.archives[x].device == Some(d.device) && d'.archives[x].newDevice == Some(r.package.newPhone))
    && (forall e :: e in d'.sent && e !in d.sent ==> e.sweep == x)
    && d.sent <= d'.sent
    && d'.config in {d.config, RotatedConfig(d.config, r.package.newPhone)}
    && d'.device in {d.device, r.package.newPhone}
    && (d'.device != d.device ==> d'.config == RotatedConfig(d.config, r.package.newPhone))
  }

  lemma {:induction false} RunArchives(d: Disk, r: Run, n: nat, d': Disk)
    requires Step(d, r, n, d') && Activatable(d.config, r.pending, r.package)
    ensures ArchivesAfter(d, r, d')
  {
    PrefixProgress(d, r, n);
    hide Activatable, StopsAt, ApplyAll, Ops, EarlySends;
    forall y | y != SweepId(r.package)
      ensures y in d.archives ==> y in d'.archives && d'.archives[y] == d.archives[y]
      ensures y in d'.archives ==> y in d.archives
    {
      assert d'.ArchiveOf(y) == d.ArchiveOf(y);
    }
    ArchiveFields(d, r, n, d');
    hide Progress;
  }

  lemma {:induction false} ArchiveFields(d: Disk, r: Run, n: nat, d': Disk)
    requires Progress(d, r, n, d') && n <= SweepAt(r) + 8
    ensures var x := SweepId(r.package);
            && (x in d.archives ==> x in d'.archives)
            && (x in d'.archives ==>
                  && d'.archives[x].device in {Some(d.device), d.ArchiveOf(x).device}
                  && d'.archives[x].newDevice in {Some(r.package.newPhone), d.ArchiveOf(x).newDevice})
            && (d'.sent != d.sent || d'.config != d.config || d'.device != d.device ==>
                  x in d'.archives && d'.archives[x].device == Some(d.device) && d'.archives[x].newDevice == Some(r.package.newPhone))
            && (forall e :: e in d'.sent && e !in d.sent ==> e.sweep == x)
            && d.sent <= d'.sent
            && d'.config in {d.config, RotatedConfig(d.config, r.package.newPhone)}
            && d'.device in {d.device, r.package.newPhone}
            && (d'.device != d.device ==> d'.config == RotatedConfig(d.config, r.package.newPhone))
  {
    hide EarlySends;
  }

  lemma {:induction false} ReplacementStays(hww: Key, d: Disk, r: Run, d': Disk, k: Key)
    requires ArchivesAfter(d, r, d') && ReplacementsFill(hww, d) && Fills(hww, SweepId(r.package), r.package.newPhone)
    ensures ReplacementsFill(hww, d')
    ensures Replacement(d, k) ==> Replacement(d', k)
  {
    if Replacement(d, k) {
      var y :| y in d.archives && d.archives[y].newDevice == Some(k);
      assert y in d'.archives && d'.archives[y].newDevice == Some(k);
    }
  }

  lemma {:induction false} KeptStays(actual: map<OutPoint, TxOut>, hww: Key, d: Disk, r: Run, d': Disk, k: Key)
    requires ArchivesAfter(d, r, d') && ReplacementsFill(hww, d) && Fills(hww, SweepId(r.package), r.package.newPhone)
    requires Empties(actual, hww, SweepId(r.package), d.config.phone)
    requires d.device != d.config.phone ==> Replacement(d, d.config.phone)
    ensures Kept(actual, hww, d, k) ==> Kept(actual, hww, d', k)
  {
    ReplacementStays(hww, d, r, d', k);
    ReplacementStays(hww, d, r, d', d.config.phone);
    if !Replacement(d, k) && Kept(actual, hww, d, k) {
      var y :| y in d.archives && d.archives[y].device == Some(k) && Empties(actual, hww, y, k);
      assert y in d'.archives;
      assert y == SweepId(r.package) ==> k == d.config.phone;
    }
  }

  // The keys of this run's own sweep.
  lemma {:induction false} OwnKeys(actual: map<OutPoint, TxOut>, hww: Key, d: Disk, r: Run, d': Disk)
    requires ArchivesAfter(d, r, d') && ReplacementsFill(hww, d) && Fills(hww, SweepId(r.package), r.package.newPhone)
    requires Empties(actual, hww, SweepId(r.package), d.config.phone)
    requires d.device != d.config.phone ==> Replacement(d, d.config.phone) && Kept(actual, hww, d, d.device)
    requires d'.sent != d.sent || d'.config != d.config || d'.device != d.device
    ensures Kept(actual, hww, d', d.config.phone) && Kept(actual, hww, d', d.device) && Replacement(d', r.package.newPhone)
  {
    ReplacementStays(hww, d, r, d', d.config.phone);
    KeptStays(actual, hww, d, r, d', d.device);
    assert d'.archives[SweepId(r.package)].device == Some(d.device);
  }

  lemma {:induction false} RunKeepsSecured(actual: map<OutPoint, TxOut>, hww: Key, d: Disk, r: Run, n: nat, d': Disk)
    requires Step(d, r, n, d') && Secured(actual, hww, d) && Truthful(actual, r.package)
    ensures Secured(actual, hww, d')
  {
    if Activatable(d.config, r.pending, r.package) {
      RunArchives(d, r, n, d');
      SweepEnds(actual, d.config, r.pending, r.package);
      hide Step, Activatable, Truthful;
      ReplacementStays(hww, d, r, d', d.config.phone);
      KeptStays(actual, hww, d, r, d', d.device);
      if d'.sent != d.sent || d'.config != d.config || d'.device != d.device {
        OwnKeys(actual, hww, d, r, d');
      }
      forall e | e in d'.sent
        ensures exists k :: Empties(actual, hww, e.sweep, k) && Kept(actual, hww, d', k)
        ensures exists k :: Fills(hww, e.sweep, k) && Replacement(d', k)
      {
        if e in d.sent {
          var k :| Empties(actual, hww, e.sweep, k) && Kept(actual, hww, d, k);
          KeptStays(actual, hww, d, r, d', k);
          var l :| Fills(hww, e.sweep, l) && Replacement(d, l);
          ReplacementStays(hww, d, r, d', l);
        } else {
          assert Empties(actual, hww, e.sweep, d.config.phone) && Fills(hww, e.sweep, r.package.newPhone);
        }
      }
      hide Kept, Replacement, ReplacementsFill, Empties, Fills, ArchivesAfter;
    }
  }

  /** Over every history that starts with the configured key on the device, cut and rejected anywhere:
      the configured key is on the device or in an archive, and the archives hold the key of every
      vault that an accepted broadcast emptied and of every vault that it was to fill. */
  lemma {:induction false} KeysAreNeverLost(actual: map<OutPoint, TxOut>, disks: seq<Disk>, events: seq<Event>, n: nat)
    requires History(disks, events) && n < |disks|
    requires disks[0].sent == {} && disks[0].archives == map[] && disks[0].device == disks[0].config.phone
    requires forall i :: 0 <= i < n && events[i].Rotate? ==> Truthful(actual, events[i].run.package)
    ensures Secured(actual, disks[0].config.hww, disks[n])
  {
    hide Step, Truthful, Secured;
    if n > 0 {
      KeysAreNeverLost(actual, disks, events, n - 1);
      var e := events[n - 1];
      assert Happens(disks[n - 1], e, disks[n]);
      if e.Rotate? {
        RunKeepsSecured(actual, disks[0].config.hww, disks[n - 1], e.run, e.cut, disks[n]);
      } else {
        EnvironmentKeepsSecured(actual, disks[0].config.hww, disks[n - 1], disks[n]);
      }
    } else {
      SecuredAtFirst(actual, disks[0]);
    }
  }

  lemma {:induction false} EnvironmentKeepsSecured(actual: map<OutPoint, TxOut>, hww: Key, d: Disk, d': Disk)
    requires Environment(d, d') && Secured(actual, hww, d)
    ensures Secured(actual, hww, d')
  {
    forall k
      ensures Replacement(d, k) ==> Replacement(d', k)
      ensures Kept(actual, hww, d, k) ==> Kept(actual, hww, d', k)
    {
    }
    hide Replacement, Kept, Empties, Fills;
  }

  lemma {:induction false} SecuredAtFirst(actual: map<OutPoint, TxOut>, d: Disk)
    requires d.sent == {} && d.archives == map[] && d.device == d.config.phone
    ensures Secured(actual, d.config.hww, d)
  {
  }

  // ----- A switched package stays refused -----

  /** Over every history: after a run has switched the configuration to a different key, its package is
      refused at every later state, unless a later rotation has gone back to the old key. */
  lemma {:induction false} SwitchedStaysRefused(disks: seq<Disk>, events: seq<Event>, i: nat, q: nat, pending: Option<Key>)
    requires History(disks, events) && i < q < |disks|
    requires disks[i + 1].config.phone != disks[i].config.phone
    requires forall j :: i < j < q && events[j].Rotate? ==> events[j].run.package.newPhone != disks[i].config.phone
    ensures disks[q].config.phone != disks[i].config.phone
    ensures events[i].Rotate? && !Activatable(disks[q].config, pending, events[i].run.package)
  {
    hide Step, Activatable;
    PhoneStays(disks, events, i, q);
    assert Happens(disks[i], events[i], disks[i + 1]);
    SwitchIsOfConfigured(disks[i], events[i].run, events[i].cut, disks[i + 1]);
    if Activatable(disks[q].config, pending, events[i].run.package) {
      OnlyFromOldKey(disks[q].config, pending, events[i].run.package);
    }
  }

  lemma {:induction false} PhoneStays(disks: seq<Disk>, events: seq<Event>, i: nat, q: nat)
    requires History(disks, events) && i < q < |disks|
    requires disks[i + 1].config.phone != disks[i].config.phone
    requires forall j :: i < j < q && events[j].Rotate? ==> events[j].run.package.newPhone != disks[i].config.phone
    ensures disks[q].config.phone != disks[i].config.phone && disks[q].config.hww == disks[i].config.hww
  {
    hide Step;
    assert Happens(disks[q - 1], events[q - 1], disks[q]);
    if events[q - 1].Rotate? {
      RunSends(disks[q - 1], events[q - 1].run, events[q - 1].cut, disks[q]);
      RunKeepsHww(disks[q - 1], events[q - 1].run, events[q - 1].cut, disks[q]);
    }
    if q > i + 1 {
      PhoneStays(disks, events, i, q - 1);
    }
  }

  lemma {:induction false} RunKeepsHww(d: Disk, r: Run, n: nat, d': Disk)
    requires Step(d, r, n, d')
    ensures d'.config.hww == d.config.hww
  {
    if Activatable(d.config, r.pending, r.package) {
      PrefixProgress(d, r, n);
      hide Activatable, StopsAt, ApplyAll, Ops;
    }
  }

  lemma {:induction false} SwitchIsOfConfigured(d: Disk, r: Run, n: nat, d': Disk)
    requires Step(d, r, n, d') && d'.config.phone != d.config.phone
    ensures r.package.oldVault == d.config.Vault()
  {
    hide ApplyAll, Ops, StopsAt, ValidSweep;
  }

  lemma {:induction false} OnlyFromOldKey(config: VaultConfig, pending: Option<Key>, p: RotationPackage)
    requires Activatable(config, pending, p)
    ensures p.oldVault == VaultScript(config.phone, config.hww)
  {
    hide ValidSweep;
  }

  // ----- Switches follow sweeps -----

  lemma {:induction false} RunSends(d: Disk, r: Run, n: nat, d': Disk)
    requires Step(d, r, n, d')
    ensures d.sent <= d'.sent
    ensures d'.config.phone != d.config.phone ==> d'.config.phone == r.package.newPhone
    ensures d'.device != d.device ==> d'.device == r.package.newPhone
    ensures d'.config.phone != d.config.phone || d'.device != d.device ==> Sent(VaultSweep, SweepId(r.package)) in d'.sent
  {
    if Activatable(d.config, r.pending, r.package) {
      PrefixProgress(d, r, n);
      hide Activatable, StopsAt, ApplyAll, Ops;
    }
  }

  // The run after which `phone` was first seen.
  ghost predicate Replaced(disks: seq<Disk>, events: seq<Event>, n: nat, phone: Key, i: nat) {
    && i < n <= |events| && n < |disks| && events[i].Rotate? && events[i].run.package.newPhone == phone
    && Sent(VaultSweep, SweepId(events[i].run.package)) in disks[n].sent
  }

  /** Over every history: a configured key, or a device key, other than the original one belongs to
      a package whose vault sweep has been accepted. */
  lemma {:induction false} SwitchFollowsSweep(disks: seq<Disk>, events: seq<Event>, n: nat) returns (i: nat, j: nat)
    requires History(disks, events) && n < |disks|
    ensures disks[n].config.phone != disks[0].config.phone ==> Replaced(disks, events, n, disks[n].config.phone, i)
    ensures disks[n].device != disks[0].device ==> Replaced(disks, events, n, disks[n].device, j)
  {
    i, j := 0, 0;
    if n > 0 {
      i, j := SwitchFollowsSweep(disks, events, n - 1);
      var e := events[n - 1];
      assert Happens(disks[n - 1], e, disks[n]);
      if e.Rotate? {
        RunSends(disks[n - 1], e.run, e.cut, disks[n]);
      }
      hide Step;
      if disks[n].config.phone != disks[n - 1].config.phone {
        i := n - 1;
      }
      if disks[n].device != disks[n - 1].device {
        j := n - 1;
      }
    }
  }

  /** A run that reached its end leaves nothing of the old epoch active, so activating the renewed
      policy is never refused, and wherever that is cut, only the renewed schedule can be active,
      with its rollover accepted. */
  lemma {:induction false} RenewedPolicyActivates(d: Disk, r: Run, d': Disk, cut: nat, accepts: bool)
    requires Activatable(d.config, r.pending, r.package) && r.package.renewed.Some?
    requires Step(d, r, |Ops(d, r)|, d')
    ensures var config, renewed := RotatedConfig(d.config, r.package.newPhone), r.package.renewed.value;
            var after := Activation.After(config, d'.policy, Activation.Attempt(renewed, cut, accepts));
            && d'.config == config && !Activation.Refuses(config, d'.policy, renewed)
            && Activation.Complete(renewed)
            && (after.schedule.Some? ==>
                  after.schedule == Some(Activation.ScheduleFor(renewed)) && Activation.Epoch(renewed) in after.accepted)
            && (accepts && cut >= ActivationSafety.Total(renewed, None) ==> after.schedule.Some?)
  {
    var config, renewed := RotatedConfig(d.config, r.package.newPhone), r.package.renewed.value;
    PrefixProgress(d, r, |Ops(d, r)|);
    OpsLayout(d, r);
    Activation.ApprovedIsComplete(config, renewed);
    assert d'.policy.schedule.None? && d'.config == config;
    NotRefused(config, d'.policy, renewed);
    hide Activatable, StopsAt, ApplyAll, Ops, Activation.Refuses, Activation.After, Activation.Complete, Activation.ScheduleFor;
    ActivationSafety.AttemptEffect(config, d'.policy, Activation.Attempt(renewed, cut, accepts));
    ActivationSafety.ActivationCompletes(config, d'.policy, renewed, cut);
  }

  lemma {:induction false} NotRefused(config: VaultConfig, d: Activation.Disk, renewed: Batch)
    requires d.schedule.None? && ColdSigner.ValidApproved(config, renewed)
    ensures !Activation.Refuses(config, d, renewed)
  {
    Activation.ApprovedIsComplete(config, renewed);
    hide ColdSigner.ValidApproved;
  }
}
