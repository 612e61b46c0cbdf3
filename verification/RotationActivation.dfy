/** Carrying out a phone-key rotation: durable writes, renames and up to three broadcasts, which a
    crash, a failed write or a rejection can cut anywhere (src/hot_wallet/rotation.rs). */
module RotationActivation {
  import opened Wrappers
  import opened Bitcoin
  import opened Psbts
  import opened Ceremony
  import opened HotAddresses
  import opened ColdSigner
  import opened Proposal
  import opened Sweep
  import opened Rotation
  import Activation
  import ActivationSafety

  datatype BroadcastKind = HotSweep | ConnectorRevocation | VaultSweep

  /** The hot wallet's database: whose it is, and how far its two address cursors have advanced. */
  datatype HotWallet = HotWallet(owner: Key, next: nat, nextChange: nat)

  /** The archive of one rotation, named by its sweep. */
  datatype Archive = Archive(
    config: Option<VaultConfig>,
    device: Option<Key>,
    backup: Option<Backup>,
    newConfig: Option<VaultConfig>,
    newDevice: Option<Key>,
    newBackup: Option<Backup>,
    hotSweep: Option<Tx>,
    schedule: Option<Activation.Schedule>,
    epochs: map<Txid, Activation.EpochDir>,
    wallet: Option<HotWallet>)

  const EMPTY_ARCHIVE := Archive(None, None, None, None, None, None, None, None, map[], None)

  /** An accepted broadcast of the rotation with this sweep. */
  datatype Sent = Sent(kind: BroadcastKind, sweep: Txid)

  datatype Disk = Disk(
    config: VaultConfig,
    device: Key,
    backup: Option<Backup>,
    archives: map<Txid, Archive>,
    sent: set<Sent>,
    policy: Activation.Disk,
    wallet: Option<HotWallet>)
  {
    function ArchiveOf(x: Txid): Archive {
      if x in archives then archives[x] else EMPTY_ARCHIVE
    }

    function WithArchive(x: Txid, a: Archive): Disk {
      this.(archives := archives[x := a])
    }
  }

  datatype Op =
    | KeepConfig(config: VaultConfig)
    | KeepDevice(device: Key)
    | KeepBackup(backup: Option<Backup>)
    | ReplacementConfig(config: VaultConfig)
    | ReplacementDevice(device: Key)
    | ReplacementBackup(backup: Option<Backup>)
    | OpenWallet(owner: Key)
    | WriteHotSweep(tx: Tx)
    | Publish(kind: BroadcastKind)
    | MoveSchedule
    | MoveTransactions
    | MoveWallet
    | SetConfig(config: VaultConfig)
    | SetDevice(device: Key)
    | SetBackup(backup: Option<Backup>)

  function Apply(x: Txid, op: Op, d: Disk): Disk {
    var a := d.ArchiveOf(x);
    match op
    case KeepConfig(config) => d.WithArchive(x, a.(config := Some(config)))
    case KeepDevice(device) => d.WithArchive(x, a.(device := Some(device)))
    case KeepBackup(backup) => if backup.Some? then d.WithArchive(x, a.(backup := backup)) else d
    case ReplacementConfig(config) => d.WithArchive(x, a.(newConfig := Some(config)))
    case ReplacementDevice(device) => d.WithArchive(x, a.(newDevice := Some(device)))
    case ReplacementBackup(backup) => d.WithArchive(x, a.(newBackup := backup))
    case OpenWallet(owner) => if d.wallet.None? then d.(wallet := Some(HotWallet(owner, 0, 0))) else d
    case WriteHotSweep(tx) => d.WithArchive(x, a.(hotSweep := Some(tx)))
    case Publish(kind) => d.(sent := d.sent + {Sent(kind, x)})
    case MoveSchedule =>
      if d.policy.schedule.None? then d
      else d.WithArchive(x, a.(schedule := d.policy.schedule)).(policy := d.policy.(schedule := None))
    case MoveTransactions =>
      if d.policy.epochs == map[] then d
      else d.WithArchive(x, a.(epochs := d.policy.epochs)).(policy := d.policy.(epochs := map[]))
    case MoveWallet =>
      if d.wallet.None? then d else d.WithArchive(x, a.(wallet := d.wallet)).(wallet := None)
    case SetConfig(config) => d.(config := config)
    case SetDevice(device) => d.(device := device)
    case SetBackup(backup) => d.(backup := backup)
  }

  function ApplyAll(x: Txid, ops: seq<Op>, d: Disk): Disk {
    if ops == [] then d else Apply(x, ops[|ops| - 1], ApplyAll(x, ops[..|ops| - 1], d))
  }

  /** One run: the package, the pending replacement key that it finds, what the chain scan finds (a hot
      balance, live connectors), how many durable operations happen before a crash, and which
      broadcasts are accepted. */
  datatype Run = Run(package: RotationPackage, pending: Option<Key>, hotSweep: Option<Tx>, revokes: bool, cut: nat, accepts: set<BroadcastKind>)

  function SweepId(p: RotationPackage): Txid {
    TxidOf(p.sweep.psbt.tx)
  }

  /** `preserve_rotation_keys`. */
  function PreserveOps(d: Disk, p: RotationPackage): seq<Op> {
    [KeepConfig(d.config), KeepDevice(d.device), KeepBackup(d.backup),
     ReplacementConfig(RotatedConfig(d.config, p.newPhone)), ReplacementDevice(p.newPhone), ReplacementBackup(p.backup)]
  }

  /** The hot sweep and the connector revocation; the hot wallet is opened before them. */
  function EarlySends(r: Run): seq<Op> {
    (if r.hotSweep.Some? then [WriteHotSweep(r.hotSweep.value), Publish(HotSweep)] else [])
    + (if r.revokes then [Publish(ConnectorRevocation)] else [])
  }

  /** The vault sweep, the archiving of the old epoch, and the switch to the new key. */
  function SwitchOps(d: Disk, p: RotationPackage): seq<Op> {
    [Publish(VaultSweep), KeepConfig(d.config), MoveSchedule, MoveTransactions, MoveWallet,
     SetConfig(RotatedConfig(d.config, p.newPhone)), SetDevice(p.newPhone), SetBackup(p.backup)]
  }

  function Ops(d: Disk, r: Run): seq<Op> {
    PreserveOps(d, r.package) + [OpenWallet(d.device)] + EarlySends(r) + SwitchOps(d, r.package)
  }

  // The position of the vault sweep's broadcast.
  function SweepAt(r: Run): nat {
    7 + |EarlySends(r)|
  }

  /** The hot wallet's database belongs to another key. */
  predicate ForeignWallet(d: Disk) {
    d.wallet.Some? && d.wallet.value.owner != d.device
  }

  /** The archive already holds a directory of transactions, and there is another one to move. */
  predicate ArchiveTaken(d: Disk, x: Txid) {
    d.policy.epochs != map[] && d.ArchiveOf(x).epochs != map[]
  }

  /** What stops a run that starts from `d`: a rejected broadcast, a sweep that cannot be finalized, a
      wallet that cannot be opened, a directory that cannot be moved over another. */
  ghost predicate Blocks(d: Disk, r: Run, op: Op) {
    || (op.Publish? && (op.kind !in r.accepts || (op.kind.VaultSweep? && !FullySigned(d.config, r.package.sweep))))
    || (op.OpenWallet? && ForeignWallet(d))
    || (op.MoveTransactions? && ArchiveTaken(d, SweepId(r.package)))
  }

  /** The run ends after n operations. */
  ghost predicate StopsAt(d: Disk, r: Run, n: nat) {
    var ops := Ops(d, r);
    && n <= |ops| && n <= r.cut
    && (forall i :: 0 <= i < n ==> !Blocks(d, r, ops[i]))
    && (n == |ops| || n == r.cut || Blocks(d, r, ops[n]))
  }

  /** One run of `activate_phone_rotation` up to the renewed policy's activation. */
  ghost predicate Step(d: Disk, r: Run, n: nat, d': Disk) {
    if Activatable(d.config, r.pending, r.package) then
      StopsAt(d, r, n) && d' == ApplyAll(SweepId(r.package), Ops(d, r)[..n], d)
    else d' == d
  }

  // ----- The phone's code -----

  class RotatingPhone {
    var disk: Disk
    var remaining: nat

    constructor (disk: Disk, remaining: nat)
      ensures this.disk == disk && this.remaining == remaining
    {
      this.disk, this.remaining := disk, remaining;
    }

    ghost predicate At(r: Run, n: nat, before: Disk)
      reads this
    {
      var ops := Ops(before, r);
      && n <= |ops| && n <= r.cut && remaining == r.cut - n
      && disk == ApplyAll(SweepId(r.package), ops[..n], before)
      && forall i :: 0 <= i < n ==> !Blocks(before, r, ops[i])
    }

    /** One atomic durable operation, or one broadcast. */
    method Durable(r: Run, op: Op, blocked: bool, ghost n: nat, ghost before: Disk) returns (ok: bool)
      requires At(r, n, before) && n < |Ops(before, r)| && Ops(before, r)[n] == op
      requires blocked <==> Blocks(before, r, op)
      modifies this
      ensures ok ==> At(r, n + 1, before)
      ensures !ok ==> At(r, n, before) && StopsAt(before, r, n)
    {
      if remaining == 0 || blocked {
        return false;
      }
      assert Ops(before, r)[..n + 1][..n] == Ops(before, r)[..n];
      disk := Apply(SweepId(r.package), op, disk);
      remaining := remaining - 1;
      return true;
    }

    /** `preserve_rotation_keys`. */
    method Preserve(r: Run, ghost before: Disk) returns (ok: bool, ghost n: nat)
      requires At(r, 0, before) && disk == before
      modifies this
      ensures ok ==> n == 6 && At(r, 6, before)
      ensures !ok ==> At(r, n, before) && StopsAt(before, r, n) && n < |Ops(before, r)|
    {
      hide ApplyAll, Apply;
      OpsLayout(before, r);
      var p, c, k, b := r.package, disk.config, disk.device, disk.backup;
      n := 0;
      ok := Durable(r, KeepConfig(c), false, 0, before);
      if !ok { return; }
      n := 1;
      ok := Durable(r, KeepDevice(k), false, 1, before);
      if !ok { return; }
      n := 2;
      ok := Durable(r, KeepBackup(b), false, 2, before);
      if !ok { return; }
      n := 3;
      ok := Durable(r, ReplacementConfig(RotatedConfig(c, p.newPhone)), false, 3, before);
      if !ok { return; }
      n := 4;
      ok := Durable(r, ReplacementDevice(p.newPhone), false, 4, before);
      if !ok { return; }
      n := 5;
      ok := Durable(r, ReplacementBackup(p.backup), false, 5, before);
      if !ok { return; }
      n := 6;
    }

    /** The hot sweep and the revocation of live connectors, when there is anything to send. The hot
        wallet is opened first, and created if there is none. */
    method SendEarly(r: Run, device: Key, foreign: bool, ghost before: Disk) returns (ok: bool, ghost n: nat)
      requires At(r, 6, before) && (foreign <==> ForeignWallet(before))
      requires device == before.device
      modifies this
      ensures ok ==> n == SweepAt(r) && At(r, n, before)
      ensures !ok ==> At(r, n, before) && StopsAt(before, r, n) && n < |Ops(before, r)|
    {
      hide ApplyAll, Apply;
      OpsLayout(before, r);
      n := 6;
      ok := Durable(r, OpenWallet(device), foreign, n, before);
      if !ok { return; }
      n := 7;
      if r.hotSweep.Some? {
        ok := Durable(r, WriteHotSweep(r.hotSweep.value), false, n, before);
        if !ok { return; }
        n := n + 1;
        ok := Durable(r, Publish(HotSweep), HotSweep !in r.accepts, n, before);
        if !ok { return; }
        n := n + 1;
      }
      if r.revokes {
        ok := Durable(r, Publish(ConnectorRevocation), ConnectorRevocation !in r.accepts, n, before);
        if !ok { return; }
        n := n + 1;
      }
    }

    /** From the vault sweep to the new key. */
    method Switch(config: VaultConfig, r: Run, taken: bool, ghost before: Disk) returns (ok: bool, ghost n: nat)
      requires At(r, SweepAt(r), before) && config == before.config && (taken <==> ArchiveTaken(before, SweepId(r.package)))
      modifies this
      ensures ok ==> n == |Ops(before, r)| && At(r, n, before)
      ensures !ok ==> At(r, n, before) && StopsAt(before, r, n) && n < |Ops(before, r)|
    {
      hide ApplyAll, Apply;
      OpsLayout(before, r);
      var p := r.package;
      n := SweepAt(r);
      var finalized := FinalizeCooperativeSweep(config, p.sweep);
      ok := Durable(r, Publish(VaultSweep), VaultSweep !in r.accepts || !finalized, n, before);
      if !ok { return; }
      n := n + 1;
      ok := Durable(r, KeepConfig(config), false, n, before);
      if !ok { return; }
      n := n + 1;
      ok := Durable(r, MoveSchedule, false, n, before);
      if !ok { return; }
      n := n + 1;
      ok := Durable(r, MoveTransactions, taken, n, before);
      if !ok { return; }
      n := n + 1;
      ok := Durable(r, MoveWallet, false, n, before);
      if !ok { return; }
      n := n + 1;
      ok := Durable(r, SetConfig(RotatedConfig(config, p.newPhone)), false, n, before);
      if !ok { return; }
      n := n + 1;
      ok := Durable(r, SetDevice(p.newPhone), false, n, before);
      if !ok { return; }
      n := n + 1;
      ok := Durable(r, SetBackup(p.backup), false, n, before);
      if !ok { return; }
      n := n + 1;
    }

    /** `activate_phone_rotation`, up to the renewed policy's activation. */
    method Activate(r: Run) returns (ok: bool, ghost n: nat)
      requires remaining == r.cut
      modifies this
      ensures Step(old(disk), r, n, disk)
      ensures ok <==> Activatable(old(disk.config), r.pending, r.package) && n == |Ops(old(disk), r)|
    {
      hide ApplyAll, Activatable, Ops;
      n := 0;
      ghost var before := disk;
      var config := disk.config;
      ok := CheckActivatable(config, r.pending, r.package);
      if !ok {
        return;
      }
      StartAt(r, before);
      var device, foreign, taken := disk.device, ForeignWallet(disk), ArchiveTaken(disk, SweepId(r.package));
      var replacement := new AddressCursor.Ephemeral(config.network, r.package.newPhone);
      var hotDestination := replacement.NextChangeAddress();
      ok, n := Preserve(r, before);
      if !ok { return; }
      ok, n := SendEarly(r, device, foreign, before);
      if !ok { return; }
      var revoked: Option<Address> := None;
      if r.revokes {
        var destination := replacement.NextChangeAddress();
        revoked := Some(destination);
      }
      ok, n := Switch(config, r, taken, before);
      if !ok { return; }
      assert Ops(before, r)[..n] == Ops(before, r);
      FullRun(before, r);
      ReplayIsChecked(before.config, r.pending, r.package);
      ok := CompareAddresses(r.package, hotDestination, revoked);
    }

    /** `HotWallet::open_or_create` for the device key, read only as its two cursors. */
    method OpenHotWallet() returns (hot: AddressCursor)
      requires !ForeignWallet(disk)
      ensures fresh(hot) && hot.network == disk.config.network && hot.owner == disk.device
      ensures disk.wallet.None? ==> hot.next == 0 && hot.nextChange == 0
      ensures disk.wallet.Some? ==> hot.next == disk.wallet.value.next && hot.nextChange == disk.wallet.value.nextChange
    {
      hot := new AddressCursor.Ephemeral(disk.config.network, disk.device);
      if disk.wallet.Some? {
        hot.next, hot.nextChange := disk.wallet.value.next, disk.wallet.value.nextChange;
      }
    }

    /** The comparison after the switch: the wallet that now opens must reproduce every address that
        the rotation used. It can only fail if an old database is still there, or if the addresses were
        not those of a fresh wallet. */
    method CompareAddresses(p: RotationPackage, hotDestination: Address, revoked: Option<Address>) returns (ok: bool)
      requires disk.wallet.None?
      ensures ok <==>
                && hotDestination == ChangeAddress(disk.config.network, disk.device, 0)
                && (revoked.Some? ==> revoked.value == ChangeAddress(disk.config.network, disk.device, 1))
                && (p.renewed.Some? ==> ReplaysFrom(disk.config.network, disk.device, p.renewed.value.manifest))
    {
      var hot := OpenHotWallet();
      var change := hot.NextChangeAddress();
      if change != hotDestination {
        return false;
      }
      if revoked.Some? {
        change := hot.NextChangeAddress();
        if change != revoked.value {
          return false;
        }
      }
      if p.renewed.None? {
        return true;
      }
      ok := ReplayAddresses(hot, p.renewed.value.manifest);
    }

    lemma {:induction false} StartAt(r: Run, before: Disk)
      requires disk == before && remaining == r.cut
      ensures At(r, 0, before)
    {
    }
  }

  // After a complete run the replacement key is on the device and no wallet database is left.
  lemma {:induction false} FullRun(d: Disk, r: Run)
    ensures var d' := ApplyAll(SweepId(r.package), Ops(d, r), d);
            d'.wallet.None? && d'.device == r.package.newPhone && d'.config == RotatedConfig(d.config, r.package.newPhone)
  {
    OpsLayout(d, r);
    var x, ops, s := SweepId(r.package), Ops(d, r), SweepAt(r);
    hide Ops, ApplyAll;
    ApplyNext(x, ops, s + 4, d);
    ApplyNext(x, ops, s + 5, d);
    ApplyNext(x, ops, s + 6, d);
    ApplyNext(x, ops, s + 7, d);
    assert ops[..s + 8] == ops;
  }

  lemma {:induction false} ApplyNext(x: Txid, ops: seq<Op>, n: nat, d: Disk)
    requires n < |ops|
    ensures ApplyAll(x, ops[..n + 1], d) == Apply(x, ops[n], ApplyAll(x, ops[..n], d))
  {
    assert ops[..n + 1][..n] == ops[..n];
  }

  lemma {:induction false} ReplayIsChecked(config: VaultConfig, pending: Option<Key>, p: RotationPackage)
    requires Activatable(config, pending, p)
    ensures p.renewed.Some? ==> ReplaysFrom(config.network, p.newPhone, p.renewed.value.manifest)
  {
    hide ValidRotation, ValidApproved, BoundToSweep;
  }

  lemma {:induction false} OpsLayout(d: Disk, r: Run)
    ensures var ops, p, s := Ops(d, r), r.package, SweepAt(r);
            && |ops| == s + 8
            && ops[0] == KeepConfig(d.config) && ops[1] == KeepDevice(d.device) && ops[2] == KeepBackup(d.backup)
            && ops[3] == ReplacementConfig(RotatedConfig(d.config, p.newPhone)) && ops[4] == ReplacementDevice(p.newPhone)
            && ops[5] == ReplacementBackup(p.backup) && ops[6] == OpenWallet(d.device)
            && (forall i :: 7 <= i < s ==> ops[i] == EarlySends(r)[i - 7])
            && ops[s] == Publish(VaultSweep) && ops[s + 1] == KeepConfig(d.config) && ops[s + 2] == MoveSchedule
            && ops[s + 3] == MoveTransactions && ops[s + 4] == MoveWallet
            && ops[s + 5] == SetConfig(RotatedConfig(d.config, p.newPhone))
            && ops[s + 6] == SetDevice(p.newPhone) && ops[s + 7] == SetBackup(p.backup)
  {
  }
}
