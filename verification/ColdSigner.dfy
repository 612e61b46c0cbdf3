/** The hardware wallet's approval and the phone's check of the result (src/cold_wallet/mod.rs,
    src/core/ceremony.rs). */
module ColdSigner {
  import opened Wrappers
  import opened Bitcoin
  import opened Fees
  import opened Psbts
  import opened Ceremony
  import opened Validator
  import opened Builder
  import opened Proposal

  // ----- The transactions of an accepted batch are pairwise different -----

  /** What tells the transactions of a batch apart: depth, and the first input's sequence. */
  ghost predicate Placed(tx: Tx, depth: nat, sequence: U32) {
    |tx.inputs| > 0 && Depth(tx) == depth && tx.inputs[0].sequence == sequence
  }

  // Entry n of a manifest sits at this depth below its rollover.
  function EntryDepth(m: Manifest, n: nat): nat {
    if n <= |m.allowances| then n else n - |m.allowances|
  }

  function EntrySequence(m: Manifest, n: nat): U32 {
    if n <= |m.allowances| then MONTHLY_SEQUENCE else if n == |m.allowances| + 1 then SEQUENCE_MAX else EMERGENCY_SEQUENCE
  }

  lemma {:induction false} EntryAt(m: Manifest, n: nat)
    requires n < |ManifestTransactions(m)|
    ensures n == 0 ==> ManifestTransactions(m)[n] == m.rollover
    ensures 0 < n <= |m.allowances| ==> ManifestTransactions(m)[n] == m.allowances[n - 1].authorization
    ensures n > |m.allowances| ==> m.emergency.Some? && n <= |m.allowances| + 2
    ensures m.emergency.Some? && n == |m.allowances| + 1 ==> ManifestTransactions(m)[n] == m.emergency.value.trigger
    ensures m.emergency.Some? && n == |m.allowances| + 2 ==> ManifestTransactions(m)[n] == m.emergency.value.withdrawal
  {
  }

  lemma {:induction false} ChainPlaced(config: VaultConfig, limit: U64, count: nat, files: Files, rollover: Tx,
                                       allowances: seq<AllowanceStep>, k: nat)
    requires k < |allowances| <= count
    requires forall j :: 0 <= j <= k ==> ValidStep(config, limit, count, files, rollover, allowances, j)
    ensures allowances[k].authorization.file in files
    ensures Placed(files[allowances[k].authorization.file].tx, Depth(rollover) + k + 1, MONTHLY_SEQUENCE)
  {
    hide PolicyVsize, MinimalNonDust;
    assert ValidStep(config, limit, count, files, rollover, allowances, k);
    if k > 0 {
      ChainPlaced(config, limit, count, files, rollover, allowances, k - 1);
    }
  }

  lemma {:induction false} EmergencyPlaced(config: VaultConfig, limit: U64, remainderVout: U32, connectorVout: U32,
                                           files: Files, rollover: Tx, e: EmergencyPolicy)
    requires ValidEmergency(config, limit, remainderVout, connectorVout, files, rollover, Some(e))
    ensures e.trigger.file in files && Placed(files[e.trigger.file].tx, Depth(rollover) + 1, SEQUENCE_MAX)
    ensures e.withdrawal.file in files && Placed(files[e.withdrawal.file].tx, Depth(rollover) + 2, EMERGENCY_SEQUENCE)
  {
    hide PolicyVsize, MinimalNonDust, ValidChild;
  }

  lemma {:induction false} EntryPlaced(config: VaultConfig, batch: Batch, n: nat)
    requires ValidBatch(config, batch) && 0 < n < |ManifestTransactions(batch.manifest)|
    ensures var m := batch.manifest;
            && ManifestTransactions(m)[n].file in batch.files && m.rollover.file in batch.files
            && Placed(batch.files[ManifestTransactions(m)[n].file].tx,
                      Depth(batch.files[m.rollover.file].tx) + EntryDepth(m, n), EntrySequence(m, n))
  {
    var m, files := batch.manifest, batch.files;
    BatchParts(config, batch);
    EntryAt(m, n);
    hide ValidBatch, ValidStep, ValidRollover, ValidEmergency, ManifestTransactions, Placed;
    var rollover := files[m.rollover.file].tx;
    if n <= |m.allowances| {
      ChainPlaced(config, m.monthlyLimit, m.allowanceCount, files, rollover, m.allowances, n - 1);
    } else {
      EmergencyPlaced(config, m.emergencyLimit, RemainderVout(m), EmergencyVout(m), files, rollover, m.emergency.value);
    }
  }

  /** No two entries of an accepted batch are the same transaction, so no two share a file. */
  lemma {:induction false} EntriesAreDistinct(config: VaultConfig, batch: Batch, i: nat, j: nat)
    requires ValidBatch(config, batch) && i < j < |ManifestTransactions(batch.manifest)|
    ensures var entries := ManifestTransactions(batch.manifest);
            && entries[i].file in batch.files && entries[j].file in batch.files
            && batch.files[entries[i].file].tx != batch.files[entries[j].file].tx
            && entries[i].file != entries[j].file
  {
    hide ValidBatch, ManifestTransactions, EntryDepth, EntrySequence, Depth;
    var m := batch.manifest;
    EntryAt(m, i);
    EntryAt(m, j);
    PlacesDiffer(m, i, j);
    EntryPlaced(config, batch, j);
    if i > 0 {
      EntryPlaced(config, batch, i);
    }
  }

  // Two entries differ in depth, or in the sequence of their first input.
  lemma {:induction false} PlacesDiffer(m: Manifest, i: nat, j: nat)
    requires i < j <= |m.allowances| + 2
    ensures EntryDepth(m, i) != EntryDepth(m, j) || EntrySequence(m, i) != EntrySequence(m, j)
    ensures i == 0 ==> EntryDepth(m, j) > 0
  {
  }

  // ----- Signing leaves a batch valid -----

  /** The same unsigned transaction over the same recorded outputs. */
  predicate SameUnsigned(p: Psbt, q: Psbt) {
    && q.tx == p.tx && |q.inputs| == |p.inputs|
    && forall i :: 0 <= i < |p.inputs| ==> q.inputs[i].utxo == p.inputs[i].utxo
  }

  lemma {:induction false} SameRoleSum(p: Psbt, q: Psbt, indexes: seq<nat>)
    requires SameUnsigned(p, q)
    requires forall k :: 0 <= k < |indexes| ==> indexes[k] < |p.inputs| && p.inputs[indexes[k]].utxo.Some?
    ensures RoleSum(q, indexes) == RoleSum(p, indexes)
  {
    if indexes != [] {
      SameRoleSum(p, q, indexes[1..]);
    }
  }

  lemma {:induction false} RolloverStaysValid(config: VaultConfig, m: Manifest, p: Psbt, q: Psbt, approved: bool)
    requires ValidRollover(config, m, p) && SameUnsigned(p, q)
    ensures ValidRollover(config, m.(hwwApproved := approved), q)
    ensures HasPrevouts(p)
  {
    var V, C := m.rollover.vaultIndexes, m.rollover.controllerIndexes;
    SameRoleSum(p, q, V);
    SameRoleSum(p, q, C);
    PartitionIsExact(|p.tx.inputs|, V, C);
    hide PolicyVsize, MinimalNonDust, RolloverOutputs, ValidateInputPartition;
    forall i | 0 <= i < |p.inputs|
      ensures p.inputs[i].utxo.Some?
    {
      assert i in V || i in C;
    }
  }

  lemma {:induction false} ChildStaysValid(p: Psbt, q: Psbt, prevout: TxOut, vaultOutpoint: OutPoint, connector: OutPoint,
                                           controller: Script, t: BatchTransaction)
    requires ValidChild(p, prevout, vaultOutpoint, connector, controller, t) && SameUnsigned(p, q)
    requires q.inputs[1].signatures == p.inputs[1].signatures
    ensures ValidChild(q, prevout, vaultOutpoint, connector, controller, t)
    ensures HasPrevouts(p)
  {
  }

  /** `after` is `before` with the hardware wallet's signature added to every vault input of every
      entry, and the manifest marked. */
  ghost predicate HwwSigned(config: VaultConfig, before: Batch, after: Batch) {
    var m := before.manifest;
    && after.manifest == m.(hwwApproved := true)
    && after.files.Keys == before.files.Keys
    && (forall t :: t in ManifestTransactions(m) ==>
          && t.file in before.files && HasPrevouts(before.files[t.file])
          && after.files[t.file] == Signed(before.files[t.file], config.hww, CooperativeLeaf(config), t.vaultIndexes))
    && (forall name :: name in before.files && !IsEntry(m, name) ==> after.files[name] == before.files[name])
  }

  ghost predicate IsEntry(m: Manifest, name: FileName) {
    exists t :: t in ManifestTransactions(m) && t.file == name
  }

  lemma {:induction false} EntryPrevouts(config: VaultConfig, batch: Batch)
    requires ValidBatch(config, batch)
    ensures forall t :: t in ManifestTransactions(batch.manifest) ==>
              t.file in batch.files && HasPrevouts(batch.files[t.file])
  {
    var m, files := batch.manifest, batch.files;
    BatchParts(config, batch);
    hide ValidBatch, ManifestTransactions, ValidStep, ValidEmergency, ValidRollover, HasPrevouts;
    var rollover := files[m.rollover.file];
    RolloverStaysValid(config, m, rollover, rollover, true);
    forall t | t in ManifestTransactions(m)
      ensures HasPrevouts(files[t.file])
    {
      if t != m.rollover {
        EntriesAreChildren(config, batch, t);
        var source: TxOut, outpoint, connector :|
          source.script == config.Vault() && ValidChild(files[t.file], source, outpoint, connector, config.Controller(), t);
        ChildStaysValid(files[t.file], files[t.file], source, outpoint, connector, config.Controller(), t);
      }
    }
  }

  /** As above, and the connector input keeps its signatures. */
  predicate SameConnector(p: Psbt, q: Psbt) {
    SameUnsigned(p, q) && (|p.inputs| > 1 ==> q.inputs[1].signatures == p.inputs[1].signatures)
  }

  lemma {:induction false} SigningIsSameUnsigned(p: Psbt, key: Key, leaf: Leaf, indexes: seq<nat>)
    requires HasPrevouts(p)
    ensures SameUnsigned(p, Signed(p, key, leaf, indexes))
    ensures DefaultSighashes(p) ==> DefaultSighashes(Signed(p, key, leaf, indexes))
    ensures 1 !in indexes ==> SameConnector(p, Signed(p, key, leaf, indexes))
  {
  }

  lemma {:induction false} StepStaysValid(config: VaultConfig, limit: U64, count: nat, files: Files, files': Files,
                                          rollover: Tx, allowances: seq<AllowanceStep>, k: nat)
    requires k < |allowances| <= count && files'.Keys == files.Keys
    requires ValidStep(config, limit, count, files, rollover, allowances, k)
    requires SameConnector(files[allowances[k].authorization.file], files'[allowances[k].authorization.file])
    requires k > 0 && allowances[k - 1].authorization.file in files ==>
               SameUnsigned(files[allowances[k - 1].authorization.file], files'[allowances[k - 1].authorization.file])
    ensures ValidStep(config, limit, count, files', rollover, allowances, k)
  {
    hide PolicyVsize, MinimalNonDust, SameUnsigned, ValidChild;
    var a := allowances[k];
    var p, q := files[a.authorization.file], files'[a.authorization.file];
    var parent := ParentTx(files, rollover, allowances, k).value;
    assert ParentTx(files', rollover, allowances, k) == Some(parent) by { SameTx(files, files', allowances, k); }
    SameConnectorTx(p, q);
    var txid := TxidOf(parent);
    assert ValidChild(q, parent.outputs[ChainVout(k)], OutPoint(txid, ChainVout(k)), OutPoint(txid, 2), config.Controller(), a.authorization) by {
      ConnectorChild(p, q, parent.outputs[ChainVout(k)], OutPoint(txid, ChainVout(k)), OutPoint(txid, 2), config.Controller(), a.authorization);
    }
  }

  lemma {:induction false} SameTx(files: Files, files': Files, allowances: seq<AllowanceStep>, k: nat)
    requires k < |allowances| && files'.Keys == files.Keys
    requires k > 0 && allowances[k - 1].authorization.file in files ==>
               SameUnsigned(files[allowances[k - 1].authorization.file], files'[allowances[k - 1].authorization.file])
    ensures k > 0 && allowances[k - 1].authorization.file in files ==>
              files'[allowances[k - 1].authorization.file].tx == files[allowances[k - 1].authorization.file].tx
  {
  }

  lemma {:induction false} SameConnectorTx(p: Psbt, q: Psbt)
    requires SameConnector(p, q)
    ensures q.tx == p.tx && |q.inputs| == |p.inputs|
  {
  }

  lemma {:induction false} ConnectorChild(p: Psbt, q: Psbt, prevout: TxOut, vaultOutpoint: OutPoint, connector: OutPoint,
                                          controller: Script, t: BatchTransaction)
    requires ValidChild(p, prevout, vaultOutpoint, connector, controller, t) && SameConnector(p, q)
    ensures ValidChild(q, prevout, vaultOutpoint, connector, controller, t)
  {
    ChildStaysValid(p, q, prevout, vaultOutpoint, connector, controller, t);
  }

  lemma {:induction false} EmergencyStaysValid(config: VaultConfig, limit: U64, remainderVout: U32, connectorVout: U32,
                                               files: Files, files': Files, rollover: Tx, e: Option<EmergencyPolicy>)
    requires ValidEmergency(config, limit, remainderVout, connectorVout, files, rollover, e)
    requires files'.Keys == files.Keys
    requires e.Some? ==>
               && SameConnector(files[e.value.trigger.file], files'[e.value.trigger.file])
               && SameConnector(files[e.value.withdrawal.file], files'[e.value.withdrawal.file])
    ensures ValidEmergency(config, limit, remainderVout, connectorVout, files', rollover, e)
  {
    if e.Some? {
      hide PolicyVsize, MinimalNonDust, SameConnector, ValidChild;
      var trigger, withdrawal := files[e.value.trigger.file], files[e.value.withdrawal.file];
      SameConnectorTx(trigger, files'[e.value.trigger.file]);
      SameConnectorTx(withdrawal, files'[e.value.withdrawal.file]);
      ConnectorChild(trigger, files'[e.value.trigger.file], rollover.outputs[remainderVout],
                     OutPoint(TxidOf(rollover), remainderVout), OutPoint(TxidOf(rollover), connectorVout), config.Controller(), e.value.trigger);
      ConnectorChild(withdrawal, files'[e.value.withdrawal.file], TxOut(e.value.stagingValue, config.Vault()),
                     OutPoint(TxidOf(trigger.tx), 0), OutPoint(TxidOf(trigger.tx), 2), config.Controller(), e.value.withdrawal);
    }
  }

  lemma {:induction false} ChildRoles(config: VaultConfig, batch: Batch, t: BatchTransaction)
    requires ValidBatch(config, batch)
    requires t in ManifestTransactions(batch.manifest) && t != batch.manifest.rollover
    ensures t.vaultIndexes == [0] && t.controllerIndexes == [1] && t.file in batch.files
    ensures var p := batch.files[t.file];
            && |p.inputs| == 2 && p.inputs[1].signatures == map[] && HasPrevouts(p)
            && p.inputs[0].utxo.value.script == config.Vault()
  {
    EntriesAreChildren(config, batch, t);
    hide ValidBatch, ManifestTransactions;
  }

  lemma {:induction false} ApprovedEntry(config: VaultConfig, before: Batch, after: Batch, t: BatchTransaction)
    requires ValidBatch(config, before) && HwwSigned(config, before, after)
    requires t in ManifestTransactions(before.manifest)
    ensures t.file in before.files && t.file in after.files
    ensures SameUnsigned(before.files[t.file], after.files[t.file]) && DefaultSighashes(after.files[t.file])
    ensures t != before.manifest.rollover ==> SameConnector(before.files[t.file], after.files[t.file])
  {
    BatchParts(config, before);
    if t != before.manifest.rollover {
      ChildRoles(config, before, t);
    }
    hide ValidBatch, ManifestTransactions, ValidStep, ValidEmergency, ValidRollover, Signed, SameUnsigned, SameConnector, DefaultSighashes;
    SigningIsSameUnsigned(before.files[t.file], config.hww, CooperativeLeaf(config), t.vaultIndexes);
  }

  lemma {:induction false} ApprovalKeepsEntries(m: Manifest)
    ensures ManifestTransactions(m.(hwwApproved := true)) == ManifestTransactions(m)
    ensures m.rollover in ManifestTransactions(m)
    ensures forall k :: 0 <= k < |m.allowances| ==> m.allowances[k].authorization in ManifestTransactions(m)
    ensures m.emergency.Some? ==> m.emergency.value.trigger in ManifestTransactions(m)
                                  && m.emergency.value.withdrawal in ManifestTransactions(m)
  {
    AllEntriesListed(m);
  }

  /** Approval changes no unsigned transaction, and the approved batch is still accepted. */
  lemma {:induction false} ApprovalKeepsValid(config: VaultConfig, before: Batch, after: Batch)
    requires ValidBatch(config, before) && HwwSigned(config, before, after)
    ensures ValidBatch(config, after)
    ensures forall t :: t in ManifestTransactions(before.manifest) ==>
              t.file in before.files && t.file in after.files && after.files[t.file].tx == before.files[t.file].tx
  {
    var m := before.manifest;
    ApprovalKeepsEntries(m);
    forall t | t in ManifestTransactions(m)
      ensures t.file in before.files && t.file in after.files && SameUnsigned(before.files[t.file], after.files[t.file])
      ensures DefaultSighashes(after.files[t.file])
      ensures t != m.rollover ==> SameConnector(before.files[t.file], after.files[t.file])
    {
      ApprovedEntry(config, before, after, t);
    }
    assert after.manifest == m.(hwwApproved := true) && after.files.Keys == before.files.Keys;
    hide ValidBatch, HwwSigned, ManifestTransactions, SameConnector, DefaultSighashes;
    EditKeepsValid(config, before, after);
  }

  /** Validation looks neither at the hardware wallet's mark, nor at script trees, nor at signatures
      other than those of the later connectors. */
  lemma {:induction false} EditKeepsValid(config: VaultConfig, before: Batch, after: Batch)
    requires ValidBatch(config, before)
    requires after.manifest == before.manifest.(hwwApproved := after.manifest.hwwApproved) && after.files.Keys == before.files.Keys
    requires forall t :: t in ManifestTransactions(before.manifest) ==>
               && t.file in before.files && t.file in after.files && SameUnsigned(before.files[t.file], after.files[t.file])
               && DefaultSighashes(after.files[t.file])
               && (t != before.manifest.rollover ==> SameConnector(before.files[t.file], after.files[t.file]))
    ensures ValidBatch(config, after)
  {
    var m, files, files', approved := before.manifest, before.files, after.files, after.manifest.hwwApproved;
    BatchParts(config, before);
    AllEntriesListed(m);
    AuthorizationsAreChildren(config, before);
    assert ManifestTransactions(m.(hwwApproved := approved)) == ManifestTransactions(m);
    hide ValidBatch, ManifestTransactions, ValidStep, ValidRollover, ValidEmergency, SameConnector, DefaultSighashes;
    ApprovedSteps(config, m, files, files', files[m.rollover.file].tx);
    ApprovedEnds(config, m, files, files', files[m.rollover.file], approved);
    BatchFrom(config, after);
  }

  lemma {:induction false} ApprovedSteps(config: VaultConfig, m: Manifest, files: Files, files': Files, rollover: Tx)
    requires |m.allowances| == m.allowanceCount && files'.Keys == files.Keys
    requires forall k :: 0 <= k < m.allowanceCount ==>
               && ValidStep(config, m.monthlyLimit, m.allowanceCount, files, rollover, m.allowances, k)
               && m.allowances[k].authorization.file in files
               && SameConnector(files[m.allowances[k].authorization.file], files'[m.allowances[k].authorization.file])
    ensures forall k :: 0 <= k < m.allowanceCount ==>
              ValidStep(config, m.monthlyLimit, m.allowanceCount, files', rollover, m.allowances, k)
  {
    hide ValidStep;
    forall k | 0 <= k < m.allowanceCount
      ensures ValidStep(config, m.monthlyLimit, m.allowanceCount, files', rollover, m.allowances, k)
    {
      if k > 0 {
        assert SameConnector(files[m.allowances[k - 1].authorization.file], files'[m.allowances[k - 1].authorization.file]);
      }
      StepStaysValid(config, m.monthlyLimit, m.allowanceCount, files, files', rollover, m.allowances, k);
    }
  }

  lemma {:induction false} ApprovedEnds(config: VaultConfig, m: Manifest, files: Files, files': Files, rollover: Psbt, approved: bool)
    requires m.rollover.file in files && files[m.rollover.file] == rollover && files'.Keys == files.Keys
    requires ValidRollover(config, m, rollover) && SameUnsigned(rollover, files'[m.rollover.file])
    requires ValidEmergency(config, m.emergencyLimit, RemainderVout(m), EmergencyVout(m), files, rollover.tx, m.emergency)
    requires m.emergency.Some? ==>
               && m.emergency.value.trigger.file in files && m.emergency.value.withdrawal.file in files
               && SameConnector(files[m.emergency.value.trigger.file], files'[m.emergency.value.trigger.file])
               && SameConnector(files[m.emergency.value.withdrawal.file], files'[m.emergency.value.withdrawal.file])
    ensures files'[m.rollover.file].tx == rollover.tx
    ensures var m' := m.(hwwApproved := approved);
            && ValidRollover(config, m', files'[m.rollover.file])
            && ValidEmergency(config, m'.emergencyLimit, RemainderVout(m'), EmergencyVout(m'), files', rollover.tx, m'.emergency)
  {
    hide ValidRollover, ValidEmergency, SameConnector;
    RolloverStaysValid(config, m, rollover, files'[m.rollover.file], approved);
    EmergencyStaysValid(config, m.emergencyLimit, RemainderVout(m), EmergencyVout(m), files, files', rollover.tx, m.emergency);
  }

  lemma {:induction false} AuthorizationsAreChildren(config: VaultConfig, batch: Batch)
    requires ValidBatch(config, batch)
    ensures var m := batch.manifest;
            && (forall k :: 0 <= k < |m.allowances| ==> m.allowances[k].authorization != m.rollover)
            && (m.emergency.Some? ==> m.emergency.value.trigger != m.rollover && m.emergency.value.withdrawal != m.rollover)
  {
    var m := batch.manifest;
    var n := |m.allowances|;
    var entries := ManifestTransactions(m);
    assert |entries| == 1 + n + if m.emergency.Some? then 2 else 0;
    EntryAt(m, 0);
    forall k | 0 < k < |entries|
      ensures entries[k] != m.rollover
    {
      EntriesAreDistinct(config, batch, 0, k);
    }
    forall k | 0 <= k < n
      ensures m.allowances[k].authorization != m.rollover
    {
      EntryAt(m, k + 1);
    }
    if m.emergency.Some? {
      EntryAt(m, n + 1);
      EntryAt(m, n + 2);
    }
    hide ValidBatch;
  }

  // ----- Approval -----

  /** What the hardware wallet checks of one entry before it signs: the phone's vault signatures, the
      phone's controller signatures on the rollover, and that its own key may sign. */
  ghost predicate EntryComplete(config: VaultConfig, m: Manifest, files: Files, t: BatchTransaction) {
    && t.file in files
    && var p := files[t.file];
    && (forall n :: 0 <= n < |t.vaultIndexes| ==> SignedBy(p, config.phone, CooperativeLeaf(config), t.vaultIndexes[n]))
    && (t.file == m.rollover.file ==>
          forall n :: 0 <= n < |t.controllerIndexes| ==>
            SignedBy(p, config.phone, ControllerLeaf(config.phone), t.controllerIndexes[n]))
    && (forall n :: 0 <= n < |t.vaultIndexes| ==> CanSign(p, config.hww, CooperativeLeaf(config), t.vaultIndexes[n]))
  }

  ghost predicate Approvable(config: VaultConfig, batch: Batch, hww: Key) {
    && ValidBatch(config, batch) && hww == config.hww
    && forall t :: t in ManifestTransactions(batch.manifest) ==> EntryComplete(config, batch.manifest, batch.files, t)
  }

  // The first `n` entries are signed and nothing else has changed.
  ghost predicate SignedUpTo(config: VaultConfig, entries: seq<BatchTransaction>, n: nat, before: Files, after: Files)
    requires n <= |entries|
  {
    && after.Keys == before.Keys
    && (forall i :: 0 <= i < |entries| ==> entries[i].file in before && HasPrevouts(before[entries[i].file]))
    && (forall i :: 0 <= i < n ==>
          after[entries[i].file]
          == Signed(before[entries[i].file], config.hww, CooperativeLeaf(config), entries[i].vaultIndexes))
    && (forall i :: n <= i < |entries| ==> after[entries[i].file] == before[entries[i].file])
    && (forall name :: name in before && (forall i :: 0 <= i < |entries| ==> entries[i].file != name) ==>
          after[name] == before[name])
  }

  lemma {:induction false} SignNext(config: VaultConfig, entries: seq<BatchTransaction>, n: nat, before: Files, after: Files, p: Psbt)
    requires n < |entries| && SignedUpTo(config, entries, n, before, after)
    requires forall i, j :: 0 <= i < j < |entries| ==> entries[i].file != entries[j].file
    requires p == Signed(before[entries[n].file], config.hww, CooperativeLeaf(config), entries[n].vaultIndexes)
    ensures SignedUpTo(config, entries, n + 1, before, after[entries[n].file := p])
  {
    hide Signed, HasPrevouts;
  }

  lemma {:induction false} SignedUpToEnd(config: VaultConfig, m: Manifest, before: Files, after: Files)
    requires SignedUpTo(config, ManifestTransactions(m), |ManifestTransactions(m)|, before, after)
    ensures HwwSigned(config, Batch(m, before), Batch(m.(hwwApproved := true), after))
  {
    hide ManifestTransactions, HasPrevouts, Signed;
    var entries := ManifestTransactions(m);
    forall name | name in before && !IsEntry(m, name)
      ensures after[name] == before[name]
    {
      forall i | 0 <= i < |entries|
        ensures entries[i].file != name
      {
        assert entries[i] in entries;
      }
    }
  }

  /** A ceremony directory: the manifest and the PSBT files beside it. */
  class Directory {
    var manifest: Manifest
    var files: Files

    constructor (batch: Batch)
      ensures manifest == batch.manifest && files == batch.files
    {
      manifest, files := batch.manifest, batch.files;
    }

    /** `approve_policy_for_config`. Each file is rewritten as soon as it is signed, so a refusal
        can leave a signed prefix behind; the manifest is marked only at the end. */
    method Approve(config: VaultConfig, hww: Key) returns (ok: bool)
      modifies this
      ensures ok <==> Approvable(config, old(Batch(manifest, files)), hww)
      ensures ok ==> HwwSigned(config, old(Batch(manifest, files)), Batch(manifest, files))
      ensures !ok ==> manifest == old(manifest)
                      && (files == old(files)
                          || exists n :: 0 <= n <= |ManifestTransactions(manifest)|
                                         && SignedUpTo(config, ManifestTransactions(manifest), n, old(files), files))
    {
      hide ValidBatch, SignedUpTo, EntryComplete, ManifestTransactions, HwwSigned;
      ghost var before := Batch(manifest, files);
      var valid := ValidateBatch(config, Batch(manifest, files));
      if valid.Failure? || hww != config.hww {
        return false;
      }
      var entries := ManifestTransactions(manifest);
      StartSigning(config, before);
      ghost var m := manifest;
      for n := 0 to |entries|
        invariant manifest == m && entries == ManifestTransactions(m)
        invariant SignedUpTo(config, entries, n, before.files, files)
        invariant forall i :: 0 <= i < n ==> EntryComplete(config, m, before.files, entries[i])
      {
        UnsignedYet(config, entries, n, before.files, files);
        var signed := SignEntry(config, manifest, entries[n], files[entries[n].file], before.files);
        if signed.None? {
          assert entries[n] in ManifestTransactions(m) && !EntryComplete(config, m, before.files, entries[n]);
          assert exists i :: 0 <= i <= |ManifestTransactions(manifest)|
                             && SignedUpTo(config, ManifestTransactions(manifest), i, old(files), files);
          return false;
        }
        SignNext(config, entries, n, before.files, files, signed.value);
        files := files[entries[n].file := signed.value];
      }
      manifest := manifest.(hwwApproved := true);
      SignedUpToEnd(config, m, before.files, files);
      return true;
    }
  }

  lemma {:induction false} StartSigning(config: VaultConfig, batch: Batch)
    requires ValidBatch(config, batch)
    ensures var entries := ManifestTransactions(batch.manifest);
            && SignedUpTo(config, entries, 0, batch.files, batch.files)
            && (forall i, j :: 0 <= i < j < |entries| ==> entries[i].file != entries[j].file)
            && forall i :: 0 <= i < |entries| ==> entries[i].file in batch.files && DefaultSighashes(batch.files[entries[i].file])
  {
    EntryPrevouts(config, batch);
    var entries := ManifestTransactions(batch.manifest);
    forall i, j | 0 <= i < j < |entries|
      ensures entries[i].file != entries[j].file
    {
      EntriesAreDistinct(config, batch, i, j);
    }
    BatchParts(config, batch);
    hide ValidBatch, ManifestTransactions, HasPrevouts, DefaultSighashes;
    assert forall i :: 0 <= i < |entries| ==> entries[i] in entries;
  }

  lemma {:induction false} UnsignedYet(config: VaultConfig, entries: seq<BatchTransaction>, n: nat, before: Files, after: Files)
    requires n < |entries| && SignedUpTo(config, entries, n, before, after)
    ensures entries[n].file in before && entries[n].file in after
    ensures after[entries[n].file] == before[entries[n].file] && HasPrevouts(before[entries[n].file])
  {
    hide HasPrevouts, Signed;
  }

  // One pass of the approval loop.
  method SignEntry(config: VaultConfig, m: Manifest, t: BatchTransaction, p: Psbt, ghost files: Files) returns (r: Option<Psbt>)
    requires t.file in files && files[t.file] == p && HasPrevouts(p) && DefaultSighashes(p)
    ensures r.Some? ==> EntryComplete(config, m, files, t)
                        && r.value == Signed(p, config.hww, CooperativeLeaf(config), t.vaultIndexes)
    ensures r.None? ==> !EntryComplete(config, m, files, t)
  {
    hide SignedBy, CanSign, DefaultSighashes, Signed;
    var phoneOk := VerifySignatures(p, config.phone, CooperativeLeaf(config), t.vaultIndexes);
    if !phoneOk {
      return None;
    }
    if t.controllerIndexes != [] && t.file == m.rollover.file {
      var controllerOk := VerifySignatures(p, config.phone, ControllerLeaf(config.phone), t.controllerIndexes);
      if !controllerOk {
        return None;
      }
    }
    var signed := SignInputs(p, config.hww, CooperativeLeaf(config), t.vaultIndexes);
    if signed.Failure? {
      return None;
    }
    return Some(signed.value);
  }

  // ----- The phone's check of the returned batch -----

  /** Both keys have signed every vault input, and the inputs that must already be complete are. */
  ghost predicate EntryApproved(config: VaultConfig, m: Manifest, files: Files, t: BatchTransaction) {
    && t.file in files
    && var p := files[t.file];
    && (forall n :: 0 <= n < |t.vaultIndexes| ==>
          && SignedBy(p, config.phone, CooperativeLeaf(config), t.vaultIndexes[n])
          && SignedBy(p, config.hww, CooperativeLeaf(config), t.vaultIndexes[n])
          && CanFinalize(p, t.vaultIndexes[n]))
    && (t.file == m.rollover.file ==>
          forall n :: 0 <= n < |t.controllerIndexes| ==> CanFinalize(p, t.controllerIndexes[n]))
  }

  /** The batches that `validate_approved_batch` accepts. */
  ghost predicate ValidApproved(config: VaultConfig, batch: Batch) {
    && batch.manifest.phoneApproved && batch.manifest.hwwApproved
    && ValidBatch(config, batch)
    && forall t :: t in ManifestTransactions(batch.manifest) ==> EntryApproved(config, batch.manifest, batch.files, t)
  }

  /** `validate_approved_batch`. */
  method ValidateApprovedBatch(config: VaultConfig, batch: Batch) returns (r: Result<Script>)
    ensures r.Success? <==> ValidApproved(config, batch)
  {
    hide ValidBatch, ManifestTransactions, EntryApproved;
    var m := batch.manifest;
    if !m.phoneApproved || !m.hwwApproved {
      return Failure("both approvals are required");
    }
    var policy :- ValidateBatch(config, batch);
    var entries := ManifestTransactions(m);
    EntriesReadable(config, batch);
    for i := 0 to |entries|
      invariant forall k :: 0 <= k < i ==> EntryApproved(config, m, batch.files, entries[k])
    {
      assert entries[i] in ManifestTransactions(m);
      var ok := CheckEntry(config, m, entries[i], batch.files[entries[i].file], batch.files);
      :- Need(ok, "vault input cannot finalize");
    }
    return Success(policy);
  }

  lemma {:induction false} EntriesReadable(config: VaultConfig, batch: Batch)
    requires ValidBatch(config, batch)
    ensures forall t :: t in ManifestTransactions(batch.manifest) ==>
              t.file in batch.files && DefaultSighashes(batch.files[t.file])
  {
    BatchParts(config, batch);
    hide ValidBatch, ManifestTransactions, DefaultSighashes;
  }

  /** The phone then extracts the rollover, and cannot fail to. */
  lemma {:induction false} ApprovedRolloverFinalizes(config: VaultConfig, batch: Batch)
    requires ValidApproved(config, batch)
    ensures batch.manifest.rollover.file in batch.files
    ensures var p := batch.files[batch.manifest.rollover.file]; DefaultSighashes(p) && AllFinalize(p)
  {
    var m := batch.manifest;
    AllEntriesListed(m);
    EntriesReadable(config, batch);
    EntryPrevouts(config, batch);
    BatchParts(config, batch);
    assert EntryApproved(config, m, batch.files, m.rollover);
    hide ValidBatch, ManifestTransactions, CanFinalize, SignedBy, DefaultSighashes, ValidStep, ValidEmergency, ValidHeader, PolicyVsize,
         ValidRolloverOutputs, RoleInputs;
    var p := batch.files[m.rollover.file];
    EveryInputHasARole(config, m, p);
    forall i: nat | i < |p.inputs|
      ensures CanFinalize(p, i)
    {
      hide EntryApproved;
      RoleFinalizes(config, m, batch.files, i);
    }
  }

  lemma {:induction false} RoleFinalizes(config: VaultConfig, m: Manifest, files: Files, i: nat)
    requires EntryApproved(config, m, files, m.rollover) && (i in m.rollover.vaultIndexes || i in m.rollover.controllerIndexes)
    ensures CanFinalize(files[m.rollover.file], i)
  {
    hide CanFinalize, SignedBy;
    if n :| 0 <= n < |m.rollover.vaultIndexes| && m.rollover.vaultIndexes[n] == i {
    } else {
      var n :| 0 <= n < |m.rollover.controllerIndexes| && m.rollover.controllerIndexes[n] == i;
    }
  }

  lemma {:induction false} EveryInputHasARole(config: VaultConfig, m: Manifest, p: Psbt)
    requires ValidRollover(config, m, p)
    ensures forall i :: 0 <= i < |p.inputs| ==> i in m.rollover.vaultIndexes || i in m.rollover.controllerIndexes
  {
    PartitionIsExact(|p.tx.inputs|, m.rollover.vaultIndexes, m.rollover.controllerIndexes);
    hide PolicyVsize, ValidRolloverOutputs, RoleInputs;
  }

  // One pass of the loop over the entries.
  method CheckEntry(config: VaultConfig, m: Manifest, t: BatchTransaction, p: Psbt, ghost files: Files) returns (ok: bool)
    requires t.file in files && files[t.file] == p && DefaultSighashes(p)
    ensures ok <==> EntryApproved(config, m, files, t)
  {
    hide SignedBy, CanFinalize, DefaultSighashes;
    ok := VerifySignatures(p, config.phone, CooperativeLeaf(config), t.vaultIndexes);
    if !ok {
      return;
    }
    ok := VerifySignatures(p, config.hww, CooperativeLeaf(config), t.vaultIndexes);
    if !ok {
      return;
    }
    ok := InputsFinalize(p, t.vaultIndexes);
    if ok && t.file == m.rollover.file {
      ok := InputsFinalize(p, t.controllerIndexes);
    }
  }

  method InputsFinalize(p: Psbt, indexes: seq<nat>) returns (ok: bool)
    ensures ok <==> forall n :: 0 <= n < |indexes| ==> CanFinalize(p, indexes[n])
  {
    hide CanFinalize;
    for n := 0 to |indexes|
      invariant forall k :: 0 <= k < n ==> CanFinalize(p, indexes[k])
    {
      if !CanFinalize(p, indexes[n]) {
        return false;
      }
    }
    return true;
  }

  // ----- The signer's output is what the phone accepts -----

  /** The connector input lists a leaf that is already signed for: the phone's, or the hardware wallet's
      if that key has signed it too. */
  predicate ConnectorListed(config: VaultConfig, p: Psbt, k: nat) {
    || ListsLeaf(p, k, ControllerLeaf(config.phone))
    || (ListsLeaf(p, k, ControllerLeaf(config.hww)) && SignedBy(p, config.hww, ControllerLeaf(config.hww), k))
  }

  /** Every vault input of the entry lists the cooperative leaf; so do a rollover's connectors theirs. */
  ghost predicate EntryListed(config: VaultConfig, m: Manifest, files: Files, t: BatchTransaction) {
    && t.file in files
    && (forall n :: 0 <= n < |t.vaultIndexes| ==> ListsLeaf(files[t.file], t.vaultIndexes[n], CooperativeLeaf(config)))
    && (t.file == m.rollover.file ==>
          forall n :: 0 <= n < |t.controllerIndexes| ==> ConnectorListed(config, files[t.file], t.controllerIndexes[n]))
  }

  /** The leaves that the phone's check will need are listed. */
  ghost predicate LeavesListed(config: VaultConfig, batch: Batch) {
    forall t :: t in ManifestTransactions(batch.manifest) ==> EntryListed(config, batch.manifest, batch.files, t)
  }

  /** The input's sequence leaves the recovery leaves unusable. */
  predicate NoRecovery(tx: Tx, k: nat) {
    k < |tx.inputs| && RelativeBlocks(tx.version, tx.inputs[k].sequence) == 0
  }

  lemma {:induction false} VaultInputsDoNotRecover(config: VaultConfig, batch: Batch, t: BatchTransaction)
    requires ValidBatch(config, batch) && t in ManifestTransactions(batch.manifest)
    ensures t.file in batch.files
    ensures forall n :: 0 <= n < |t.vaultIndexes| ==> NoRecovery(batch.files[t.file].tx, t.vaultIndexes[n])
  {
    var m := batch.manifest;
    BatchParts(config, batch);
    hide ValidBatch, ManifestTransactions, ValidStep, ValidEmergency, ValidHeader, ValidRollover, NoRecovery;
    if t == m.rollover {
      RolloverDoesNotRecover(config, m, batch.files[m.rollover.file]);
    } else {
      ChildDoesNotRecover(config, batch, t);
      ChildRoles(config, batch, t);
    }
  }

  lemma {:induction false} RolloverDoesNotRecover(config: VaultConfig, m: Manifest, p: Psbt)
    requires ValidRollover(config, m, p)
    ensures forall n :: 0 <= n < |m.rollover.vaultIndexes| ==> NoRecovery(p.tx, m.rollover.vaultIndexes[n])
  {
    hide PolicyVsize, ValidRolloverOutputs;
  }

  lemma {:induction false} ChildDoesNotRecover(config: VaultConfig, batch: Batch, t: BatchTransaction)
    requires ValidBatch(config, batch) && t in ManifestTransactions(batch.manifest) && t != batch.manifest.rollover
    ensures t.file in batch.files && NoRecovery(batch.files[t.file].tx, 0)
  {
    hide ValidBatch, Depth, Placed, NoRecovery, EntryDepth, EntrySequence;
    var entries := ManifestTransactions(batch.manifest);
    var j: nat :| j < |entries| && entries[j] == t;
    EntryAt(batch.manifest, 0);
    EntryPlaced(config, batch, j);
    PlacedDoesNotRecover(batch.files[t.file].tx, Depth(batch.files[batch.manifest.rollover.file].tx) + EntryDepth(batch.manifest, j),
                         batch.manifest, j);
  }

  lemma {:induction false} PlacedDoesNotRecover(tx: Tx, depth: nat, m: Manifest, n: nat)
    requires Placed(tx, depth, EntrySequence(m, n))
    ensures NoRecovery(tx, 0)
  {
    hide Depth;
  }

  /** No vault input of an accepted batch can be spent through a recovery leaf: it finalizes exactly when it
      lists the cooperative leaf and both keys have signed it. */
  lemma {:induction false} EntriesAreCosigned(config: VaultConfig, batch: Batch, t: BatchTransaction, n: nat)
    requires ValidBatch(config, batch) && t in ManifestTransactions(batch.manifest) && n < |t.vaultIndexes|
    ensures t.file in batch.files
    ensures var p, i, leaf := batch.files[t.file], t.vaultIndexes[n], CooperativeLeaf(config);
            CanFinalize(p, i) <==> ListsLeaf(p, i, leaf) && SignedBy(p, config.phone, leaf, i) && SignedBy(p, config.hww, leaf, i)
  {
    VaultInputsPayVault(config, batch, t);
    hide ValidBatch, ManifestTransactions, CanFinalize, ListsLeaf, SignedBy;
    CooperativeFinalizes(batch.files[t.file], config.phone, config.hww, t.vaultIndexes[n]);
  }

  /** A vault input of any entry lies under the vault script. */
  lemma {:induction false} VaultInputsPayVault(config: VaultConfig, batch: Batch, t: BatchTransaction)
    requires ValidBatch(config, batch) && t in ManifestTransactions(batch.manifest)
    ensures t.file in batch.files && HasPrevouts(batch.files[t.file])
    ensures forall n :: 0 <= n < |t.vaultIndexes| ==>
              && t.vaultIndexes[n] < |batch.files[t.file].inputs|
              && batch.files[t.file].inputs[t.vaultIndexes[n]].utxo.value.script == config.Vault()
    ensures t.file == batch.manifest.rollover.file ==>
              forall n :: 0 <= n < |t.controllerIndexes| ==>
                && t.controllerIndexes[n] < |batch.files[t.file].inputs|
                && batch.files[t.file].inputs[t.controllerIndexes[n]].utxo.value.script == config.Controller()
    ensures t.file == batch.manifest.rollover.file ==> t == batch.manifest.rollover
    ensures forall n :: 0 <= n < |t.vaultIndexes| ==> NoRecovery(batch.files[t.file].tx, t.vaultIndexes[n])
  {
    VaultInputsDoNotRecover(config, batch, t);
    EntryPrevouts(config, batch);
    BatchParts(config, batch);
    if t.file == batch.manifest.rollover.file {
      OnlyRolloverHasItsFile(config, batch, t);
    }
    if t != batch.manifest.rollover {
      ChildRoles(config, batch, t);
    }
    hide ValidBatch, ManifestTransactions, ValidStep, ValidEmergency, PolicyVsize, ValidRolloverOutputs;
  }

  lemma {:induction false} OnlyRolloverHasItsFile(config: VaultConfig, batch: Batch, t: BatchTransaction)
    requires ValidBatch(config, batch) && t in ManifestTransactions(batch.manifest)
    requires t.file == batch.manifest.rollover.file
    ensures t == batch.manifest.rollover
  {
    var entries := ManifestTransactions(batch.manifest);
    var j :| 0 <= j < |entries| && entries[j] == t;
    EntryAt(batch.manifest, 0);
    if j > 0 {
      EntriesAreDistinct(config, batch, 0, j);
    }
    hide ValidBatch, ManifestTransactions;
  }

  lemma {:induction false} SignedVaultInput(config: VaultConfig, p: Psbt, indexes: seq<nat>, n: nat)
    requires HasPrevouts(p) && n < |indexes|
    requires SignedBy(p, config.phone, CooperativeLeaf(config), indexes[n])
    requires CanSign(p, config.hww, CooperativeLeaf(config), indexes[n])
    requires p.inputs[indexes[n]].utxo.value.script == config.Vault() && NoRecovery(p.tx, indexes[n])
    ensures var q := Signed(p, config.hww, CooperativeLeaf(config), indexes);
            && SignedBy(q, config.phone, CooperativeLeaf(config), indexes[n])
            && SignedBy(q, config.hww, CooperativeLeaf(config), indexes[n])
            && (CanFinalize(q, indexes[n]) <==> ListsLeaf(p, indexes[n], CooperativeLeaf(config)))
  {
    var q := Signed(p, config.hww, CooperativeLeaf(config), indexes);
    SigningPreserves(p, config.hww, CooperativeLeaf(config), indexes);
    assert indexes[n] in indexes;
    CooperativeFinalizes(q, config.phone, config.hww, indexes[n]);
    hide Signed, CanFinalize;
  }

  // The hardware wallet's vault signatures are not for a controller leaf.
  lemma {:induction false} SameControllerSignatures(p: Psbt, key: Key, leaf: Leaf, indexes: seq<nat>, k: nat, other: Key)
    requires HasPrevouts(p) && leaf.VaultLeaf?
    ensures SignedBy(Signed(p, key, leaf, indexes), other, ControllerLeaf(other), k) <==> SignedBy(p, other, ControllerLeaf(other), k)
  {
    SigningPreserves(p, key, leaf, indexes);
    if k < |p.inputs| {
      assert Signed(p, key, leaf, indexes).inputs[k].signatures - {(key, leaf)} == p.inputs[k].signatures - {(key, leaf)};
    }
  }

  lemma {:induction false} SignedConnector(config: VaultConfig, p: Psbt, indexes: seq<nat>, k: nat)
    requires HasPrevouts(p) && k < |p.inputs|
    requires SignedBy(p, config.phone, ControllerLeaf(config.phone), k)
    requires p.inputs[k].utxo.value.script == config.Controller()
    ensures CanFinalize(Signed(p, config.hww, CooperativeLeaf(config), indexes), k) <==> ConnectorListed(config, p, k)
  {
    SigningPreserves(p, config.hww, CooperativeLeaf(config), indexes);
    SameControllerSignatures(p, config.hww, CooperativeLeaf(config), indexes, k, config.hww);
    SameControllerSignatures(p, config.hww, CooperativeLeaf(config), indexes, k, config.phone);
    hide Signed, SignedBy;
  }

  lemma {:induction false} EntryAfterApproval(config: VaultConfig, before: Batch, after: Batch, t: BatchTransaction)
    requires Approvable(config, before, config.hww) && HwwSigned(config, before, after)
    requires t in ManifestTransactions(before.manifest)
    ensures t.file in before.files && t.file in after.files
    ensures EntryApproved(config, after.manifest, after.files, t)
       <==> EntryListed(config, before.manifest, before.files, t)
  {
    VaultInputsPayVault(config, before, t);
    ApprovalFacts(config, before, after, t);
    hide *;
    SignedEntryIsApproved(config, before.manifest, before.files, after, t);
  }

  lemma {:induction false} ApprovalFacts(config: VaultConfig, before: Batch, after: Batch, t: BatchTransaction)
    requires Approvable(config, before, config.hww) && HwwSigned(config, before, after)
    requires t in ManifestTransactions(before.manifest)
    ensures EntryComplete(config, before.manifest, before.files, t)
    ensures t.file in before.files && t.file in after.files && HasPrevouts(before.files[t.file])
    ensures after.files[t.file] == Signed(before.files[t.file], config.hww, CooperativeLeaf(config), t.vaultIndexes)
    ensures after.manifest.rollover == before.manifest.rollover
    ensures t == before.manifest.rollover <==> t.file == before.manifest.rollover.file
  {
    if t.file == before.manifest.rollover.file {
      OnlyRolloverHasItsFile(config, before, t);
    }
    hide ValidBatch, EntryComplete, Signed, ManifestTransactions;
  }

  lemma {:induction false} SignedEntryIsApproved(config: VaultConfig, m: Manifest, files: Files, after: Batch, t: BatchTransaction)
    requires t.file in files && t.file in after.files && EntryComplete(config, m, files, t)
    requires HasPrevouts(files[t.file])
    requires after.files[t.file] == Signed(files[t.file], config.hww, CooperativeLeaf(config), t.vaultIndexes)
    requires after.manifest.rollover == m.rollover
    requires t == m.rollover <==> t.file == m.rollover.file
    requires forall n :: 0 <= n < |t.vaultIndexes| ==>
               && t.vaultIndexes[n] < |files[t.file].inputs| && NoRecovery(files[t.file].tx, t.vaultIndexes[n])
               && files[t.file].inputs[t.vaultIndexes[n]].utxo.value.script == config.Vault()
    requires t.file == m.rollover.file ==>
               forall n :: 0 <= n < |t.controllerIndexes| ==>
                 && t.controllerIndexes[n] < |files[t.file].inputs|
                 && files[t.file].inputs[t.controllerIndexes[n]].utxo.value.script == config.Controller()
    ensures EntryApproved(config, after.manifest, after.files, t) <==> EntryListed(config, m, files, t)
  {
    hide SignedBy, CanFinalize, Signed, CanSign, ListsLeaf, ConnectorListed, NoRecovery;
    var p, q := files[t.file], after.files[t.file];
    forall n | 0 <= n < |t.vaultIndexes|
      ensures SignedBy(q, config.phone, CooperativeLeaf(config), t.vaultIndexes[n])
      ensures SignedBy(q, config.hww, CooperativeLeaf(config), t.vaultIndexes[n])
      ensures CanFinalize(q, t.vaultIndexes[n]) <==> ListsLeaf(p, t.vaultIndexes[n], CooperativeLeaf(config))
    {
      SignedVaultInput(config, p, t.vaultIndexes, n);
    }
    if t.file == m.rollover.file {
      forall n | 0 <= n < |t.controllerIndexes|
        ensures CanFinalize(q, t.controllerIndexes[n]) <==> ConnectorListed(config, p, t.controllerIndexes[n])
      {
        SignedConnector(config, p, t.vaultIndexes, t.controllerIndexes[n]);
      }
    }
  }

  /** What the hardware wallet approves, the phone accepts: always, given that the phone had approved
      and that every vault input and every rollover connector lists its leaf, and only then. */
  lemma {:induction false} ApprovalIsAccepted(config: VaultConfig, before: Batch, after: Batch)
    requires Approvable(config, before, config.hww) && HwwSigned(config, before, after)
    ensures ValidApproved(config, after) <==> before.manifest.phoneApproved && LeavesListed(config, before)
  {
    ApprovalKeepsValid(config, before, after);
    ApprovalKeepsEntries(before.manifest);
    forall t | t in ManifestTransactions(before.manifest)
      ensures EntryApproved(config, after.manifest, after.files, t)
         <==> EntryListed(config, before.manifest, before.files, t)
    {
      EntryAfterApproval(config, before, after, t);
    }
    hide ValidBatch, ManifestTransactions, EntryApproved, EntryListed, EntryComplete;
  }

  lemma {:induction false} ProposedEntryComplete(config: VaultConfig, batch: Batch, t: BatchTransaction)
    requires ValidBatch(config, batch) && PhoneSigned(config, batch)
    requires t in ManifestTransactions(batch.manifest)
    ensures EntryComplete(config, batch.manifest, batch.files, t)
    ensures EntryListed(config, batch.manifest, batch.files, t)
  {
    VaultInputsPayVault(config, batch, t);
    hide ValidBatch, ManifestTransactions, SignedBy, HasPrevouts;
    var p := batch.files[t.file];
    assert InputsDescribed(p);
    forall n | 0 <= n < |t.vaultIndexes|
      ensures SignedBy(p, config.phone, CooperativeLeaf(config), t.vaultIndexes[n])
      ensures CanSign(p, config.hww, CooperativeLeaf(config), t.vaultIndexes[n])
    {
      assert t.vaultIndexes[n] in t.vaultIndexes;
    }
    if t.file == batch.manifest.rollover.file {
      forall n | 0 <= n < |t.controllerIndexes|
        ensures SignedBy(p, config.phone, ControllerLeaf(config.phone), t.controllerIndexes[n])
      {
        assert t.controllerIndexes[n] in t.controllerIndexes;
      }
    }
  }

  /** Builder, signer and validator compose: the hardware wallet never refuses what the builder
      returned, and the phone accepts what the hardware wallet made of it. Unsigned transactions are
      unchanged and every connector outside the rollover is still unsigned. */
  lemma {:induction false} ProposalIsApproved(config: VaultConfig, vaults: seq<Utxo>, controllers: seq<Utxo>, monthly: U64,
                                              emergency: U64, firstAddress: nat, batch: Batch, after: Batch)
    requires ValidBatch(config, batch)
    requires ProposalFor(config, vaults, controllers, monthly, emergency, firstAddress, batch)
    ensures Approvable(config, batch, config.hww)
    ensures HwwSigned(config, batch, after) ==> ValidApproved(config, after)
    ensures HwwSigned(config, batch, after) ==>
              forall t :: t in ManifestTransactions(batch.manifest) ==>
                && t.file in batch.files && t.file in after.files
                && after.files[t.file].tx == batch.files[t.file].tx
                && (t != batch.manifest.rollover ==>
                      && |after.files[t.file].inputs| == 2
                      && after.files[t.file].inputs[1].signatures == map[])
  {
    ApprovalKeepsEntries(batch.manifest);
    forall t | t in ManifestTransactions(batch.manifest)
      ensures EntryComplete(config, batch.manifest, batch.files, t)
      ensures EntryListed(config, batch.manifest, batch.files, t)
    {
      ProposedEntryComplete(config, batch, t);
    }
    if HwwSigned(config, batch, after) {
      ApprovalIsAccepted(config, batch, after);
      forall t | t in ManifestTransactions(batch.manifest)
        ensures t.file in batch.files && t.file in after.files
        ensures after.files[t.file].tx == batch.files[t.file].tx
        ensures t != batch.manifest.rollover ==>
                  |after.files[t.file].inputs| == 2 && after.files[t.file].inputs[1].signatures == map[]
      {
        ApprovedEntry(config, batch, after, t);
        if t != batch.manifest.rollover {
          ChildRoles(config, batch, t);
        }
      }
    }
    hide ValidBatch, ManifestTransactions, EntryComplete, EntryListed, HwwSigned;
  }
}
