/** What the hardware wallet's approval does not look at: the leaf scripts that an input lists. Some of
    them the phone checks before it activates a policy, others only when it broadcasts
    (src/cold_wallet/mod.rs, src/core/ceremony.rs, src/hot_wallet/mod.rs). */
module MissingScriptTree {
  import opened Wrappers
  import opened Bitcoin
  import opened Fees
  import opened Psbts
  import opened Ceremony
  import opened HotAddresses
  import opened Builder
  import opened Selection
  import opened Proposal
  import opened ColdSigner
  import opened Activation
  import opened ActivationSafety
  import opened MonthlyBroadcast
  import opened MixedPolicies

  /** The same PSBT with no leaf script listed for one input. */
  function WithoutLeaves(p: Psbt, index: nat): Psbt
    requires index < |p.inputs|
  {
    p.(inputs := p.inputs[index := p.inputs[index].(scripts := {})])
  }

  predicate IsInput(batch: Batch, t: BatchTransaction, index: nat) {
    && t in ManifestTransactions(batch.manifest)
    && t.file in batch.files && index < |batch.files[t.file].inputs|
  }

  /** The same batch, where input `index` of entry `t` lists no leaf scripts. */
  function Stripped(batch: Batch, t: BatchTransaction, index: nat): Batch
    requires IsInput(batch, t, index)
  {
    batch.(files := batch.files[t.file := WithoutLeaves(batch.files[t.file], index)])
  }

  /** The inputs that the phone finalizes before it activates: vault inputs, and a rollover's connectors. */
  predicate FinalizedAtOnce(batch: Batch, t: BatchTransaction, index: nat) {
    index in t.vaultIndexes || (t == batch.manifest.rollover && index in t.controllerIndexes)
  }

  lemma {:induction false} StrippingKeepsSignatures(p: Psbt, index: nat)
    requires index < |p.inputs| && HasPrevouts(p)
    ensures var q := WithoutLeaves(p, index);
            && SameUnsigned(p, q) && SameConnector(p, q) && HasPrevouts(q) && (DefaultSighashes(p) ==> DefaultSighashes(q))
            && (forall key, leaf, k: nat :: SignedBy(q, key, leaf, k) <==> SignedBy(p, key, leaf, k))
            && (forall key, leaf, k: nat :: CanSign(q, key, leaf, k) <==> CanSign(p, key, leaf, k))
            && (forall leaf, k: nat :: ListsLeaf(q, k, leaf) <==> k != index && ListsLeaf(p, k, leaf))
  {
    assert Prevouts(WithoutLeaves(p, index)) == Prevouts(p);
  }

  lemma {:induction false} OneFileEach(config: VaultConfig, batch: Batch, t: BatchTransaction, u: BatchTransaction)
    requires ValidBatch(config, batch) && t in ManifestTransactions(batch.manifest) && u in ManifestTransactions(batch.manifest)
    ensures t.file == u.file ==> t == u
  {
    var entries := ManifestTransactions(batch.manifest);
    var i: nat :| i < |entries| && entries[i] == t;
    var j: nat :| j < |entries| && entries[j] == u;
    if i < j {
      EntriesAreDistinct(config, batch, i, j);
    } else if j < i {
      EntriesAreDistinct(config, batch, j, i);
    }
    hide ValidBatch, ManifestTransactions;
  }

  // What stripping changes, entry by entry.
  lemma {:induction false} StrippedEntry(config: VaultConfig, batch: Batch, t: BatchTransaction, index: nat, u: BatchTransaction)
    requires Approvable(config, batch, config.hww) && IsInput(batch, t, index) && u in ManifestTransactions(batch.manifest)
    ensures var m, stripped := batch.manifest, Stripped(batch, t, index);
            && u.file in batch.files && u.file in stripped.files && SameUnsigned(batch.files[u.file], stripped.files[u.file])
            && SameConnector(batch.files[u.file], stripped.files[u.file]) && DefaultSighashes(stripped.files[u.file])
            && EntryComplete(config, m, stripped.files, u)
            && (EntryListed(config, m, stripped.files, u) <==>
                EntryListed(config, m, batch.files, u) && !(u == t && FinalizedAtOnce(batch, t, index)))
  {
    var m := batch.manifest;
    AllEntriesListed(m);
    EntriesReadable(config, batch);
    EntryPrevouts(config, batch);
    OneFileEach(config, batch, t, u);
    OneFileEach(config, batch, m.rollover, u);
    assert EntryComplete(config, m, batch.files, u);
    StrippingKeepsSignatures(batch.files[t.file], index);
    hide ValidBatch, ManifestTransactions, SignedBy, CanSign, ListsLeaf, HasPrevouts, DefaultSighashes, WithoutLeaves;
    if u == t {
      ListedAfterStripping(config, m, batch.files, Stripped(batch, t, index).files, t, index);
    }
  }

  lemma {:induction false} ListedAfterStripping(config: VaultConfig, m: Manifest, files: Files, files': Files, t: BatchTransaction, index: nat)
    requires t.file in files && t.file in files' && (t.file == m.rollover.file ==> t == m.rollover)
    requires forall leaf, k: nat :: ListsLeaf(files'[t.file], k, leaf) <==> k != index && ListsLeaf(files[t.file], k, leaf)
    requires forall key, leaf, k: nat :: SignedBy(files'[t.file], key, leaf, k) <==> SignedBy(files[t.file], key, leaf, k)
    ensures EntryListed(config, m, files', t) <==>
            EntryListed(config, m, files, t) && !(index in t.vaultIndexes || (t == m.rollover && index in t.controllerIndexes))
  {
    hide ListsLeaf, SignedBy;
    var p, q := files[t.file], files'[t.file];
    assert forall k: nat :: ConnectorListed(config, q, k) <==> k != index && ConnectorListed(config, p, k);
  }

  /** The hardware wallet approves as before, and the phone then accepts exactly if it would have
      accepted before and does not need the missing leaves yet. */
  lemma {:induction false} StrippedExactly(config: VaultConfig, batch: Batch, t: BatchTransaction, index: nat, after: Batch)
    requires Approvable(config, batch, config.hww) && IsInput(batch, t, index)
    ensures var stripped := Stripped(batch, t, index);
            && Approvable(config, stripped, config.hww)
            && (HwwSigned(config, stripped, after) ==>
                  (ValidApproved(config, after) <==>
                   batch.manifest.phoneApproved && LeavesListed(config, batch) && !FinalizedAtOnce(batch, t, index)))
  {
    var m, stripped := batch.manifest, Stripped(batch, t, index);
    hide ManifestTransactions, EntryComplete, EntryListed, SameUnsigned, SameConnector, DefaultSighashes, ValidBatch, HwwSigned,
         ValidApproved, FinalizedAtOnce;
    forall u | u in ManifestTransactions(m)
      ensures u.file in batch.files && u.file in stripped.files && SameUnsigned(batch.files[u.file], stripped.files[u.file])
      ensures DefaultSighashes(stripped.files[u.file]) && SameConnector(batch.files[u.file], stripped.files[u.file])
      ensures EntryComplete(config, m, stripped.files, u)
      ensures EntryListed(config, m, stripped.files, u) <==>
              EntryListed(config, m, batch.files, u) && !(u == t && FinalizedAtOnce(batch, t, index))
    {
      StrippedEntry(config, batch, t, index, u);
    }
    EditKeepsValid(config, batch, stripped);
    assert LeavesListed(config, stripped) <==> LeavesListed(config, batch) && !FinalizedAtOnce(batch, t, index);
    if HwwSigned(config, stripped, after) {
      ApprovalIsAccepted(config, stripped, after);
    }
  }

  /** Without the leaves of any one vault input, or of a rollover connector, a batch is approved and
      then refused. */
  lemma {:induction false} StrippedIsApprovedAndRefused(config: VaultConfig, batch: Batch, t: BatchTransaction, index: nat)
    requires Approvable(config, batch, config.hww) && IsInput(batch, t, index) && FinalizedAtOnce(batch, t, index)
    ensures var stripped := Stripped(batch, t, index);
            && Approvable(config, stripped, config.hww)
            && forall after :: HwwSigned(config, stripped, after) ==> !ValidApproved(config, after)
  {
    var stripped := Stripped(batch, t, index);
    StrippedExactly(config, batch, t, index, batch);
    hide Approvable, HwwSigned, ValidApproved, Stripped, FinalizedAtOnce;
    forall after | HwwSigned(config, stripped, after)
      ensures !ValidApproved(config, after)
    {
      StrippedExactly(config, batch, t, index, after);
    }
  }

  /** Any proposal, any entry: its vault input will do. */
  method ApproveStripped(config: VaultConfig, vaults: seq<Utxo>, controllers: seq<Utxo>, monthly: U64, emergency: U64, hot: AddressCursor,
                         entry: nat)
    returns (proposed: Batch, approved: Batch)
    requires hot.network == config.network && hot.owner == config.phone
    requires Buildable(config, vaults, controllers, monthly, emergency, config.phone)
    modifies hot`next
    ensures Approvable(config, proposed, config.hww) && HwwSigned(config, proposed, approved)
    ensures !ValidApproved(config, approved)
  {
    hide *;
    ghost var first := hot.next;
    var built := BuildPolicyProposal(config, vaults, controllers, monthly, emergency, config.phone, hot);
    var batch := built.value;
    ProposalIsApproved(config, vaults, controllers, monthly, emergency, first, batch, batch);
    var entries := ManifestTransactions(batch.manifest);
    AtLeastOne(batch.manifest);
    var t := entries[entry % |entries|];
    FirstVaultInput(config, vaults, controllers, monthly, emergency, first, batch, t);
    StrippedIsApprovedAndRefused(config, batch, t, 0);
    proposed := Stripped(batch, t, 0);
    var wallet := new Directory(proposed);
    var ok := wallet.Approve(config, config.hww);
    approved := Batch(wallet.manifest, wallet.files);
  }

  lemma {:induction false} AtLeastOne(m: Manifest)
    ensures |ManifestTransactions(m)| > 0
  {
  }

  lemma {:induction false} FirstVaultInput(config: VaultConfig, vaults: seq<Utxo>, controllers: seq<Utxo>, monthly: U64, emergency: U64,
                                           firstAddress: nat, batch: Batch, t: BatchTransaction)
    requires ValidBatch(config, batch) && ProposalFor(config, vaults, controllers, monthly, emergency, firstAddress, batch)
    requires t in ManifestTransactions(batch.manifest)
    ensures IsInput(batch, t, 0) && FinalizedAtOnce(batch, t, 0)
  {
    VaultInputsPayVault(config, batch, t);
    if t == batch.manifest.rollover {
      VaultRange(config, vaults, controllers, monthly, emergency, firstAddress, batch);
    } else {
      ChildRoles(config, batch, t);
    }
    hide ValidBatch, ProposalFor, ManifestTransactions;
    assert t.vaultIndexes[0] == 0;
  }

  lemma {:induction false} VaultRange(config: VaultConfig, vaults: seq<Utxo>, controllers: seq<Utxo>, monthly: U64, emergency: U64,
                                      firstAddress: nat, batch: Batch)
    requires ProposalFor(config, vaults, controllers, monthly, emergency, firstAddress, batch)
    ensures |batch.manifest.rollover.vaultIndexes| > 0 && batch.manifest.rollover.vaultIndexes[0] == 0
  {
    hide PhoneSigned, RolloverShape, AddressesReplay, UtxoSum, SelectedCount, ChainTotal;
  }

  // ----- What nothing checks before the broadcast -----

  /** The policy is accepted and the phone may sign step k+1, yet no phone that has activated it, with all
      its files in place, can broadcast that step. */
  ghost predicate Stuck(config: VaultConfig, batch: Batch, k: nat) {
    && ValidApproved(config, batch) && Complete(batch) && k < |batch.manifest.allowances|
    && CanSign(Authorization(batch, k), config.phone, ControllerLeaf(config.phone), 1)
    && forall d :: ActiveHolds(config, d, batch) ==> !CanBroadcast(config, d, k + 1)
  }

  /** What an acceptable batch becomes without the leaves of an authorization's connector. */
  lemma {:induction false} StrippedConnectorIsStuck(config: VaultConfig, batch: Batch, k: nat, after: Batch)
    requires Approvable(config, batch, config.hww) && batch.manifest.phoneApproved && LeavesListed(config, batch)
    requires k < |batch.manifest.allowances| && IsInput(batch, batch.manifest.allowances[k].authorization, 1)
    requires CanSign(batch.files[batch.manifest.allowances[k].authorization.file], config.phone, ControllerLeaf(config.phone), 1)
    requires HwwSigned(config, Stripped(batch, batch.manifest.allowances[k].authorization, 1), after)
    ensures Stuck(config, after, k)
  {
    var t := batch.manifest.allowances[k].authorization;
    NotNeededYet(config, batch, k);
    StrippedExactly(config, batch, t, 1, after);
    hide Approvable, HwwSigned, ValidApproved, LeavesListed, CanSign, ActiveHolds, CanBroadcast, FinalizedAtOnce, ConnectorUsable, IsInput;
    ApprovedInOrder(config, after);
    SameManifest(config, Stripped(batch, t, 1), after);
    UnusableConnector(config, batch, k, after);
    forall d | ActiveHolds(config, d, after)
      ensures !CanBroadcast(config, d, k + 1)
    {
      CannotBroadcast(config, after, k, d);
    }
  }

  lemma {:induction false} NotNeededYet(config: VaultConfig, batch: Batch, k: nat)
    requires ValidBatch(config, batch) && k < |batch.manifest.allowances|
    ensures batch.manifest.allowances[k].authorization in ManifestTransactions(batch.manifest)
    ensures !FinalizedAtOnce(batch, batch.manifest.allowances[k].authorization, 1)
  {
    AllEntriesListed(batch.manifest);
    AuthorizationsAreChildren(config, batch);
    ChildRoles(config, batch, batch.manifest.allowances[k].authorization);
    hide ValidBatch, ManifestTransactions;
  }

  lemma {:induction false} CannotBroadcast(config: VaultConfig, batch: Batch, k: nat, d: Disk)
    requires ActiveHolds(config, d, batch) && k < |batch.manifest.allowances| && !ConnectorUsable(config, Authorization(batch, k))
    ensures !CanBroadcast(config, d, k + 1)
  {
    ScheduledAllowanceBroadcasts(config, d, batch, k);
    hide ValidApproved, Holds, Broadcastable, ConnectorUsable;
    var step := k + 1;
    if j: nat :| Broadcastable(config, d, step, j) {
      OnlyScheduledSteps(config, d, batch, step, j);
    }
  }

  lemma {:induction false} UnusableConnector(config: VaultConfig, batch: Batch, k: nat, after: Batch)
    requires k < |batch.manifest.allowances| && IsInput(batch, batch.manifest.allowances[k].authorization, 1)
    requires CanSign(batch.files[batch.manifest.allowances[k].authorization.file], config.phone, ControllerLeaf(config.phone), 1)
    requires HwwSigned(config, Stripped(batch, batch.manifest.allowances[k].authorization, 1), after)
    ensures Complete(after) && k < |after.manifest.allowances| ==>
              && !ConnectorUsable(config, Authorization(after, k))
              && CanSign(Authorization(after, k), config.phone, ControllerLeaf(config.phone), 1)
  {
    var t := batch.manifest.allowances[k].authorization;
    AllEntriesListed(batch.manifest);
    var stripped := Stripped(batch, t, 1);
    SameManifest(config, stripped, after);
    SignedEntry(config, stripped, after, t);
    hide HwwSigned, ManifestTransactions;
  }

  lemma {:induction false} ProposalListsLeaves(config: VaultConfig, vaults: seq<Utxo>, controllers: seq<Utxo>, monthly: U64, emergency: U64,
                                               firstAddress: nat, batch: Batch)
    requires ValidBatch(config, batch) && ProposalFor(config, vaults, controllers, monthly, emergency, firstAddress, batch)
    ensures Approvable(config, batch, config.hww) && batch.manifest.phoneApproved && LeavesListed(config, batch)
  {
    ProposalIsApproved(config, vaults, controllers, monthly, emergency, firstAddress, batch, batch);
    SignedPhone(config, vaults, controllers, monthly, emergency, firstAddress, batch);
    forall t | t in ManifestTransactions(batch.manifest)
      ensures EntryListed(config, batch.manifest, batch.files, t)
    {
      ProposedEntryComplete(config, batch, t);
    }
    hide ValidBatch, ManifestTransactions, EntryListed, Approvable, PhoneSigned, RolloverShape, AddressesReplay, SelectedCount, ChainTotal,
         UtxoSum, IndexRange;
  }

  lemma {:induction false} AuthorizationCanBeSigned(config: VaultConfig, vaults: seq<Utxo>, controllers: seq<Utxo>, monthly: U64,
                                                    emergency: U64, firstAddress: nat, batch: Batch, k: nat)
    requires ValidBatch(config, batch) && ProposalFor(config, vaults, controllers, monthly, emergency, firstAddress, batch)
    requires k < |batch.manifest.allowances|
    ensures var t := batch.manifest.allowances[k].authorization;
            && IsInput(batch, t, 1)
            && CanSign(batch.files[t.file], config.phone, ControllerLeaf(config.phone), 1)
  {
    var m := batch.manifest;
    AllEntriesListed(m);
    EntryPrevouts(config, batch);
    StepAt(config, batch, k);
    StepConnectorInput(config, m.monthlyLimit, m.allowanceCount, batch.files, batch.files[m.rollover.file].tx, m.allowances, k);
    SignedPhone(config, vaults, controllers, monthly, emergency, firstAddress, batch);
    hide ValidBatch, ProposalFor, ManifestTransactions, ValidStep, SignedBy, HasPrevouts;
    assert InputsDescribed(batch.files[m.allowances[k].authorization.file]);
  }

  lemma {:induction false} StrippedIsStuck(config: VaultConfig, vaults: seq<Utxo>, controllers: seq<Utxo>, monthly: U64, emergency: U64,
                                           firstAddress: nat, batch: Batch, k: nat, after: Batch)
    requires ValidBatch(config, batch) && ProposalFor(config, vaults, controllers, monthly, emergency, firstAddress, batch)
    requires k < |batch.manifest.allowances| && IsInput(batch, batch.manifest.allowances[k].authorization, 1)
    requires HwwSigned(config, Stripped(batch, batch.manifest.allowances[k].authorization, 1), after)
    ensures Stuck(config, after, k)
  {
    hide *;
    ProposalListsLeaves(config, vaults, controllers, monthly, emergency, firstAddress, batch);
    AuthorizationCanBeSigned(config, vaults, controllers, monthly, emergency, firstAddress, batch, k);
    StrippedConnectorIsStuck(config, batch, k, after);
  }

  /** Any proposal with an allowance, any step. */
  method ApproveStuck(config: VaultConfig, vaults: seq<Utxo>, controllers: seq<Utxo>, monthly: U64, emergency: U64, hot: AddressCursor,
                      pick: nat)
    returns (approved: Batch, k: nat)
    requires hot.network == config.network && hot.owner == config.phone
    requires Buildable(config, vaults, controllers, monthly, emergency, config.phone) && Selects(vaults, controllers, monthly, emergency)
    modifies hot`next
    ensures Stuck(config, approved, k)
    ensures |approved.manifest.allowances| > 0 && k == pick % |approved.manifest.allowances|
  {
    hide *;
    ghost var first := hot.next;
    var built := BuildPolicyProposal(config, vaults, controllers, monthly, emergency, config.phone, hot);
    var batch := built.value;
    CountOf(config, vaults, controllers, monthly, emergency, first, batch);
    AllowanceLength(config, batch);
    k := pick % |batch.manifest.allowances|;
    var t := batch.manifest.allowances[k].authorization;
    AuthorizationCanBeSigned(config, vaults, controllers, monthly, emergency, first, batch, k);
    ProposalListsLeaves(config, vaults, controllers, monthly, emergency, first, batch);
    StrippedExactly(config, batch, t, 1, batch);
    var wallet := new Directory(Stripped(batch, t, 1));
    var ok := wallet.Approve(config, config.hww);
    approved := Batch(wallet.manifest, wallet.files);
    StrippedIsStuck(config, vaults, controllers, monthly, emergency, first, batch, k, approved);
    SameManifest(config, Stripped(batch, t, 1), approved);
    SameAllowances(batch, t, 1);
  }

  lemma {:induction false} SameAllowances(batch: Batch, t: BatchTransaction, index: nat)
    requires IsInput(batch, t, index)
    ensures Stripped(batch, t, index).manifest == batch.manifest
  {
  }
}
