/** Two approved policies can share one rollover, because a rollover names no hot address. What staging
    the second over the first does, exactly, and how it heals (src/hot_wallet/mod.rs). */
module MixedPolicies {
  import opened Wrappers
  import opened Bitcoin
  import opened Fees
  import opened Psbts
  import opened Ceremony
  import opened HotAddresses
  import opened Selection
  import opened Builder
  import opened Proposal
  import opened ColdSigner
  import opened Activation
  import opened ActivationSafety
  import opened MonthlyBroadcast

  // ----- What staging a second policy of the same epoch does -----

  /** The attempt ends before the active schedule is replaced. */
  predicate StopsEarly(d: Disk, second: Batch, cut: nat, accepts: bool)
    requires Complete(second)
  {
    cut <= SwitchPosition(second, Previous(d)) || !accepts
  }

  /** Step k+1 of the first policy has been overwritten by the second one's. */
  predicate Overwritten(second: Batch, cut: nat, k: nat) {
    k < |second.manifest.allowances| && k + 3 <= cut
  }

  /** The authorization of entry k passes every check made before its broadcast. */
  ghost predicate Broadcasts(config: VaultConfig, d: Disk, k: nat) {
    Broadcastable(config, d, k + 1, k)
  }

  lemma {:induction false} SameEpochIsAllowed(config: VaultConfig, d: Disk, first: Batch, second: Batch)
    requires ActiveHolds(config, d, first) && ValidApproved(config, second) && SameEpoch(first, second)
    ensures !Refuses(config, d, second) && Previous(d) == Some(Epoch(second)) && Complete(second) && StepsInOrder(second)
  {
    ApprovedInOrder(config, second);
    hide ValidApproved, Holds;
  }

  lemma {:induction false} EarlyStop(config: VaultConfig, d: Disk, first: Batch, second: Batch, cut: nat, accepts: bool)
    requires ActiveHolds(config, d, first) && ValidApproved(config, second) && SameEpoch(first, second)
    ensures Complete(second)
    ensures var n, d' := Reached(second, d, cut, accepts), After(config, d, Attempt(second, cut, accepts));
            && d' == StateAt(d, second, n)
            && (StopsEarly(d, second, cut, accepts) <==> n <= SwitchPosition(second, Previous(d)))
            && (forall k: nat :: Overwritten(second, n, k) <==> Overwritten(second, cut, k))
  {
    SameEpochIsAllowed(config, d, first, second);
    AfterIsStateAt(config, d, Attempt(second, cut, accepts));
    OpsLayout(second, d);
    hide ValidApproved, After, Refuses, Ops, StagingOps, ActiveHolds, StateAt;
  }

  /** A second policy of the active epoch: either the attempt gets past the switch and its own schedule
      and files are active, or the first schedule stays and each of its steps can be broadcast exactly
      when what is now stored for it is the transaction that it names, with a connector input that the
      phone can use. */
  lemma {:induction false} SecondPolicyExactly(config: VaultConfig, d: Disk, first: Batch, second: Batch, cut: nat, accepts: bool)
    requires ActiveHolds(config, d, first) && ValidApproved(config, second) && SameEpoch(first, second)
    ensures var d' := After(config, d, Attempt(second, cut, accepts));
            if !StopsEarly(d, second, cut, accepts) then ActiveHolds(config, d', second)
            else
              && d'.schedule == Some(ScheduleFor(first))
              && forall k :: 0 <= k < |first.manifest.allowances| ==>
                   (Broadcasts(config, d', k) <==>
                    if Overwritten(second, cut, k)
                    then Authorization(second, k).tx == Authorization(first, k).tx && ConnectorUsable(config, Authorization(second, k))
                    else ConnectorUsable(config, Authorization(first, k)))
  {
    var n, d' := Reached(second, d, cut, accepts), After(config, d, Attempt(second, cut, accepts));
    SameEpochIsAllowed(config, d, first, second);
    EarlyStop(config, d, first, second, cut, accepts);
    hide ValidApproved, After, Refuses, Reached, StateAt, Holds, ScheduleFor, Broadcastable, ConnectorUsable;
    if n > SwitchPosition(second, Previous(d)) {
      NewlyHeld(d, second, n);
    } else {
      ScheduleUnmoved(d, second, n);
      forall k | 0 <= k < |first.manifest.allowances|
        ensures Broadcasts(config, d', k) <==>
                if Overwritten(second, cut, k)
                then Authorization(second, k).tx == Authorization(first, k).tx && ConnectorUsable(config, Authorization(second, k))
                else ConnectorUsable(config, Authorization(first, k))
      {
        StepAfterStaging(config, d, first, second, n, k);
      }
    }
  }

  // What is stored for step k+1 after n operations.
  lemma {:induction false} StoredAt(d: Disk, first: Batch, second: Batch, n: nat, k: nat)
    requires Complete(first) && StepsInOrder(first) && Complete(second) && StepsInOrder(second) && Epoch(first) == Epoch(second)
    requires Holds(d.Dir(Epoch(first)), first) && k < |first.manifest.allowances|
    ensures var stored := StateAt(d, second, n).Dir(Epoch(first)).authorizations;
            && k + 1 in stored
            && stored[k + 1] == if Overwritten(second, n, k) then Authorization(second, k) else Authorization(first, k)
  {
    hide EmergencyMap, ScheduleFor;
    var c := Clamp(n - 2, |second.manifest.allowances|);
    AuthorizationMapHolds(second, c);
    assert first.manifest.allowances[k].step == k + 1;
    assert Overwritten(second, n, k) <==> k < c;
    assert n > 0 ==> StateAt(d, second, n).Dir(Epoch(first)).authorizations
                     == d.Dir(Epoch(first)).authorizations + AuthorizationMap(second, c);
  }

  lemma {:induction false} StepAfterStaging(config: VaultConfig, d: Disk, first: Batch, second: Batch, n: nat, k: nat)
    requires ActiveHolds(config, d, first) && ValidApproved(config, second) && SameEpoch(first, second)
    requires StateAt(d, second, n).schedule == d.schedule && k < |first.manifest.allowances|
    ensures Broadcasts(config, StateAt(d, second, n), k) <==>
            if Overwritten(second, n, k)
            then Authorization(second, k).tx == Authorization(first, k).tx && ConnectorUsable(config, Authorization(second, k))
            else ConnectorUsable(config, Authorization(first, k))
  {
    ApprovedInOrder(config, second);
    StoredAt(d, first, second, n, k);
    ApprovedIsValid(config, first);
    ApprovedIsValid(config, second);
    AuthorizationFacts(config, first, k);
    FirstEntryFor(first, k);
    ConnectorsMatch(config, first, second, k);
    PassesExactly(config, first, k, EntryFor(first, k));
    if k < |second.manifest.allowances| {
      PassesExactly(config, second, k, EntryFor(first, k));
    }
    hide ValidApproved, ValidBatch, StateAt, Holds, StoredPasses, ConnectorUsable, ConsumesConnector, DefaultSighashes;
    var d', p := StateAt(d, second, n), if Overwritten(second, n, k) then Authorization(second, k) else Authorization(first, k);
    assert Broadcastable(config, d', k + 1, k) <==> StoredPasses(config, p, EntryFor(first, k));
  }

  lemma {:induction false} FirstEntryFor(batch: Batch, k: nat)
    requires Complete(batch) && StepsInOrder(batch) && k < |batch.manifest.allowances|
    ensures var s := ScheduleFor(batch); k < |s.entries| && s.entries[k] == EntryFor(batch, k) && IsEntryFor(s, k + 1, k)
  {
    var s := ScheduleFor(batch);
    forall j | 0 <= j < k
      ensures s.entries[j].step != k + 1
    {
      assert s.entries[j] == EntryFor(batch, j);
    }
  }

  // The same transaction consumes the same connector.
  lemma {:induction false} ConnectorsMatch(config: VaultConfig, first: Batch, second: Batch, k: nat)
    requires ValidBatch(config, first) && ValidBatch(config, second) && Complete(first) && Complete(second)
    requires k < |first.manifest.allowances|
    ensures k < |second.manifest.allowances| && Authorization(second, k).tx == Authorization(first, k).tx ==>
              ConsumesConnector(Authorization(second, k), first.manifest.allowances[k].connector)
  {
    if k < |second.manifest.allowances| {
      StepConnector(config, first, k);
      StepConnector(config, second, k);
    }
    hide ValidBatch;
  }

  lemma {:induction false} StepConnector(config: VaultConfig, batch: Batch, k: nat)
    requires ValidBatch(config, batch) && Complete(batch) && k < |batch.manifest.allowances|
    ensures var p := Authorization(batch, k);
            && |p.tx.inputs| == 2 && ConsumesConnector(p, batch.manifest.allowances[k].connector)
            && batch.manifest.allowances[k].connector == ConnectorState(p.tx.inputs[1].prevout, CONNECTOR_VALUE_SATS)
  {
    var m := batch.manifest;
    AuthorizationFacts(config, batch, k);
    StepAt(config, batch, k);
    hide ValidBatch, ConsumesConnector, ValidStep;
    ConnectorOfStep(config, m.monthlyLimit, m.allowanceCount, batch.files, batch.files[m.rollover.file].tx, m.allowances, k);
  }

  lemma {:induction false} ConnectorOfStep(config: VaultConfig, limit: U64, count: nat, files: Files, rollover: Tx,
                                           allowances: seq<AllowanceStep>, k: nat)
    requires k < |allowances| && ValidStep(config, limit, count, files, rollover, allowances, k)
    ensures allowances[k].authorization.file in files
    ensures var p := files[allowances[k].authorization.file];
            && |p.tx.inputs| == 2
            && allowances[k].connector == ConnectorState(p.tx.inputs[1].prevout, CONNECTOR_VALUE_SATS)
  {
    hide PolicyVsize, MinimalNonDust, AuthorizationTemplate;
  }

  // ----- Healing -----

  /** An uninterrupted, accepted activation of any policy that is not refused restores the property
      that all the active schedule names is stored. */
  lemma {:induction false} ActivationHeals(config: VaultConfig, d: Disk, batch: Batch, cut: nat)
    requires !Refuses(config, d, batch)
    ensures Complete(batch)
    ensures cut > SwitchPosition(batch, Previous(d)) ==> ActiveHolds(config, After(config, d, Attempt(batch, cut, true)), batch)
  {
    NotSuperseded(config, d, batch);
    ApprovedInOrder(config, batch);
    AfterIsStateAt(config, d, Attempt(batch, cut, true));
    OpsLayout(batch, d);
    if cut > SwitchPosition(batch, Previous(d)) {
      NewlyHeld(d, batch, Reached(batch, d, cut, true));
    }
    hide ValidApproved, After, Refuses, Ops, StagingOps, StateAt, Holds, ScheduleFor;
  }

  /** After an early stop, trying either policy again and passing the switch makes it active with all
      its own files. */
  lemma {:induction false} EitherRetryHeals(config: VaultConfig, d: Disk, first: Batch, second: Batch, cut: nat, accepts: bool,
                                            retried: Batch, again: nat)
    requires ActiveHolds(config, d, first) && ValidApproved(config, second) && SameEpoch(first, second)
    requires StopsEarly(d, second, cut, accepts) && (retried == first || retried == second)
    ensures Complete(retried)
    ensures var d' := After(config, d, Attempt(second, cut, accepts));
            again > SwitchPosition(retried, Previous(d')) ==> ActiveHolds(config, After(config, d', Attempt(retried, again, true)), retried)
  {
    var d' := After(config, d, Attempt(second, cut, accepts));
    SecondPolicyExactly(config, d, first, second, cut, accepts);
    hide ValidApproved, After, Holds, Broadcastable, StepsInOrder, ConnectorUsable, Authorization;
    assert !Refuses(config, d', retried);
    ActivationHeals(config, d', retried, again);
  }

  // ----- Such pairs come out of the builder -----

  /** Two approved policies of one rollover that differ in every authorization, each with a connector that
      the phone can use. */
  ghost predicate Mixable(config: VaultConfig, first: Batch, second: Batch) {
    && ValidApproved(config, first) && ValidApproved(config, second) && SameEpoch(first, second)
    && |first.manifest.allowances| == |second.manifest.allowances| > 0
    && forall k :: 0 <= k < |first.manifest.allowances| ==>
         && Authorization(first, k).tx != Authorization(second, k).tx
         && ConnectorUsable(config, Authorization(first, k)) && ConnectorUsable(config, Authorization(second, k))
  }

  /** The approved form of a proposal: its transactions, and what its authorizations' connectors record. */
  lemma {:induction false} ApprovedProposal(config: VaultConfig, vaults: seq<Utxo>, controllers: seq<Utxo>, monthly: U64, emergency: U64,
                                            firstAddress: nat, batch: Batch, after: Batch)
    requires ValidBatch(config, batch) && ProposalFor(config, vaults, controllers, monthly, emergency, firstAddress, batch)
    requires HwwSigned(config, batch, after)
    ensures ValidApproved(config, after) && Complete(batch) && Complete(after)
    ensures after.manifest.allowances == batch.manifest.allowances && Epoch(after) == Epoch(batch)
    ensures forall k :: 0 <= k < |batch.manifest.allowances| ==>
              && Authorization(after, k).tx == Authorization(batch, k).tx
              && ConnectorUsable(config, Authorization(after, k))
  {
    ProposalIsApproved(config, vaults, controllers, monthly, emergency, firstAddress, batch, after);
    ApprovedIsComplete(config, after);
    AllEntriesListed(batch.manifest);
    SameManifest(config, batch, after);
    EntryPrevouts(config, batch);
    hide ValidBatch, ProposalFor, HwwSigned, ManifestTransactions, ValidApproved, ConnectorUsable, HasPrevouts;
    forall k | 0 <= k < |batch.manifest.allowances|
      ensures Authorization(after, k).tx == Authorization(batch, k).tx && ConnectorUsable(config, Authorization(after, k))
    {
      ApprovedConnector(config, vaults, controllers, monthly, emergency, firstAddress, batch, after, k);
    }
  }

  lemma {:induction false} SameManifest(config: VaultConfig, batch: Batch, after: Batch)
    requires HwwSigned(config, batch, after)
    ensures after.manifest == batch.manifest.(hwwApproved := true)
  {
    hide ManifestTransactions, HasPrevouts;
  }

  lemma {:induction false} ApprovedConnector(config: VaultConfig, vaults: seq<Utxo>, controllers: seq<Utxo>, monthly: U64, emergency: U64,
                                             firstAddress: nat, batch: Batch, after: Batch, k: nat)
    requires ValidBatch(config, batch) && ProposalFor(config, vaults, controllers, monthly, emergency, firstAddress, batch)
    requires HwwSigned(config, batch, after) && k < |batch.manifest.allowances|
    ensures var name := batch.manifest.allowances[k].authorization.file;
            name in batch.files && name in after.files && after.files[name].tx == batch.files[name].tx
            && ConnectorUsable(config, after.files[name])
  {
    var m := batch.manifest;
    var t := m.allowances[k].authorization;
    AllEntriesListed(m);
    SignedPhone(config, vaults, controllers, monthly, emergency, firstAddress, batch);
    StepAt(config, batch, k);
    SecondInput(config, m.monthlyLimit, m.allowanceCount, batch.files, batch.files[m.rollover.file].tx, m.allowances, k);
    SignedEntry(config, batch, after, t);
    hide ValidBatch, ProposalFor, HwwSigned, ManifestTransactions, ValidStep, SignedBy;
    assert InputsDescribed(batch.files[t.file]);
  }

  lemma {:induction false} SignedPhone(config: VaultConfig, vaults: seq<Utxo>, controllers: seq<Utxo>, monthly: U64, emergency: U64,
                                       firstAddress: nat, batch: Batch)
    requires ProposalFor(config, vaults, controllers, monthly, emergency, firstAddress, batch)
    ensures PhoneSigned(config, batch)
  {
    hide PhoneSigned, RolloverShape, AddressesReplay, SelectedCount, ChainTotal, UtxoSum, IndexRange;
  }

  // The second input of an accepted authorization lies under the controller script.
  lemma {:induction false} SecondInput(config: VaultConfig, limit: U64, count: nat, files: Files, rollover: Tx,
                                       allowances: seq<AllowanceStep>, k: nat)
    requires k < |allowances| && ValidStep(config, limit, count, files, rollover, allowances, k)
    ensures allowances[k].authorization.file in files
    ensures var p := files[allowances[k].authorization.file];
            |p.inputs| == 2 && p.inputs[1].utxo == Some(ConnectorOutput(config.Controller()))
  {
    hide PolicyVsize, MinimalNonDust, AuthorizationTemplate;
  }

  // Signing an entry changes neither its transaction nor what its inputs record of their trees.
  lemma {:induction false} SignedEntry(config: VaultConfig, batch: Batch, after: Batch, t: BatchTransaction)
    requires HwwSigned(config, batch, after) && t in ManifestTransactions(batch.manifest)
    ensures t.file in batch.files && t.file in after.files && after.files[t.file].tx == batch.files[t.file].tx
    ensures |after.files[t.file].inputs| == |batch.files[t.file].inputs|
    ensures forall i :: 0 <= i < |batch.files[t.file].inputs| ==>
              && after.files[t.file].inputs[i].utxo == batch.files[t.file].inputs[i].utxo
              && after.files[t.file].inputs[i].origins == batch.files[t.file].inputs[i].origins
              && after.files[t.file].inputs[i].scripts == batch.files[t.file].inputs[i].scripts
  {
    SigningPreserves(batch.files[t.file], config.hww, CooperativeLeaf(config), t.vaultIndexes);
    hide ManifestTransactions, Signed, HasPrevouts;
  }

  /** Any two proposals from one scan and one pair of limits, made at different places of the address
      cursor, become such a pair once the hardware wallet has signed them. */
  lemma {:induction false} ProposalsMix(config: VaultConfig, vaults: seq<Utxo>, controllers: seq<Utxo>, monthly: U64, emergency: U64,
                                        i: nat, j: nat, a: Batch, b: Batch, first: Batch, second: Batch)
    requires ValidBatch(config, a) && ProposalFor(config, vaults, controllers, monthly, emergency, i, a)
    requires ValidBatch(config, b) && ProposalFor(config, vaults, controllers, monthly, emergency, j, b)
    requires i != j && a.manifest.allowanceCount > 0
    requires HwwSigned(config, a, first) && HwwSigned(config, b, second)
    ensures Mixable(config, first, second)
  {
    ApprovedProposal(config, vaults, controllers, monthly, emergency, i, a, first);
    ApprovedProposal(config, vaults, controllers, monthly, emergency, j, b, second);
    SameScanSameRollover(config, vaults, controllers, monthly, emergency, i, j, a, b);
    hide ValidBatch, ProposalFor, HwwSigned, ValidApproved, ConnectorUsable;
    forall k | 0 <= k < |first.manifest.allowances|
      ensures Authorization(first, k).tx != Authorization(second, k).tx
    {
      DifferentAddressesDiffer(config, vaults, controllers, monthly, emergency, i, j, a, b, k);
    }
  }

  /** With such a pair, staging all authorizations of the second and stopping leaves nothing of the
      active schedule that can be broadcast, though every step could be before. */
  lemma {:induction false} MixedPoliciesBreakSchedule(config: VaultConfig, d: Disk, first: Batch, second: Batch, cut: nat, accepts: bool)
    requires Mixable(config, first, second) && ActiveHolds(config, d, first)
    requires |first.manifest.allowances| + 2 <= cut && StopsEarly(d, second, cut, accepts)
    ensures var d' := After(config, d, Attempt(second, cut, accepts));
            && d'.schedule == d.schedule
            && (forall k :: 0 <= k < |first.manifest.allowances| ==> Broadcasts(config, d, k))
            && (forall step :: !CanBroadcast(config, d', step))
  {
    var d' := After(config, d, Attempt(second, cut, accepts));
    SecondPolicyExactly(config, d, first, second, cut, accepts);
    EveryStepBefore(config, d, first, second);
    EveryStepOverwritten(config, first, second, cut);
    hide ValidApproved, After, Holds, ConnectorUsable, StopsEarly, Mixable, Overwritten, CanBroadcast, Broadcasts;
    forall step
      ensures !CanBroadcast(config, d', step)
    {
      NoStepBroadcasts(config, d', first, step);
    }
  }

  lemma {:induction false} EveryStepBefore(config: VaultConfig, d: Disk, first: Batch, second: Batch)
    requires Mixable(config, first, second) && ActiveHolds(config, d, first)
    ensures ValidApproved(config, second) && SameEpoch(first, second)
    ensures forall k :: 0 <= k < |first.manifest.allowances| ==> Broadcasts(config, d, k)
  {
    hide ValidApproved, Broadcastable, ConnectorUsable;
    forall k | 0 <= k < |first.manifest.allowances|
      ensures Broadcasts(config, d, k)
    {
      ScheduledAllowanceBroadcasts(config, d, first, k);
    }
  }

  lemma {:induction false} EveryStepOverwritten(config: VaultConfig, first: Batch, second: Batch, cut: nat)
    requires Mixable(config, first, second) && |first.manifest.allowances| + 2 <= cut
    ensures Complete(first) && Complete(second)
    ensures forall k: nat :: k < |first.manifest.allowances| ==>
              Overwritten(second, cut, k) && Authorization(second, k).tx != Authorization(first, k).tx
  {
    hide ValidApproved, ConnectorUsable;
  }

  // With no step left that broadcasts under its own entry, nothing broadcasts.
  lemma {:induction false} NoStepBroadcasts(config: VaultConfig, d: Disk, batch: Batch, step: nat)
    requires Complete(batch) && StepsInOrder(batch) && d.schedule == Some(ScheduleFor(batch))
    requires forall k: nat :: k < |batch.manifest.allowances| ==> !Broadcasts(config, d, k)
    ensures !CanBroadcast(config, d, step)
  {
    hide Broadcastable, ScheduleFor;
    if j: nat :| Broadcastable(config, d, step, j) {
      assert step == j + 1 ==> Broadcasts(config, d, j);
      OnlyScheduledSteps(config, d, batch, step, j);
    }
  }

  lemma {:induction false} OnlyScheduledSteps(config: VaultConfig, d: Disk, batch: Batch, step: nat, j: nat)
    requires Complete(batch) && StepsInOrder(batch) && d.schedule == Some(ScheduleFor(batch))
    ensures Broadcastable(config, d, step, j) ==> j < |batch.manifest.allowances| && step == j + 1
  {
    if j < |batch.manifest.allowances| {
      assert ScheduleFor(batch).entries[j] == EntryFor(batch, j);
    }
    hide StoredPasses;
  }

  /** Whatever can be built with at least one allowance can be built and approved twice, and then the
      two policies are such a pair. */
  method ApproveTwice(config: VaultConfig, vaults: seq<Utxo>, controllers: seq<Utxo>, monthly: U64, emergency: U64, hot: AddressCursor)
    returns (first: Batch, second: Batch)
    requires hot.network == config.network && hot.owner == config.phone
    requires Buildable(config, vaults, controllers, monthly, emergency, config.phone) && Selects(vaults, controllers, monthly, emergency)
    modifies hot`next
    ensures Mixable(config, first, second)
  {
    hide *;
    ghost var i := hot.next;
    var built := BuildPolicyProposal(config, vaults, controllers, monthly, emergency, config.phone, hot);
    ghost var j := hot.next;
    var again := BuildPolicyProposal(config, vaults, controllers, monthly, emergency, config.phone, hot);
    var a, b := built.value, again.value;
    CountOf(config, vaults, controllers, monthly, emergency, i, a);
    ProposalIsApproved(config, vaults, controllers, monthly, emergency, i, a, a);
    ProposalIsApproved(config, vaults, controllers, monthly, emergency, j, b, b);
    var left := new Directory(a);
    var right := new Directory(b);
    var leftOk := left.Approve(config, config.hww);
    var rightOk := right.Approve(config, config.hww);
    first, second := Batch(left.manifest, left.files), Batch(right.manifest, right.files);
    ProposalsMix(config, vaults, controllers, monthly, emergency, i, j, a, b, first, second);
  }

  lemma {:induction false} CountOf(config: VaultConfig, vaults: seq<Utxo>, controllers: seq<Utxo>, monthly: U64, emergency: U64,
                                   firstAddress: nat, batch: Batch)
    requires ProposalFor(config, vaults, controllers, monthly, emergency, firstAddress, batch)
    requires Selects(vaults, controllers, monthly, emergency)
    ensures batch.manifest.allowanceCount > 0
  {
    hide PhoneSigned, RolloverShape, AddressesReplay, SelectedCount, ChainTotal, UtxoSum, IndexRange;
  }

  /** The selection grants at least one allowance. */
  predicate Selects(vaults: seq<Utxo>, controllers: seq<Utxo>, monthly: U64, emergency: U64) {
    var total := UtxoSum(vaults) + UtxoSum(controllers);
    total <= MAX_U64 && SelectedCount(|vaults|, |controllers|, total, monthly, emergency) > 0
  }
}
