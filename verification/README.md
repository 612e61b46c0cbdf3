# Anzen's annual policy, verified

Anzen keeps bitcoin in a two-of-two vault shared by a phone and a hardware wallet. Once a year the
phone proposes, and the hardware wallet signs, a batch of transactions: a *rollover* of the whole
vault, a chain of monthly *authorizations* that each release one allowance after a relative delay, and
an optional two-step *emergency* withdrawal. Every step also spends a small *connector* output that
either device can spend alone, so either can revoke what has not happened yet.

This project models that graph from the builder to the chain and proves what it is for:

- the builder succeeds under exact conditions, and the validator, the hardware wallet and the phone
  accept what it returns;
- no satoshi is lost, at every step of the chain;
- over every run of the ledger, spending is bounded by time, revocation is permanent, and connectors are
  linear tokens;
- a renewal retires the batch before it and is independent of it exactly unless it rebuilds one of that
  batch's own transactions, which is known before it is built;
- activation and key rotation survive a crash, a failed write or a rejected broadcast at any point;
- the concurrent vanity search returns at most one result, a correct one, under every interleaving;
- the signer's byte-level code (key normalization, bounded writer, serializer, signature jobs) is
  correct for every input that it accepts.

Transactions are terms, and a txid is its transaction in a wrapper, so txids are injective. A signature
is a fact that binds a key to a whole transaction with all its previous outputs, as SIGHASH_DEFAULT
does. Amounts are checked `u64` values. Both limits are symbolic throughout, and what is proved on the
chain holds for chains of any length, not only for twelve steps.

| file | what it holds |
|---|---|
| `Wrappers`, `Bytes`, `Bitcoin` | result types, bytes and words, transactions and amounts |
| `Fees`, `Psbts` | input roles and signed sizes; signing and verification |
| `Ceremony`, `Validator`, `ManifestContents` | what an acceptable batch is, and the validator that decides it |
| `Selection`, `Builder`, `Proposal`, `HotAddresses` | the phone's policy builder |
| `Conservation` | where every satoshi of an accepted batch goes |
| `ColdSigner`, `MissingScriptTree` | approval by the hardware wallet and the phone's final check |
| `Graph`, `Ledger`, `Safety`, `BatchSafety`, `Liveness`, `Revocation`, `RevocationPower` | the batch on the chain, over every run |
| `Renewal`, `Collision` | the next batch, built from a scan of the chain |
| `Activation`, `ActivationSafety`, `MonthlyBroadcast`, `EmergencyBroadcast`, `MixedPolicies` | activation on the phone, with crashes |
| `Sweep`, `RecoverySweep`, `Rotation`, `RotationActivation`, `RotationSafety`, `RotationOrder`, `RotationRetry` | sweeps and phone-key rotation, with crashes |
| `VanitySearch`, `VanityProgress`, `VanityTarget` | the concurrent search and its bit test |
| `KeyNormalization`, `SignerTransactions`, `SignerWalk`, `SignerMessages`, `SignerGraph` | the allocation-free signer |

`dafny verify dfyconfig.toml` checks everything.

## Findings

Five statements that a reader might expect turn out to need a condition. Each is proved with its exact
condition, and with inputs for which it fails.

- *Once a renewal's rollover confirms, the earlier batch is dead.* It is, if and only if the renewal's
  rollover is not itself one of the earlier batch's transactions (`Renewal.RenewalRetiresBatch`). A
  confirmed batch leaves one such case (`Renewal.OneCaseEach`): the new rollover is the old emergency
  trigger, if and only if the scan finds exactly the old remainder and its trigger connector, no emergency
  amount is asked for, and the new chain needs the old staged amount (`Renewal.CollisionIsExact`). Then the old
  withdrawal can confirm its delay later; it takes the new chain's first output and connector, and no new
  allowance follows (`Collision.CollisionFreesWithdrawal`). A remainder of 1,500,000, an emergency amount of
  1,000,000 and a new monthly limit of 1,000,000 do it (`Collision.ACollision`, and both batches built in
  `Collision.CollidingRenewal`); nothing else outstanding survives (`Collision.CollisionRetiresTheRest`). The
  same two cases decide whether the renewal is independent of all the batches before it
  (`Renewal.IndependenceIsExact`).
- *The rollover creates no dust.* Its own allowance output is never compared with dust. It falls below
  dust exactly for a single allowance whose limit is under 1,085 sats
  (`Proposal.ChainOutputIsDustExactlyWhen`; `Proposal.ADustProposal`).
- *What the hardware wallet approves, the phone accepts.* Signing reads an input's key origins, finalizing
  its leaf scripts, and approval looks only at the first. The phone accepts exactly when every vault input
  and every rollover connector lists its leaf (`ColdSigner.ApprovalIsAccepted`). The builder always writes
  them; without those of any one such input a batch is still approved and then refused
  (`MissingScriptTree.StrippedIsApprovedAndRefused`, `MissingScriptTree.ApproveStripped`). A cooperative sweep
  behaves the same way (`Sweep.ApprovedSweepFinalizes`).
- *Every scheduled allowance can be broadcast.* Each one can exactly when its connector names the phone and
  lists the phone's leaf (`MonthlyBroadcast.ScheduledAllowanceBroadcasts`), and nothing checks that before the
  broadcast: a policy without it is approved, accepted and activated, its authorization is signed, and it never
  leaves the phone (`MissingScriptTree.StrippedConnectorIsStuck`, `MissingScriptTree.ApproveStuck`). Besides, a
  rollover names no hot address, so any proposal approved twice gives two policies that share it and differ
  in every authorization (`MixedPolicies.ProposalsMix`, `MixedPolicies.ApproveTwice`). Staging the second and
  stopping before the switch leaves the first one's schedule; each of its steps can then be broadcast exactly
  when its connector is usable and its file has not been replaced, or only by the same transaction
  (`MixedPolicies.SecondPolicyExactly`). Activating either policy again heals it
  (`MixedPolicies.EitherRetryHeals`).
- *Configuration and device name the same phone key.* They disagree after a run exactly when it stopped
  between its two switching writes and the key is a different one (`RotationSafety.OnlyWindow`), and
  every built and approved package has such a run (`RotationSafety.BuiltRotationHasWindow`). The package is
  refused from then on, until a later rotation goes back to the old key
  (`RotationSafety.SwitchedStaysRefused`), but the missing key is in an archive, as no key is ever lost
  (`RotationSafety.KeysAreNeverLost`).

## Model

| member | source | states |
|---|---|---|
| Fees.PartitionIsExact | src/core/ceremony.rs:1211-1230 | the cardinality check accepts exactly the role lists that together list every input once (as multisets) |
| Fees.CoverCardinality | src/core/transactions.rs:418-462 | with disjoint roles, counting to the number of inputs and covering every input are the same check |
| Fees.EstimatePolicyVsize | src/core/transactions.rs:418-462 | fails exactly when the role sets do not cover the inputs; otherwise the size depends only on the two counts and the outputs |
| Fees.EstimateVaultVsize | src/core/transactions.rs:395-416 | the size of a transaction whose every input takes one vault path |
| Fees.SweepSizes | src/core/transactions.rs:395-416 | in literal vbytes for each path, below 253 inputs |
| Fees.ClosedFormAgrees | cold-signer/src/benchmark.rs:729-749 | the signer's one-line size equals the host's estimate on P2TR outputs if and only if both counts fit a one-byte length, whatever the amounts and outpoints |
| Fees.RevocationLeavesChange | src/core/transactions.rs:125-190 | any n >= 1 connectors pay for their own revocation and leave at least 863 sats; exactly 863 for one |
| Psbts.CreatePolicyPsbt | src/core/transactions.rs:44-94 | succeeds exactly on an exact partition whose previous outputs pay their role's script; result in full |
| Psbts.SignInputs | src/core/transactions.rs:202-286 | succeeds exactly when every listed input authorizes the key under SIGHASH_DEFAULT; adds those signatures and nothing else |
| Psbts.VerifySignatures | src/core/transactions.rs:298-371 | accepts exactly when every listed input carries the key's signature over the whole transaction |
| Psbts.SigningPreserves | src/core/transactions.rs:202-286 | signing keeps the unsigned transaction, the recorded outputs, origins and leaf scripts, and every other signature |
| Psbts.FinalizeVaultPsbt | src/core/transactions.rs:382-389 | succeeds exactly when every input lists a leaf of the tree that it spends under and valid signatures satisfy that leaf |
| Psbts.CooperativeFinalizes | src/core/policy.rs:128-147 | with no block-counting sequence a vault input finalizes if and only if it lists the cooperative leaf and both keys signed it |
| Validator.ValidateBatch | src/core/ceremony.rs:761-905 | accepts exactly the valid batches |
| Validator.ValidateRollover | src/core/ceremony.rs:761-905 | rollover part: exact roles, sequences, sums, fee, output layout |
| Validator.ValidateAllowances | src/core/ceremony.rs:907-1019 | the threaded loop accepts exactly when every step spends its parent's chain output and connector and follows the policy |
| Validator.ValidateConnectorEmergency | src/core/ceremony.rs:1021-1152 | accepts exactly the emergency packages that stage, delay and return what the policy says |
| Validator.ValidateConnectorChild | src/core/ceremony.rs:1154-1202 | accepts exactly the children of an assigned vault output and an unsigned assigned connector |
| ManifestContents.ManifestIsDetermined | src/core/ceremony.rs:761-1152 | the files, the configuration, the limits, the approvals and the file names determine everything else in an accepted manifest, but for the order of the rollover's role lists |
| Selection.ChainValueTelescopes | src/core/ceremony.rs:1614-1634 | the closed form equals the hop-by-hop total, and is refused exactly when that is negative or overflows |
| Selection.SelectionIsOptimal | src/core/ceremony.rs:403-449 | a positive count is fundable if and only if it does not exceed the selected one |
| Selection.SelectionIsMonotone | src/core/ceremony.rs:403-449 | the selected count never falls with the balance and never rises with either limit |
| Selection.FullYear | src/core/ceremony.rs:403-449 | twelve allowances are selected if and only if the balance covers them, in literal amounts; more never are |
| Selection.SelectRollover | src/core/ceremony.rs:403-449 | the search fails exactly on overflow, or when only a single allowance below its connector is left; otherwise it returns the optimal plan with exact amounts |
| Builder.BuildAuthorization | src/core/ceremony.rs:542-642 | one pass of the loop: succeeds exactly when the link keeps dust, or the last one is used up; its step passes validation |
| Builder.BuildAllowances | src/core/ceremony.rs:535-642 | on a chain of the computed value the loop fails exactly when two or more steps have a limit that leaves the last link below dust; otherwise every step is valid and its value is the total of what remains |
| Builder.BuildEmergencyAccess | src/core/ceremony.rs:1260-1394 | exact success condition; the two transactions pass validation |
| Proposal.BuildPolicyProposal | src/core/ceremony.rs:270-713 | succeeds under exactly the conditions of Buildable, and then the batch is valid, signed by the phone, optimal, funded from all the given inputs, and its hot addresses are consecutive |
| Proposal.RolloverIsPlanned | src/core/ceremony.rs:403-533 | the scan and the limits fix the whole rollover of an accepted proposal; no hot address enters |
| Proposal.DifferentAddressesDiffer | src/core/ceremony.rs:535-642 | proposals from different places of the address cursor differ in every authorization |
| Proposal.ChainOutputIsDustExactlyWhen | src/core/ceremony.rs:403-482 | when the unchecked allowance output is below dust |
| Proposal.ADustProposal | src/core/ceremony.rs:403-482 | a concrete balance and limit for which it is |
| Conservation.ChainValueIsWhatRemains | src/core/ceremony.rs:907-1019 | in every accepted batch the chain before step k holds the remaining allowances and fees less one connector |
| Conservation.BatchConserves | src/core/ceremony.rs:761-1152 | in every accepted batch the inputs equal the allowances, the cold or emergency value and all fees; connectors cancel |
| ColdSigner.EntriesAreDistinct | src/cold_wallet/mod.rs:143-178 | no two entries of an accepted batch are the same transaction or share a file, so no rewrite touches another entry |
| ColdSigner.Directory.Approve | src/cold_wallet/mod.rs:124-183 | approves exactly the approvable batches; the new files and manifest in full; a refusal leaves a signed prefix and an unmarked manifest |
| ColdSigner.ApprovalKeepsValid | src/cold_wallet/mod.rs:124-183 | unsigned transactions are unchanged and the batch is still valid |
| ColdSigner.ValidateApprovedBatch | src/core/ceremony.rs:722-758 | accepts exactly the batches with both approvals, both signatures everywhere and finalizable inputs |
| ColdSigner.ApprovalIsAccepted | src/core/ceremony.rs:722-758 | an approved batch is accepted if and only if the phone had approved, every vault input of every entry lists the cooperative leaf, and every rollover connector lists a leaf that is signed |
| ColdSigner.EntriesAreCosigned | src/core/ceremony.rs:722-758 | no vault input of an accepted batch can be spent through a recovery leaf: it finalizes if and only if it lists the cooperative leaf and both keys signed it |
| ColdSigner.ApprovedRolloverFinalizes | src/hot_wallet/mod.rs:403 | the rollover of an accepted batch can always be extracted |
| MissingScriptTree.StrippedExactly | src/cold_wallet/mod.rs:143-178 | removing the leaf scripts of any one input of any entry never stops approval, and stops acceptance exactly for a vault input or a rollover connector |
| MissingScriptTree.StrippedIsApprovedAndRefused | src/core/ceremony.rs:722-758 | so without the leaves of any one of those a batch is approved and then refused |
| MissingScriptTree.ApproveStripped | src/cold_wallet/mod.rs:124-183 | every proposal gives such a batch, through the vault input of any entry |
| MissingScriptTree.StrippedConnectorIsStuck | src/hot_wallet/mod.rs:643-690 | without the leaves of a later connector it is accepted, the authorization can be signed, and no phone that holds it can broadcast it |
| MissingScriptTree.ApproveStuck | src/hot_wallet/mod.rs:643-690 | every proposal with an allowance gives such a batch, for any step |
| ColdSigner.ProposalIsApproved | src/cold_wallet/mod.rs:124-183 | what the builder returns is approvable, what approval makes of it is accepted, and every later connector is still unsigned |
| Graph.GraphIsWellFormed | src/core/ceremony.rs:761-1152 | every accepted batch is a chain of delayed two-input transactions below its rollover |
| Graph.TransactionsAreEntries | src/core/ceremony.rs:1669-1680 | the members of the graph are exactly the manifest's transactions |
| Ledger.RunIsConsistent | src/core/ceremony.rs:907-1152 | every reachable ledger: outputs are spent once, by a confirmed transaction that lists them, after their lock |
| Ledger.RunExtends | src/core/ceremony.rs:907-1152 | confirmations, spends and outputs are never undone |
| Ledger.RunSpendsCosigned | src/core/policy.rs:128-136 | vault outputs are spent only by transactions that both keys signed |
| Safety.ChainOrder | src/core/ceremony.rs:931-993 | a confirmed authorization has all its predecessors before it, each a full delay apart |
| Safety.SpendingBound | src/core/ceremony.rs:907-1152 | in every run, within T seconds of the rollover at most T / 2,592,256 allowances and, after its delay, one emergency amount are paid by the batch's own transactions to other scripts |
| Safety.DescendantsAreMembers | src/core/ceremony.rs:907-1152 | in every run in which the batch is independent, whatever descends from its rollover through vault outputs belongs to it |
| Safety.DescendantsAreBounded | src/core/ceremony.rs:907-1152 | so the same bound holds for all that leaves those outputs, in any set of transactions |
| Safety.RevocationIsPermanent | src/core/ceremony.rs:931-993 | once another transaction has spent connector i, no authorization from i on ever confirms |
| Safety.RevocationKeepsVault | src/core/ceremony.rs:931-993 | and the vault output of step i stays unspent for good |
| Safety.CancellationIsPermanent | src/core/ceremony.rs:1091-1121 | the same for both emergency transactions |
| Safety.CancellationKeepsVault | src/core/ceremony.rs:1091-1121 | and the output about to be spent stays |
| Safety.TokensAreLinear | src/core/ceremony.rs:535-642 | at most one chain output and one connector are live, from the same transaction; a live connector has its output beside it |
| Safety.PrincipalStaysInVault | src/core/ceremony.rs:907-1152 | in every reachable ledger the next chain output and the remainder (or staged amount) are live under the vault script |
| Safety.SupersededForever | src/core/ceremony.rs:319-330 | after a transaction that spends all live policy outputs confirms, nothing outstanding of the earlier batch ever does |
| BatchSafety.AcceptedBatchIsBounded | src/core/ceremony.rs:761-1152 | acceptance by the validator alone gives the spending bound, in the manifest's own limits |
| BatchSafety.AcceptedBatchHolds | src/core/ceremony.rs:761-1152 | what an accepted batch still holds in the vault after k allowances, to the satoshi |
| Liveness.AuthorizationConfirmsExactly | src/core/ceremony.rs:907-1019 | authorization k can confirm if and only if its chain output and connector are live, 2,592,256 seconds have passed since they were made, and both keys signed it |
| Liveness.EmergencyConfirmsExactly | src/core/ceremony.rs:1021-1152 | the trigger can confirm at once, the withdrawal 605,184 seconds after it, under the same condition |
| Liveness.NextAllowanceFlows | src/core/ceremony.rs:907-1152 | in every reachable ledger where the batch is independent and its next connector is live, the next allowance can be taken if and only if its delay is over |
| Liveness.LifetimeBound | src/core/ceremony.rs:761-1152 | however long one waits, an accepted batch pays out at most twelve allowances and one emergency amount |
| Liveness.AcceptedAmounts | src/core/ceremony.rs:761-1152 | in every accepted batch remainder, later chain outputs and emergency change are above dust, and every child pays 331 sats, or 245 at the end, for Taproot addresses |
| Liveness.EntriesAreReplaceable | src/core/ceremony.rs:1154-1202 | in every accepted batch no entry has an absolute lock, and every child records exactly the outputs that it spends, signals replacement, and has an unsigned connector |
| Renewal.CollisionIsExact | src/core/ceremony.rs:403-482 | a renewal's rollover is the earlier emergency trigger if and only if scan and limits meet a condition known before the build |
| Renewal.RepetitionIsExact | src/core/ceremony.rs:403-482 | and the earlier rollover if and only if it has the same inputs and planned outputs |
| Renewal.RenewalRetiresBatch | src/core/ceremony.rs:319-330 | after a rollover built from the exact scan confirms, nothing outstanding of the earlier batch (confirmed or not yet) ever does, if and only if neither condition holds; otherwise the renewal's own rollover is such a transaction |
| Renewal.OneCaseEach | src/core/ceremony.rs:319-330 | a confirmed rollover is never repeated; one that has not confirmed never collides |
| Renewal.IndependenceIsExact | src/core/ceremony.rs:270-713 | with any number of earlier batches, confirmed or not, no signed transaction outside the renewal spends its outputs if and only if it collides with none of them and repeats none under other transactions |
| Renewal.RepeatedProposalClashes | src/core/ceremony.rs:535-642 | two proposals from one scan and different cursors do repeat each other so |
| Renewal.RenewalIsBounded | src/core/ceremony.rs:270-713 | then all that leaves the vault outputs below the new rollover stays within the new limits |
| Collision.CollisionFreesWithdrawal | src/core/ceremony.rs:1021-1152 | in a collision every run up to the scan extends to one where the old withdrawal confirms and revokes the new chain |
| Collision.CollisionRetiresTheRest | src/core/ceremony.rs:1021-1152 | everything outstanding but the trigger and the withdrawal never confirms |
| Collision.ACollision | src/core/ceremony.rs:403-482 | concrete amounts that can be built and collide |
| Collision.CollidingRenewal | src/core/ceremony.rs:270-713 | both batches come out of the builder, and a run in which the second is drained |
| Revocation.BuildControllerRevocation | src/core/transactions.rs:125-190 | exact success condition and result |
| Revocation.ConnectorsFundTheirRevocation | src/core/transactions.rs:125-190 | revoking connectors to a P2TR address cannot fail for lack of value |
| Revocation.BuiltRevocationRevokes | src/hot_wallet/mod.rs:697-741 | a confirmed revocation of connector i revokes step i |
| Revocation.BuiltRevocationCancels | src/hot_wallet/mod.rs:568-580 | and one of an emergency connector cancels it |
| RevocationPower.RevocationFinalizes | src/core/transactions.rs:125-190 | a built revocation can be signed by either device and by nobody else, and finalizes with that one signature |
| RevocationPower.RevokeAlone | src/hot_wallet/mod.rs:697-741 | build, sign, finalize: succeeds exactly for revocable connectors and a device key; the transaction spends exactly those outputs and pays all but the fee to one output above dust |
| RevocationPower.LiveConnectorCanBeRevoked | src/core/transactions.rs:125-190 | every run in which a connector is live extends at once by its revocation, and then neither this step nor a later one has been taken |
| Activation.Phone.Activate | src/hot_wallet/mod.rs:392-528 | the code leaves exactly the prefix of its operations that was reached, and reports success exactly at the end |
| ActivationSafety.StateAtIsApplied | src/hot_wallet/mod.rs:418-527 | the complete disk after any number of the operations |
| ActivationSafety.ScheduleIsAccepted | src/hot_wallet/mod.rs:502-521 | in every history the active schedule names an accepted rollover |
| ActivationSafety.NeverReactivated | src/hot_wallet/mod.rs:404-418 | an epoch that was active and was replaced is never active again, in any history |
| ActivationSafety.RejectionChangesNothing | src/hot_wallet/mod.rs:502-507 | a rejected broadcast leaves schedule, limits, markers and every other epoch as they were |
| ActivationSafety.RetryConverges | src/hot_wallet/mod.rs:392-528 | from every crash point a retry ends in exactly the disk of an uninterrupted activation |
| ActivationSafety.ActivationCompletes | src/hot_wallet/mod.rs:508-527 | an uninterrupted activation ends with its own schedule, limits and marker |
| EmergencyBroadcast.ScheduleDescribesGraph | src/hot_wallet/mod.rs:418-501 | every txid, connector, amount and address in the schedule that activation writes is the accepted graph's |
| MonthlyBroadcast.AuthorizationToBroadcast | src/hot_wallet/mod.rs:643-690 | succeeds exactly when some entry's stored PSBT passes every check, can be signed by the phone and can then be finalized; hands over that transaction |
| MonthlyBroadcast.BroadcastIsScheduled | src/hot_wallet/mod.rs:643-690 | what is broadcast has the txid, connector outpoint and connector value that the schedule names for the step |
| MonthlyBroadcast.ActiveIsStored | src/hot_wallet/mod.rs:434-501 | all that the active schedule names is on the phone, in every history with one policy per epoch |
| MonthlyBroadcast.ScheduledAllowanceBroadcasts | src/hot_wallet/mod.rs:643-690 | then each allowance can be broadcast if and only if its connector input names the phone as signer and lists the phone's leaf |
| EmergencyBroadcast.EmergencyToBroadcast | src/hot_wallet/mod.rs:582-641 | succeeds exactly when the stored PSBT is the scheduled transaction, consumes its connector, can be signed and finalized; hands over that transaction |
| EmergencyBroadcast.EmergencyIsScheduled | src/hot_wallet/mod.rs:582-641 | the same for the emergency pair |
| EmergencyBroadcast.ScheduledEmergencyBroadcasts | src/hot_wallet/mod.rs:582-641 | each emergency transaction of the active policy can be broadcast if and only if there is one and its connector names the phone and lists the phone's leaf |
| EmergencyBroadcast.ActiveEmergencyIsStored | src/hot_wallet/mod.rs:434-501 | in every history with one policy per epoch the active schedule describes the accepted graph, and the approved trigger and withdrawal that it names are stored; the withdrawal spends that trigger |
| MixedPolicies.SecondPolicyExactly | src/hot_wallet/mod.rs:418-527 | after an attempt with a second policy of the active epoch, either its own schedule is active and stored, or exactly which steps of the first can still be broadcast |
| MixedPolicies.ProposalsMix | src/hot_wallet/mod.rs:418-453 | two proposals from one scan and different cursors become approved policies of one epoch that differ in every authorization |
| MixedPolicies.ApproveTwice | src/cold_wallet/mod.rs:124-183 | whatever can be built with an allowance can be built and approved twice, with that result |
| MixedPolicies.MixedPoliciesBreakSchedule | src/hot_wallet/mod.rs:643-690 | staging the second one leaves nothing that can be broadcast, though every step could be before |
| MixedPolicies.EitherRetryHeals | src/hot_wallet/mod.rs:392-528 | activating either policy again makes all that its schedule names stored |
| Sweep.MatureIsExact | src/core/recovery.rs:418-428 | exactly the mature outputs, each once, in order |
| Sweep.MaturityIsExactBelowSaturation | src/core/recovery.rs:418-428 | the saturating test is the plain one exactly below saturation of the tip |
| Sweep.MaturityIsMonotone | src/core/recovery.rs:418-428 | monotone in the tip; mature for the hardware wallet implies mature for the phone |
| Sweep.PhoneOnlyWindow | src/core/recovery.rs:40-56 | the 4,335 consecutive tips at which only the phone may sweep an output |
| Sweep.BuildSweepPsbt | src/core/recovery.rs:430-473 | sent plus fee equals the inputs; exact success condition |
| Sweep.PrepareSweep | src/core/recovery.rs:129-160 | sweeps exactly the mature outputs |
| RecoverySweep.RecoverySweepFinalizes | src/core/recovery.rs:160-184 | a recovery sweep can be signed by the path's own key and no other, finalizes once that key has signed, and not before |
| RecoverySweep.SweptExactlyWhenUnlocked | src/core/recovery.rs:129-160 | below saturation an output is swept if and only if the relative block lock on the sweep's inputs has run out at the next block |
| RecoverySweep.RecoverVault | src/core/recovery.rs:129-184 | exact success condition of preparing and signing; the transaction waits 61,200 or 65,535 blocks on every mature output |
| Sweep.CreateCooperativeSweep | src/core/recovery.rs:186-219 | exact success condition and package |
| Sweep.ValidateCooperativeSweep | src/core/recovery.rs:251-304 | accepts exactly the valid packages |
| Sweep.SweepIsDetermined | src/core/recovery.rs:251-304 | the signed transaction and the approval mark determine everything else in an accepted package |
| Sweep.AcceptedSweepPays | src/core/recovery.rs:251-304 | an accepted package pays one output and a fee of one satoshi per vbyte, in literal amounts, waits for nothing, and the phone approved it |
| Sweep.CreatedSweepIsValid | src/core/recovery.rs:186-304 | a created package is accepted if and only if its destination is on the vault's network |
| Sweep.SignedSweepFinalizes | src/core/recovery.rs:221-249 | and once signed by the hardware wallet it can be finalized |
| Sweep.ApproveSweep | src/cold_wallet/mod.rs:280-302 | exact success condition and result |
| Sweep.ApprovedSweepFinalizes | src/core/recovery.rs:221-249 | what the hardware wallet signs can be finalized if and only if every input lists the cooperative leaf |
| Rotation.BuildPhoneRotation | src/hot_wallet/rotation.rs:172-223 | succeeds exactly when the sweep, and the renewal if a policy is active, can be funded; package in full |
| Rotation.ValidatePhoneRotation | src/core/recovery.rs:306-357 | accepts exactly the valid packages |
| Rotation.PackageIsDetermined | src/core/recovery.rs:306-357 | sweep, renewal and backup determine everything else in an accepted rotation package |
| Rotation.RenewalSpendsSweep | src/core/recovery.rs:306-357 | an accepted renewal spends the sweep's one output, is worth exactly what was sent, and keeps the limits; there is one if and only if a limit is set |
| Rotation.ValidateRotationHotAddresses | src/hot_wallet/rotation.rs:428-442 | accepts exactly when the addresses replay from a fresh cursor of the new phone |
| Rotation.AddressesAreUsedOnce | src/hot_wallet/rotation.rs:344-367 | no address of an accepted rotation is used twice: hot balance, revoked connectors, emergency, allowances |
| Rotation.RotationComposes | src/hot_wallet/rotation.rs:172-223 | a built package is valid before and after approval, and everything that activation checks holds |
| Rotation.RotationBalances | src/hot_wallet/rotation.rs:390-426 | old balance = sweep fee + rollover fee + allowance + remainder + connectors, and in terms of all fees |
| Rotation.ApprovePhoneRotation | src/cold_wallet/mod.rs:304-343 | exact success condition; the returned package |
| Rotation.BuiltRotationIsApproved | src/cold_wallet/mod.rs:304-343 | a built package is never refused by the hardware wallet |
| RotationActivation.RotatingPhone.Activate | src/hot_wallet/rotation.rs:225-367 | the code leaves exactly a prefix of its operations, cut by a crash, a rejection, an unfinalizable sweep, a foreign wallet or an occupied archive; after all of them the address comparison succeeds |
| RotationActivation.RotatingPhone.CompareAddresses | src/hot_wallet/rotation.rs:344-367 | with no old wallet left, accepts exactly the first change addresses and the first receive addresses of the new phone |
| RotationSafety.RunRetainsKeys | src/hot_wallet/rotation.rs:254-341 | a run that sent anything had archived both generations and the new backup; it switched only after the vault sweep was accepted |
| RotationSafety.KeysAreNeverLost | src/hot_wallet/rotation.rs:456-476 | over every history of runs and other activity the configured key is on the device or in an archive, and the archives hold the key of every vault that an accepted broadcast emptied or was to fill |
| RotationSafety.KeysAreRetained | src/hot_wallet/rotation.rs:456-476 | and while runs start in agreement, each sweep's own archive holds both generations |
| RotationSafety.SwitchFollowsSweep | src/hot_wallet/rotation.rs:330-341 | over every history, a configured or device key other than the first belongs to a package whose sweep was accepted |
| RotationOrder.RunSendsInOrder | src/hot_wallet/rotation.rs:268-341 | every cut run archives its hot sweep before sending it, sends it before it revokes the connectors, and both before the vault sweep or a key switch; it sends nothing else and nothing that is rejected |
| RotationOrder.RejectionStopsSweep | src/hot_wallet/rotation.rs:268-330 | a rejected hot sweep or revocation stops the run before the vault sweep |
| RotationOrder.CompleteRunSendsAll | src/hot_wallet/rotation.rs:268-341 | a complete run has sent exactly what it had to |
| RotationOrder.SweepsArePrepared | src/hot_wallet/rotation.rs:268-330 | over every history, a vault sweep was sent by a run that by then had swept the hot wallet and revoked the live connectors |
| RotationSafety.OnlyWindow | src/hot_wallet/rotation.rs:332-341 | configuration and device disagree after a run if and only if it stopped between their writes and the key changes; the archive then holds the key |
| RotationSafety.WindowIsReached | src/hot_wallet/rotation.rs:332-341 | every activatable, fully signed package that nothing blocks has a run that stops there |
| RotationSafety.BuiltRotationHasWindow | src/hot_wallet/rotation.rs:172-341 | so has every package that is built and approved |
| RotationSafety.NoSecondSwitch | src/core/recovery.rs:306-325 | right after the switch the same package is refused |
| RotationSafety.SwitchedStaysRefused | src/core/recovery.rs:306-325 | and at every later state of every history, until a rotation back to the old key |
| RotationSafety.RenewedPolicyActivates | src/hot_wallet/rotation.rs:330-372 | a finished run leaves nothing of the old epoch active; only the renewed schedule can become active |
| RotationRetry.CompletesExactly | src/hot_wallet/rotation.rs:225-342 | an unhindered run completes if and only if the wallet database is the device's own and the archive has room for the old policy directory |
| RotationRetry.RetryConverges | src/hot_wallet/rotation.rs:225-342 | from every stop before the configuration is written a retry completes under that condition on the first disk, and ends where an uninterrupted run ends, but for the archived wallet database and hot sweep |
| VanitySearch.IndexHasOneOwner | src/hot_wallet/mod.rs:222-247 | each index belongs to exactly one worker |
| VanitySearch.SearchOutcome | src/hot_wallet/mod.rs:216-263 | every complete interleaving: at most one message, a found index matches, no message means no match below 2^31, attempts equal candidates tested if none failed |
| VanitySearch.MarksRise | src/hot_wallet/mod.rs:317-329 | accepted progress marks rise by at least a million each and never pass the attempts |
| VanityProgress.StoppedTests | src/hot_wallet/mod.rs:227-253 | once the flag is up it stays up, and each worker tests at most the candidate that it has at hand |
| VanityProgress.StoppedSoon | src/hot_wallet/mod.rs:227-253 | and every interleaving ends within six steps of each worker |
| VanityProgress.StoppedAttempts | src/hot_wallet/mod.rs:227-253 | so the final attempts exceed the candidates tested when the flag went up by at most one for each worker |
| VanityProgress.DueReportIsMade | src/hot_wallet/mod.rs:317-329 | a worker that has counted a million past the mark does not go on before the mark has risen by a million |
| VanityProgress.MarkKeepsUp | src/hot_wallet/mod.rs:240-329 | with up to 244 workers the mark is always less than a million and one chunk of each worker behind the attempts |
| VanityProgress.MarkLagsByRounds | src/hot_wallet/mod.rs:240-329 | with any number of workers it is less than a million behind, and one chunk of each worker for each accepted report and the next |
| VanityProgress.MarkDoesNotStall | src/hot_wallet/mod.rs:317-329 | while the mark stands still, no more attempts are added than up to the next mark and one chunk of each worker |
| VanitySearch.RunTerminates | src/hot_wallet/mod.rs:224-253 | every interleaving is bounded by the work that there is |
| VanitySearch.FoundAddressHasPrefix | src/hot_wallet/mod.rs:265-275 | the final prefix check cannot fail |
| VanityTarget.NewTarget | src/hot_wallet/mod.rs:338-354 | accepts exactly one to six Bech32 characters and computes their number |
| VanityTarget.MatchIsPrefix | src/hot_wallet/mod.rs:356-360 | the shift and compare holds if and only if the address begins with the suffix |
| KeyNormalization.NormalizeBip340PublicKey | cold-signer/src/benchmark.rs:79-102 | refused exactly for a bad prefix or an odd Y above p; otherwise X is kept and Y becomes p - Y or stays |
| KeyNormalization.NormalizationIsNegation | cold-signer/src/benchmark.rs:79-102 | the result's Y is even, and an odd Y has been negated modulo p |
| KeyNormalization.NormalizeTwice | cold-signer/src/benchmark.rs:79-102 | idempotent |
| KeyNormalization.PrimeValue | cold-signer/src/benchmark.rs:33-36 | the constant is 2^256 - 2^32 - 977 |
| SignerTransactions.ByteWriter.Extend | cold-signer/src/benchmark.rs:780-791 | appends everything, or changes nothing and reports overflow exactly past capacity |
| SignerTransactions.ByteWriter.ExtendAll | cold-signer/src/benchmark.rs:780-791 | a row of appends is the concatenation, or overflows exactly when that does not fit |
| SignerTransactions.Serialize | cold-signer/src/benchmark.rs:235-249 | never overflows for an accepted transaction |
| SignerTransactions.SerializationRoundTrip | cold-signer/src/benchmark.rs:235-249 | the bytes parse back to the outpoints, sequences and outputs |
| SignerTransactions.SerializationIsInjective | cold-signer/src/benchmark.rs:235-249 | so different ones have different bytes |
| SignerWalk.ForEachSighash | cold-signer/src/benchmark.rs:257-332 | no buffer overflows; exactly the specified jobs |
| SignerWalk.JobsAreContiguous | cold-signer/src/benchmark.rs:299-330 | jobs are numbered without gaps over exactly the inputs that are not connectors |
| SignerWalk.WalkTransactions | cold-signer/src/benchmark.rs:446-645 | never runs out of value and never overflows for 1 to 12 inputs; what it builds is `SignerGraph.WalkRendersGraph` |
| SignerWalk.SignatureJobs | cold-signer/src/benchmark.rs:409-444 | exactly the jobs of a walk's transactions under the vault's scripts and leaf; one for each rollover input and fourteen more, at most 26 |
| SignerWalk.YearJobsAreExact | cold-signer/src/benchmark.rs:409-444 | they are numbered from zero over exactly the inputs that are not connectors, each with its own transaction's digest |
| SignerMessages.ComponentsRead | cold-signer/src/benchmark.rs:265-295 | every outpoint, amount, script, sequence and output is read back from the bytes that are hashed for it |
| SignerMessages.MessageReads | cold-signer/src/benchmark.rs:303-319 | every field of the signature message is read back at its offset |
| SignerMessages.SighashReads | cold-signer/src/benchmark.rs:257-332 | so a digest commits to the hashes of exactly those bytes, in their order, to the input and to the leaf |
| SignerGraph.WalkSpends | cold-signer/src/benchmark.rs:446-645 | every input after the rollover names an existing output of an earlier transaction, carries its amount, and is a controller input exactly when it pays the controller script |
| SignerGraph.WalkSpendsOnce | cold-signer/src/benchmark.rs:446-645 | no output is spent twice |
| SignerGraph.JobsCommitToSpentScripts | cold-signer/src/benchmark.rs:280-288 | the scripts that a signature commits to are those of the outputs that are spent |
| SignerGraph.YearIsBuildable | cold-signer/src/benchmark.rs:446-645 | the policy builder accepts the signer's balance and limits for 1 to 12 inputs |
| SignerGraph.WalkRendersGraph | cold-signer/src/benchmark.rs:446-645 | every transaction of the walk is the builder's transaction at the same place of its graph, written as bytes |
| SignerGraph.RenderingExists | cold-signer/src/benchmark.rs:251-255 | txids written as the double hash of the bytes are such a rendering |
| SignerWalk.WalkConserves | cold-signer/src/benchmark.rs:446-645 | the year spends exactly the balance |

## Left out

- Real cryptography, descriptors, Miniscript and PSBT encoding: txids are injective, signatures are facts, and leaf and control-block sizes are the constants of src/core/policy.rs:128-147.
- Chain backends: a broadcast is accepted or rejected. Confirmed transactions stay confirmed (no reorganisations), and there is no fee market.
- Ledger.Confirm: does not check that outputs are covered by inputs, and ignores block-height locks and the two recovery paths, because fewer rules only allow more runs (the recovery paths are excluded: only transactions that both keys signed spend vault outputs).
- Filesystem details: one call is one atomic durable write, one process uses a data directory, and file names are symbols. A directory that is not empty and the creation time in the manifest are not modelled.
- Psbts.CanFinalize: which leaf the Miniscript library takes when several are satisfied is not modelled. Finalizing succeeds when one listed leaf of the output's own tree is satisfied by valid signatures; signatures that do not verify, leaves of other trees or a key-path signature beside it are taken to be ignored. Witness bytes are not built.
- Activation.Phone.Activate: does not model encryption of the staged files or the schedule's constant delay field; the file contents are compared as plain values.
- RotationActivation.RotatingPhone.Activate: the proposal directory and the database's side files that move with the wallet, the addresses that the comparison itself reveals, the temporary workspaces and the removal of the pending key are not modelled (each run may find any pending key); activating the renewed policy is `RotationSafety.RenewedPolicyActivates`.
- RotationSafety.KeysAreNeverLost: requires that packages record the outputs they really spend, which is what a signature over previous outputs enforces on the chain.
- RotationSafety.KeysAreRetained: also requires that each run starts with the configured key on the device; `RotationSafety.KeysAreNeverLost` covers the histories where one does not.
- Renewal.IndependenceIsExact: the scan is exact, and what the earlier rollovers spend exists by then; what a scan misses or reports late is left to the backend.
- VanitySearch.SearchOutcome: indexes are unbounded numbers, so the `u64` addition of a stride near 2^64 is not modelled; key derivation is an arbitrary function that may fail; the interleavings are sequentially consistent, while the source's counters and flag use relaxed atomics.
- VanityProgress.MarkKeepsUp: the constant bound is stated for up to 244 workers, where a report that loses its exchange is never due again; for any number of workers `VanityProgress.MarkLagsByRounds` lets the bound grow with the reports and `VanityProgress.MarkDoesNotStall` bounds each stretch between two of them.
- Revocation.BuildControllerRevocation: what the phone reports when a connector is no longer live is left to the backend.
- HotAddresses.AddressCursor: addresses of a wallet never fail to derive.
- Cloud backups and OpenPGP friends, the command line, the Ledger application's screens and APDU handling, soft-limit returns and hot payments.
- The hash functions of the signer's commitments (tapleaf, tapbranch, tweak): the hash is an arbitrary function of bytes.
