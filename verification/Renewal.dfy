/** Renewal: a new rollover built from a scan of the chain, and what becomes of the batch before it
    (src/core/ceremony.rs, src/hot_wallet/mod.rs). */
module Renewal {
  import opened Wrappers
  import opened Bitcoin
  import opened Fees
  import Psbts
  import opened Ceremony
  import opened HotAddresses
  import opened Selection
  import opened Graph
  import opened Ledger
  import opened Safety
  import opened Conservation
  import opened Proposal

  // ----- The scan -----

  /** The scan behind a rollover: every live vault output and every live controller output, each with
      what it really holds, and nothing else. */
  ghost predicate ExactScan(config: VaultConfig, s: State, vaults: seq<Utxo>, controllers: seq<Utxo>) {
    && (forall o :: o in s.coins && s.coins[o].out.script == config.Vault() ==>
          exists i :: 0 <= i < |vaults| && vaults[i].outpoint == o)
    && (forall o :: o in s.coins && s.coins[o].out.script == config.Controller() ==>
          exists i :: 0 <= i < |controllers| && controllers[i].outpoint == o)
    && ListsLive(s, vaults) && ListsLive(s, controllers)
  }

  ghost predicate ListsLive(s: State, utxos: seq<Utxo>) {
    forall i :: 0 <= i < |utxos| ==>
      utxos[i].outpoint in s.coins && s.coins[utxos[i].outpoint].out == utxos[i].txout
  }

  lemma {:induction false} ScanSpendsAll(config: VaultConfig, s: State, vaults: seq<Utxo>, controllers: seq<Utxo>, g: Graph, next: Tx)
    requires ExactScan(config, s, vaults, controllers) && g.vault == config.Vault() && g.controller == config.Controller()
    requires next.inputs == RolloverInputs(vaults, controllers)
    ensures SpendsAllLive(g, s, next)
  {
    forall o | o in s.coins && s.coins[o].out.script in {g.vault, g.controller}
      ensures o in Prevouts(next)
    {
      if s.coins[o].out.script == config.Vault() {
        var i :| 0 <= i < |vaults| && vaults[i].outpoint == o;
        assert next.inputs[i].prevout == o;
      } else {
        var i :| 0 <= i < |controllers| && controllers[i].outpoint == o;
        assert next.inputs[|vaults| + i].prevout == o;
      }
    }
  }

  lemma {:induction false} RenewedInputs(config: VaultConfig, vaults: seq<Utxo>, controllers: seq<Utxo>, monthly: U64,
                                         emergency: U64, firstAddress: nat, batch: Batch)
    requires ValidBatch(config, batch) && ProposalFor(config, vaults, controllers, monthly, emergency, firstAddress, batch)
    ensures GraphOf(config, batch).rollover.inputs == RolloverInputs(vaults, controllers) && |vaults| > 0
  {
    hide ValidBatch, PhoneSigned, RolloverShape, AddressesReplay, SelectedCount, ChainTotal, UtxoSum, IndexRange;
  }

  // A rollover's first input carries no delay, so no delayed transaction equals it.
  lemma {:induction false} RolloverIsNotDelayed(g: Graph, next: Tx)
    requires WellFormed(g) && |next.inputs| > 0 && next.inputs[0].sequence == SEQUENCE_MAX
    requires next != g.rollover && (g.emergency.Some? ==> next != g.emergency.value.0)
    ensures next !in g.Transactions()
  {
    forall k | 0 <= k < |g.authorizations|
      ensures |g.authorizations[k].inputs| > 0 && g.authorizations[k].inputs[0].sequence == MONTHLY_SEQUENCE
    {
      assert WellFormedStep(g, k);
    }
  }

  // A transaction over live outputs has not confirmed yet.
  lemma {:induction false} LiveInputsAreNew(s: State, vaults: seq<Utxo>, controllers: seq<Utxo>, next: Tx)
    requires Consistent(s) && ListsLive(s, vaults) && |vaults| > 0
    requires next.inputs == RolloverInputs(vaults, controllers)
    ensures next !in s.confirmed
  {
    assert next.inputs[0].prevout == vaults[0].outpoint;
    SpenderOf(s, next, vaults[0].outpoint);
  }

  /** Each record of another transaction's output says what that transaction says. */
  ghost predicate ReportsOutputs(utxos: seq<Utxo>) {
    forall i :: 0 <= i < |utxos| && utxos[i].outpoint.txid.TxidOf? ==>
      var tx := utxos[i].outpoint.txid.tx;
      IsOutput(tx, utxos[i].outpoint) && utxos[i].txout == tx.outputs[utxos[i].outpoint.vout]
  }

  lemma {:induction false} LiveIsReported(s: State, utxos: seq<Utxo>)
    requires Consistent(s) && ListsLive(s, utxos)
    ensures ReportsOutputs(utxos)
  {
    forall i | 0 <= i < |utxos| && utxos[i].outpoint.txid.TxidOf?
      ensures var tx := utxos[i].outpoint.txid.tx;
              IsOutput(tx, utxos[i].outpoint) && utxos[i].txout == tx.outputs[utxos[i].outpoint.vout]
    {
      CreatedByParent(s, utxos[i].outpoint);
    }
  }

  // ----- When the new rollover is the old trigger -----

  /** The renewal would rebuild the earlier batch's emergency trigger: the vault holds nothing but the
      earlier remainder and its trigger connector, no emergency amount is asked for, and the new
      allowance chain needs exactly the earlier staged amount. All of it is known before the build. */
  predicate Collides(g: Graph, vaults: seq<Utxo>, controllers: seq<Utxo>, monthly: U64, emergency: U64) {
    var total := UtxoSum(vaults) + UtxoSum(controllers);
    && g.emergency.Some? && |g.emergency.value.0.outputs| > 0
    && |vaults| == 1 && vaults[0].outpoint == g.Remainder()
    && |controllers| == 1 && controllers[0].outpoint == g.TriggerConnector()
    && emergency == 0 && total <= MAX_U64
    && var count := SelectedCount(1, 1, total, monthly, 0);
    && count > 0 && ChainTotal(count, monthly) == g.emergency.value.0.outputs[0].value
  }

  /** The earlier trigger and the outputs that it spends. */
  lemma {:induction false} EarlierTrigger(config: VaultConfig, earlier: Batch)
    requires ValidBatch(config, earlier) && earlier.manifest.emergency.Some?
    ensures var m, g := earlier.manifest, GraphOf(config, earlier);
            var e := m.emergency.value;
            && g.emergency.Some?
            && g.emergency.value.0 == TriggerTemplate(g.Remainder(), g.TriggerConnector(), e.stagingValue, e.changeValue,
                                                      config.Vault(), config.Controller())
            && |g.rollover.outputs| > g.remainderVout && |g.rollover.outputs| > g.emergencyVout
            && g.rollover.outputs[g.remainderVout] == TxOut(m.remainderValue, config.Vault())
            && g.rollover.outputs[g.emergencyVout] == ConnectorOutput(config.Controller())
            && m.remainderValue == e.stagingValue + e.changeValue + CONTINUING_FEE
  {
    var m, files, g := earlier.manifest, earlier.files, GraphOf(config, earlier);
    BatchParts(config, earlier);
    hide ValidBatch, ValidStep, ValidRollover, ValidEmergency, ManifestTransactions, ValidHeader;
    var rollover := files[m.rollover.file];
    EmergencyShape(config, m.emergencyLimit, RemainderVout(m), EmergencyVout(m), files, rollover.tx, m.emergency.value);
    EmergencyBalance(config, m.emergencyLimit, RemainderVout(m), EmergencyVout(m), files, rollover.tx, m.emergency);
    TriggerFee(config, m.emergencyLimit, RemainderVout(m), EmergencyVout(m), files, rollover.tx, m.emergency.value);
    RolloverEnds(config, m, rollover);
  }

  lemma {:induction false} TriggerFee(config: VaultConfig, limit: U64, remainderVout: U32, connectorVout: U32, files: Files,
                                      rollover: Tx, e: EmergencyPolicy)
    requires ValidEmergency(config, limit, remainderVout, connectorVout, files, rollover, Some(e))
    ensures e.trigger.fee == CONTINUING_FEE
  {
    hide ValidChild, ValidWithdrawal;
    SingleStepFees(TxOut(e.stagingValue, config.Vault()), TxOut(e.changeValue, config.Vault()), ConnectorOutput(config.Controller()));
    hide PolicyVsize, MinimalNonDust;
  }

  lemma {:induction false} RolloverEnds(config: VaultConfig, m: Manifest, p: Psbts.Psbt)
    requires ValidRollover(config, m, p) && m.emergencyLimit > 0
    ensures |p.tx.outputs| > RemainderVout(m) && |p.tx.outputs| > EmergencyVout(m)
    ensures p.tx.outputs[RemainderVout(m)] == TxOut(m.remainderValue, config.Vault())
    ensures p.tx.outputs[EmergencyVout(m)] == ConnectorOutput(config.Controller())
  {
    hide ValidRolloverInputs, PolicyVsize, MinimalNonDust;
  }

  // Which rollovers have the shape of a trigger.
  lemma {:induction false} TriggerShaped(vaults: seq<Utxo>, controllers: seq<Utxo>, allowance: Option<U64>, remainder: U64,
                                         vault: Script, controller: Script, emergency: bool, source: OutPoint, connector: OutPoint,
                                         staging: U64, change: U64)
    requires |vaults| > 0 && vault != controller
    ensures Tx(2, 0, RolloverInputs(vaults, controllers), RolloverOutputs(allowance, remainder, vault, controller, emergency))
            == TriggerTemplate(source, connector, staging, change, vault, controller)
       <==> && |vaults| == 1 && |controllers| == 1 && vaults[0].outpoint == source && controllers[0].outpoint == connector
            && !emergency && allowance == Some(staging) && remainder == change
  {
    var inputs, outputs := RolloverInputs(vaults, controllers), RolloverOutputs(allowance, remainder, vault, controller, emergency);
    var trigger := TriggerTemplate(source, connector, staging, change, vault, controller);
    assert |inputs| == |vaults| + |controllers|;
    assert inputs[0] == TxIn(vaults[0].outpoint, SEQUENCE_MAX);
    assert |vaults| > 1 ==> inputs[1] == TxIn(vaults[1].outpoint, SEQUENCE_MAX);
    assert |vaults| == 1 && |controllers| > 0 ==> inputs[1] == TxIn(controllers[0].outpoint, SEQUENCE_RBF);
    assert |outputs| == 3 <==> allowance.Some? && !emergency;
    if allowance.Some? && !emergency {
      assert outputs == [TxOut(allowance.value, vault), TxOut(remainder, vault), ConnectorOutput(controller)];
    }
    if |vaults| == 1 && |controllers| == 1 {
      assert inputs == [TxIn(vaults[0].outpoint, SEQUENCE_MAX), TxIn(controllers[0].outpoint, SEQUENCE_RBF)];
    }
  }

  /** The outputs of the rollover that the builder would make. */
  function PlannedOutputs(config: VaultConfig, vaults: seq<Utxo>, controllers: seq<Utxo>, monthly: U64, emergency: U64): Option<seq<TxOut>> {
    var total := UtxoSum(vaults) + UtxoSum(controllers);
    if total > MAX_U64 then None
    else
      var count := SelectedCount(|vaults|, |controllers|, total, monthly, emergency);
      var chain := if count > 0 then ChainTotal(count, monthly) else 0;
      var remainder := PlannedRemainder(|vaults|, |controllers|, total, monthly, emergency);
      if 0 <= chain <= MAX_U64 && 0 <= remainder <= MAX_U64
      then Some(RolloverOutputs(if count > 0 then Some(chain) else None, remainder, config.Vault(), config.Controller(), emergency > 0))
      else None
  }

  /** A renewal's rollover is the planned one, whatever its hot addresses. */
  lemma {:induction false} RenewedRollover(config: VaultConfig, vaults: seq<Utxo>, controllers: seq<Utxo>, monthly: U64, emergency: U64,
                                           firstAddress: nat, renewed: Batch)
    requires ValidBatch(config, renewed) && ProposalFor(config, vaults, controllers, monthly, emergency, firstAddress, renewed)
    ensures |vaults| > 0
    ensures var outputs := PlannedOutputs(config, vaults, controllers, monthly, emergency);
            && outputs.Some?
            && GraphOf(config, renewed).rollover == Tx(2, 0, RolloverInputs(vaults, controllers), outputs.value)
  {
    hide *;
    var r := renewed.manifest;
    RenewedInputs(config, vaults, controllers, monthly, emergency, firstAddress, renewed);
    RolloverIsPlanned(config, vaults, controllers, monthly, emergency, firstAddress, renewed);
    RolloverOf(config, renewed);
    PlanIs(config, vaults, controllers, monthly, emergency, r.totalInput, r.allowanceCount, r.allowanceValue, r.remainderValue);
  }

  lemma {:induction false} PlanIs(config: VaultConfig, vaults: seq<Utxo>, controllers: seq<Utxo>, monthly: U64, emergency: U64, total: U64,
                                  count: nat, chain: U64, remainder: U64)
    requires total == UtxoSum(vaults) + UtxoSum(controllers)
    requires count == SelectedCount(|vaults|, |controllers|, total, monthly, emergency)
    requires count > 0 ==> chain == ChainTotal(count, monthly)
    requires remainder == PlannedRemainder(|vaults|, |controllers|, total, monthly, emergency)
    ensures PlannedOutputs(config, vaults, controllers, monthly, emergency)
            == Some(RolloverOutputs(if count > 0 then Some(chain) else None, remainder, config.Vault(), config.Controller(), emergency > 0))
  {
    hide RolloverOutputs, SelectedCount, ChainTotal, PlannedRemainder, UtxoSum;
  }

  lemma {:induction false} RolloverOf(config: VaultConfig, batch: Batch)
    requires ValidBatch(config, batch)
    ensures var m := batch.manifest;
            m.rollover.file in batch.files && GraphOf(config, batch).rollover == batch.files[m.rollover.file].tx
  {
    BatchParts(config, batch);
    hide ValidBatch;
  }

  /** A renewal's rollover is the earlier trigger exactly when the collision condition holds. */
  lemma {:induction false} CollisionIsExact(config: VaultConfig, earlier: Batch, vaults: seq<Utxo>, controllers: seq<Utxo>,
                                            monthly: U64, emergency: U64, firstAddress: nat, renewed: Batch)
    requires ValidBatch(config, earlier) && earlier.manifest.emergency.Some? && ValidBatch(config, renewed)
    requires ProposalFor(config, vaults, controllers, monthly, emergency, firstAddress, renewed)
    requires ReportsOutputs(vaults) && ReportsOutputs(controllers)
    ensures var g := GraphOf(config, earlier);
            && g.emergency.Some?
            && (GraphOf(config, renewed).rollover == g.emergency.value.0 <==> Collides(g, vaults, controllers, monthly, emergency))
  {
    var g, e := GraphOf(config, earlier), earlier.manifest.emergency.value;
    EarlierTrigger(config, earlier);
    RenewedRollover(config, vaults, controllers, monthly, emergency, firstAddress, renewed);
    if |vaults| == 1 && |controllers| == 1 && vaults[0].outpoint == g.Remainder() && controllers[0].outpoint == g.TriggerConnector() {
      ScannedPair(config, earlier, vaults, controllers);
    }
    hide ValidBatch, ProposalFor, PlannedOutputs, GraphOf, Collides, ReportsOutputs, RolloverInputs, RolloverOutputs, TriggerTemplate,
         UtxoSum;
    PlanMatchesTrigger(config, g, vaults, controllers, monthly, emergency, e.stagingValue, e.changeValue);
  }

  // The planned rollover beside a given trigger.
  lemma {:induction false} PlanMatchesTrigger(config: VaultConfig, g: Graph, vaults: seq<Utxo>, controllers: seq<Utxo>, monthly: U64,
                                              emergency: U64, staging: U64, change: U64)
    requires |vaults| > 0 && PlannedOutputs(config, vaults, controllers, monthly, emergency).Some? && g.emergency.Some?
    requires g.emergency.value.0 == TriggerTemplate(g.Remainder(), g.TriggerConnector(), staging, change, config.Vault(), config.Controller())
    requires |vaults| == 1 && |controllers| == 1 && vaults[0].outpoint == g.Remainder() && controllers[0].outpoint == g.TriggerConnector() ==>
               UtxoSum(vaults) + UtxoSum(controllers) == staging + change + CONTINUING_FEE + CONNECTOR_VALUE_SATS
    ensures Tx(2, 0, RolloverInputs(vaults, controllers), PlannedOutputs(config, vaults, controllers, monthly, emergency).value)
            == g.emergency.value.0
       <==> Collides(g, vaults, controllers, monthly, emergency)
  {
    var total: U64 := UtxoSum(vaults) + UtxoSum(controllers);
    var count := SelectedCount(|vaults|, |controllers|, total, monthly, emergency);
    var chain: U64 := if count > 0 then ChainTotal(count, monthly) else 0;
    var remainder: U64 := PlannedRemainder(|vaults|, |controllers|, total, monthly, emergency);
    assert g.emergency.value.0.outputs[0].value == staging && |g.emergency.value.0.outputs| == 3;
    hide RolloverInputs, RolloverOutputs, SelectedCount, ChainTotal, TriggerTemplate, PlannedRemainder, UtxoSum;
    TriggerShaped(vaults, controllers, if count > 0 then Some(chain) else None, remainder, config.Vault(), config.Controller(),
                  emergency > 0, g.Remainder(), g.TriggerConnector(), staging, change);
    if |vaults| == 1 && |controllers| == 1 && vaults[0].outpoint == g.Remainder() && controllers[0].outpoint == g.TriggerConnector() {
      PlannedChange(total, monthly, staging, change, staging + change + CONTINUING_FEE);
    }
  }

  // The scanned pair holds the earlier remainder and one connector.
  lemma {:induction false} ScannedPair(config: VaultConfig, earlier: Batch, vaults: seq<Utxo>, controllers: seq<Utxo>)
    requires ValidBatch(config, earlier) && earlier.manifest.emergency.Some?
    requires ReportsOutputs(vaults) && ReportsOutputs(controllers) && |vaults| == 1 && |controllers| == 1
    requires vaults[0].outpoint == GraphOf(config, earlier).Remainder()
    requires controllers[0].outpoint == GraphOf(config, earlier).TriggerConnector()
    ensures UtxoSum(vaults) == earlier.manifest.remainderValue && UtxoSum(controllers) == CONNECTOR_VALUE_SATS
  {
    EarlierTrigger(config, earlier);
    hide ValidBatch;
    assert vaults[1..] == [] && controllers[1..] == [];
  }

  lemma {:induction false} PlannedChange(total: U64, monthly: U64, staging: U64, change: U64, remainder: nat)
    requires total == remainder + CONNECTOR_VALUE_SATS && remainder == staging + change + CONTINUING_FEE
    ensures var count := SelectedCount(1, 1, total, monthly, 0);
            count > 0 && ChainTotal(count, monthly) == staging ==> PlannedRemainder(1, 1, total, monthly, 0) == change
  {
    assert P2trVsize(1, 1, 3) == CONTINUING_FEE;
    hide SelectedCount, ChainTotal;
  }

  // ----- When the new rollover is the old one -----

  /** The renewal would rebuild the earlier rollover itself: the same inputs, split the same way. */
  predicate Repeats(config: VaultConfig, g: Graph, vaults: seq<Utxo>, controllers: seq<Utxo>, monthly: U64, emergency: U64) {
    && g.rollover.inputs == RolloverInputs(vaults, controllers)
    && PlannedOutputs(config, vaults, controllers, monthly, emergency) == Some(g.rollover.outputs)
  }

  /** A renewal's rollover is the earlier one exactly when it repeats it. */
  lemma {:induction false} RepetitionIsExact(config: VaultConfig, earlier: Batch, vaults: seq<Utxo>, controllers: seq<Utxo>,
                                             monthly: U64, emergency: U64, firstAddress: nat, renewed: Batch)
    requires ValidBatch(config, earlier) && ValidBatch(config, renewed)
    requires ProposalFor(config, vaults, controllers, monthly, emergency, firstAddress, renewed)
    ensures GraphOf(config, renewed).rollover == GraphOf(config, earlier).rollover
       <==> Repeats(config, GraphOf(config, earlier), vaults, controllers, monthly, emergency)
  {
    RolloverHeader(config, earlier);
    RenewedRollover(config, vaults, controllers, monthly, emergency, firstAddress, renewed);
    hide ValidBatch, ProposalFor, RolloverInputs, PlannedOutputs, GraphOf;
  }

  lemma {:induction false} RolloverHeader(config: VaultConfig, batch: Batch)
    requires ValidBatch(config, batch)
    ensures GraphOf(config, batch).rollover.version == 2 && GraphOf(config, batch).rollover.lockTime == 0
  {
    BatchParts(config, batch);
    hide ValidBatch, ValidStep, ValidEmergency, ManifestTransactions, ValidHeader, ValidRolloverInputs, ValidRolloverOutputs;
  }

  // ----- When a renewal retires the batch before it -----

  /** An accepted renewal, built from the exact scan of the ledger `s`, of an accepted earlier batch. */
  ghost predicate Renews(config: VaultConfig, earlier: Batch, s: State, vaults: seq<Utxo>, controllers: seq<Utxo>, monthly: U64,
                         emergency: U64, firstAddress: nat, renewed: Batch)
  {
    && ValidBatch(config, earlier) && ValidBatch(config, renewed)
    && ProposalFor(config, vaults, controllers, monthly, emergency, firstAddress, renewed)
    && ExactScan(config, s, vaults, controllers)
  }

  /** The rollover has confirmed, or one of the policy outputs that it is to spend exists. */
  ghost predicate Funded(g: Graph, s: State) {
    || g.rollover in s.confirmed
    || exists o :: o in Prevouts(g.rollover) && Created(s, o)
                   && (o in s.coins ==> s.coins[o].out.script in {g.vault, g.controller})
  }

  /** From ledger m on, nothing of the batch confirms that had not confirmed by ledger n. */
  ghost predicate Retired(g: Graph, states: seq<State>, n: nat, m: nat)
    requires n < |states|
  {
    forall q, tx :: m <= q < |states| && tx in g.Transactions() && tx !in states[n].confirmed ==> tx !in states[q].confirmed
  }

  lemma {:induction false} NotOfTheBatch(config: VaultConfig, earlier: Batch, s: State, vaults: seq<Utxo>, controllers: seq<Utxo>,
                                         monthly: U64, emergency: U64, firstAddress: nat, renewed: Batch)
    requires Renews(config, earlier, s, vaults, controllers, monthly, emergency, firstAddress, renewed) && Consistent(s)
    ensures var g := GraphOf(config, earlier);
            && (GraphOf(config, renewed).rollover in g.Transactions() <==>
                Collides(g, vaults, controllers, monthly, emergency) || Repeats(config, g, vaults, controllers, monthly, emergency))
    ensures GraphOf(config, renewed).rollover !in s.confirmed
    ensures SpendsAllLive(GraphOf(config, earlier), s, GraphOf(config, renewed).rollover)
  {
    var g, next := GraphOf(config, earlier), GraphOf(config, renewed).rollover;
    GraphIsWellFormed(config, earlier);
    RenewedInputs(config, vaults, controllers, monthly, emergency, firstAddress, renewed);
    ScanSpendsAll(config, s, vaults, controllers, g, next);
    LiveInputsAreNew(s, vaults, controllers, next);
    LiveIsReported(s, vaults);
    LiveIsReported(s, controllers);
    EmergencyBoth(config, earlier);
    assert next.inputs[0].sequence == SEQUENCE_MAX;
    hide ValidBatch, ProposalFor, Consistent, ListsLive, Collides, Repeats, RolloverInputs, WellFormed, SpendsAllLive;
    RepetitionIsExact(config, earlier, vaults, controllers, monthly, emergency, firstAddress, renewed);
    if earlier.manifest.emergency.Some? {
      CollisionIsExact(config, earlier, vaults, controllers, monthly, emergency, firstAddress, renewed);
    } else {
      NoCollision(g, vaults, controllers, monthly, emergency);
    }
    if next != g.rollover && (g.emergency.Some? ==> next != g.emergency.value.0) {
      RolloverIsNotDelayed(g, next);
    }
  }

  lemma {:induction false} NoCollision(g: Graph, vaults: seq<Utxo>, controllers: seq<Utxo>, monthly: U64, emergency: U64)
    requires g.emergency.None?
    ensures !Collides(g, vaults, controllers, monthly, emergency)
  {
  }

  lemma {:induction false} EmergencyBoth(config: VaultConfig, earlier: Batch)
    requires ValidBatch(config, earlier)
    ensures GraphOf(config, earlier).emergency.Some? <==> earlier.manifest.emergency.Some?
  {
    hide ValidBatch;
  }

  /** Once the renewal's rollover confirms, the earlier batch is retired, unless that rollover is one
      of the earlier batch's own transactions; and those two cases are known before the renewal is
      built. The outstanding transaction that confirms in those cases is the renewal's rollover itself.
      What else survives a collision is exactly the old withdrawal: `Collision.CollisionRetiresTheRest`
      and `Collision.CollisionFreesWithdrawal`. */
  lemma {:induction false} RenewalRetiresBatch(config: VaultConfig, earlier: Batch, vaults: seq<Utxo>, controllers: seq<Utxo>,
                                               monthly: U64, emergency: U64, firstAddress: nat, renewed: Batch, rules: Rules,
                                               states: seq<State>, events: seq<Event>, n: nat, m: nat)
    requires Run(rules, states, events) && n <= m < |states|
    requires Renews(config, earlier, states[n], vaults, controllers, monthly, emergency, firstAddress, renewed)
    requires Funded(GraphOf(config, earlier), states[n]) && GraphOf(config, renewed).rollover in states[m].confirmed
    ensures var g := GraphOf(config, earlier);
            && (Retired(g, states, n, m) <==>
                !Collides(g, vaults, controllers, monthly, emergency) && !Repeats(config, g, vaults, controllers, monthly, emergency))
  {
    var g, next := GraphOf(config, earlier), GraphOf(config, renewed).rollover;
    RunIsConsistent(rules, states, events, n);
    NotOfTheBatch(config, earlier, states[n], vaults, controllers, monthly, emergency, firstAddress, renewed);
    GraphIsWellFormed(config, earlier);
    hide ValidBatch, ProposalFor, Collides, Repeats, Run, Consistent, WellFormed, SpendsAllLive, ExactScan;
    if next !in g.Transactions() {
      var funding :| g.rollover in states[n].confirmed
                     || (&& funding in Prevouts(g.rollover) && Created(states[n], funding)
                         && (funding in states[n].coins ==> states[n].coins[funding].out.script in {g.vault, g.controller}));
      forall q, tx | m <= q < |states| && tx in g.Transactions() && tx !in states[n].confirmed
        ensures tx !in states[q].confirmed
      {
        SupersededForever(rules, states, events, n, m, q, g, next, tx, funding);
      }
    }
  }

  /** A confirmed rollover is never repeated, and one that has not confirmed never collides. */
  lemma {:induction false} OneCaseEach(config: VaultConfig, earlier: Batch, s: State, vaults: seq<Utxo>, controllers: seq<Utxo>,
                                       monthly: U64, emergency: U64, firstAddress: nat, renewed: Batch)
    requires Renews(config, earlier, s, vaults, controllers, monthly, emergency, firstAddress, renewed) && Consistent(s)
    ensures var g := GraphOf(config, earlier);
            if g.rollover in s.confirmed then !Repeats(config, g, vaults, controllers, monthly, emergency)
            else !Collides(g, vaults, controllers, monthly, emergency)
  {
    var g := GraphOf(config, earlier);
    NotOfTheBatch(config, earlier, s, vaults, controllers, monthly, emergency, firstAddress, renewed);
    RepetitionIsExact(config, earlier, vaults, controllers, monthly, emergency, firstAddress, renewed);
    CreatedByParent(s, g.Remainder());
    hide ValidBatch, ProposalFor, Repeats, Consistent;
  }

  // ----- When the renewal is independent of the batches before it -----

  // The first input's sequence tells the kinds of transactions apart.
  lemma {:induction false} KindsOf(g: Graph, tx: Tx)
    requires WellFormed(g) && |g.rollover.inputs| > 0 && g.rollover.inputs[0].sequence == SEQUENCE_MAX && tx in g.Transactions()
    ensures |tx.inputs| > 0
    ensures tx.inputs[0].sequence == MONTHLY_SEQUENCE <==> exists k: nat :: k < |g.authorizations| && g.authorizations[k] == tx
    ensures tx.inputs[0].sequence == EMERGENCY_SEQUENCE <==> g.emergency.Some? && g.emergency.value.1 == tx
    ensures tx.inputs[0].sequence == SEQUENCE_MAX <==> tx == g.rollover || (g.emergency.Some? && g.emergency.value.0 == tx)
  {
    StepSequences(g);
    if g.emergency.Some? {
      var (trigger, withdrawal) := g.emergency.value;
      assert trigger.inputs[0] == TxIn(g.Remainder(), SEQUENCE_MAX) && withdrawal.inputs[0] == TxIn(g.Staging(), EMERGENCY_SEQUENCE);
    }
    hide WellFormed;
  }

  lemma {:induction false} StepSequences(g: Graph)
    requires WellFormed(g)
    ensures forall k: nat :: k < |g.authorizations| ==>
              |g.authorizations[k].inputs| > 0 && g.authorizations[k].inputs[0] == TxIn(g.ChainOutput(k), MONTHLY_SEQUENCE)
  {
    forall k: nat | k < |g.authorizations|
      ensures |g.authorizations[k].inputs| > 0 && g.authorizations[k].inputs[0] == TxIn(g.ChainOutput(k), MONTHLY_SEQUENCE)
    {
      assert WellFormedStep(g, k);
    }
  }

  /** None of a batch's transactions has confirmed. */
  ghost predicate Unconfirmed(g: Graph, s: State) {
    forall tx :: tx in g.Transactions() ==> tx !in s.confirmed
  }

  lemma {:induction false} UnconfirmedFromRollover(g: Graph, s: State)
    requires WellFormed(g) && Consistent(s) && g.rollover !in s.confirmed
    ensures Unconfirmed(g, s)
  {
    forall tx | tx in g.Transactions()
      ensures tx !in s.confirmed
    {
      if k :| 0 <= k < |g.authorizations| && g.authorizations[k] == tx {
        if tx in s.confirmed {
          ChainOrder(g, s, k);
        }
      } else if tx != g.rollover {
        WithdrawalOrder(g, s);
      }
    }
    hide WellFormed, Consistent;
  }

  /** Every output that the rollover spends existed: it has confirmed, or it was built from a scan. */
  ghost predicate BuiltBy(g: Graph, s: State) {
    |g.rollover.inputs| > 0 && forall o :: o in Prevouts(g.rollover) ==> Created(s, o)
  }

  lemma {:induction false} ConfirmedIsBuilt(g: Graph, s: State)
    requires Consistent(s) && g.rollover in s.confirmed
    ensures BuiltBy(g, s)
  {
    forall o | o in Prevouts(g.rollover)
      ensures Created(s, o)
    {
      SpenderOf(s, g.rollover, o);
    }
  }

  /** An earlier batch, and one with another rollover of which nothing has confirmed. */
  ghost predicate Fresh(g: Graph, r: Graph, s: State) {
    && WellFormed(g) && WellFormed(r) && Consistent(s) && Unconfirmed(r, s) && BuiltBy(g, s) && g.rollover != r.rollover
    && |r.rollover.inputs| > 0 && r.rollover.inputs[0].sequence == SEQUENCE_MAX
  }

  // No output of the new batch exists yet.
  lemma {:induction false} NothingNewExists(r: Graph, s: State, o: OutPoint)
    requires Consistent(s) && Unconfirmed(r, s) && o.txid.TxidOf? && o.txid.tx in r.Transactions()
    ensures !Created(s, o)
  {
    CreatedByParent(s, o);
    hide Consistent;
  }

  lemma {:induction false} RolloverIsForeign(g: Graph, r: Graph, s: State)
    requires Fresh(g, r, s)
    ensures g.rollover !in r.Transactions()
  {
    var o := g.rollover.inputs[0].prevout;
    assert o in Prevouts(g.rollover);
    if i: nat :| i < |r.authorizations| && r.authorizations[i] == g.rollover {
      StepSequences(r);
      ParentMember(r, i);
      NothingNewExists(r, s, r.ChainOutput(i));
    }
    if r.emergency.Some? {
      var (trigger, withdrawal) := r.emergency.value;
      assert trigger.inputs[0] == TxIn(r.Remainder(), SEQUENCE_MAX) && withdrawal.inputs[0] == TxIn(r.Staging(), EMERGENCY_SEQUENCE);
      NothingNewExists(r, s, r.Remainder());
      NothingNewExists(r, s, r.Staging());
    }
    hide WellFormed, Consistent, Unconfirmed;
  }

  lemma {:induction false} ParentMember(g: Graph, k: nat)
    requires k <= |g.authorizations|
    ensures g.Parent(k) in g.Transactions()
  {
    if k > 0 {
      assert g.Parent(k) == g.authorizations[k - 1];
    }
  }

  lemma {:induction false} SharedParent(g: Graph, r: Graph, k: nat, i: nat)
    requires WellFormed(g) && WellFormed(r) && k < |g.authorizations| && i < |r.authorizations|
    requires g.authorizations[k] == r.authorizations[i]
    ensures g.Parent(k) == r.Parent(i)
  {
    StepSequences(g);
    StepSequences(r);
    hide WellFormed;
    assert g.ChainOutput(k) == r.ChainOutput(i);
  }

  lemma {:induction false} NoSharedStep(g: Graph, r: Graph, s: State, k: nat)
    requires Fresh(g, r, s) && k <= |g.authorizations|
    ensures g.Parent(k) !in r.Transactions()
  {
    hide WellFormed, Unconfirmed, Consistent, BuiltBy;
    RolloverIsForeign(g, r, s);
    if k > 0 {
      NoSharedStep(g, r, s, k - 1);
      StepSequences(g);
      if g.authorizations[k - 1] in r.Transactions() {
        KindsOf(r, g.authorizations[k - 1]);
        var i: nat :| i < |r.authorizations| && r.authorizations[i] == g.authorizations[k - 1];
        SharedParent(g, r, k - 1, i);
        ParentMember(r, i);
      }
    }
  }

  lemma {:induction false} SharedTrigger(g: Graph, r: Graph, s: State)
    requires Fresh(g, r, s) && g.emergency.Some? && g.emergency.value.0 in r.Transactions()
    ensures g.emergency.value.0 == r.rollover
  {
    var trigger := g.emergency.value.0;
    assert trigger.inputs[0] == TxIn(g.Remainder(), SEQUENCE_MAX);
    assert r.emergency.Some? ==> r.emergency.value.0.inputs[0] == TxIn(r.Remainder(), SEQUENCE_MAX);
    KindsOf(r, trigger);
  }

  // What an earlier transaction spends was not made by the new batch, the old withdrawal apart.
  lemma {:induction false} SpendsNothingNew(g: Graph, r: Graph, s: State, tx: Tx, o: OutPoint)
    requires Fresh(g, r, s) && tx in g.Transactions() && o in Prevouts(tx)
    requires o.txid.TxidOf? && o.txid.tx in r.Transactions()
    ensures g.emergency.Some? && tx == g.emergency.value.1 && g.emergency.value.0 == r.rollover
  {
    RolloverIsForeign(g, r, s);
    NothingNewExists(r, s, o);
    if tx == g.rollover {
    } else if k :| 0 <= k < |g.authorizations| && g.authorizations[k] == tx {
      AuthorizationInputs(g, k);
      NoSharedStep(g, r, s, k);
    } else {
      EmergencyInputs(g);
      if o.txid.tx == g.emergency.value.0 {
        SharedTrigger(g, r, s);
      }
    }
    hide Consistent, WellFormed;
  }

  lemma {:induction false} WithdrawalIsForeign(g: Graph, r: Graph)
    requires WellFormed(g) && WellFormed(r) && g.emergency.Some? && r.emergency.None?
    requires |r.rollover.inputs| > 0 && r.rollover.inputs[0].sequence == SEQUENCE_MAX
    ensures g.emergency.value.1 !in r.Transactions() && g.Staging() in Prevouts(g.emergency.value.1)
  {
    var withdrawal := g.emergency.value.1;
    assert withdrawal.inputs[0] == TxIn(g.Staging(), EMERGENCY_SEQUENCE);
    if withdrawal in r.Transactions() {
      KindsOf(r, withdrawal);
    }
    hide WellFormed;
  }

  /** What both keys have signed: the new batch and every batch before it. */
  ghost predicate SignedSoFar(config: VaultConfig, earlier: seq<Batch>, renewed: Batch, rules: Rules)
    requires ValidBatch(config, renewed) && forall i :: 0 <= i < |earlier| ==> ValidBatch(config, earlier[i])
  {
    && rules.vault == config.Vault()
    && forall tx :: tx in rules.cosigned <==>
         tx in GraphOf(config, renewed).Transactions()
         || exists i :: 0 <= i < |earlier| && tx in GraphOf(config, earlier[i]).Transactions()
  }

  /** The renewal is the earlier trigger, or it repeats the earlier rollover under other transactions. */
  ghost predicate Clashes(config: VaultConfig, g: Graph, r: Graph, vaults: seq<Utxo>, controllers: seq<Utxo>, monthly: U64, emergency: U64) {
    || Collides(g, vaults, controllers, monthly, emergency)
    || (Repeats(config, g, vaults, controllers, monthly, emergency) && !(g.Transactions() <= r.Transactions()))
  }

  /** Any number of earlier batches, confirmed or not, leave a renewal independent exactly when it clashes
      with none of them. */
  lemma {:induction false} IndependenceIsExact(config: VaultConfig, earlier: seq<Batch>, s: State, vaults: seq<Utxo>,
                                               controllers: seq<Utxo>, monthly: U64, emergency: U64, firstAddress: nat,
                                               renewed: Batch, rules: Rules)
    requires Consistent(s) && ValidBatch(config, renewed)
    requires ProposalFor(config, vaults, controllers, monthly, emergency, firstAddress, renewed) && ExactScan(config, s, vaults, controllers)
    requires forall i :: 0 <= i < |earlier| ==> ValidBatch(config, earlier[i]) && BuiltBy(GraphOf(config, earlier[i]), s)
    requires SignedSoFar(config, earlier, renewed, rules)
    ensures var r := GraphOf(config, renewed);
            && (Independent(rules, r) <==>
                forall i :: 0 <= i < |earlier| ==>
                  !Clashes(config, GraphOf(config, earlier[i]), r, vaults, controllers, monthly, emergency))
  {
    var r := GraphOf(config, renewed);
    LiveIsReported(s, vaults);
    LiveIsReported(s, controllers);
    VaultOf(config, renewed);
    hide ValidBatch, ProposalFor, Clashes, ExactScan, ListsLive, Consistent, WellFormed, GraphOf, RolloverInputs, ReportsOutputs, BuiltBy;
    forall i | 0 <= i < |earlier|
      ensures Clashes(config, GraphOf(config, earlier[i]), r, vaults, controllers, monthly, emergency) ==> !Independent(rules, r)
    {
      if Clashes(config, GraphOf(config, earlier[i]), r, vaults, controllers, monthly, emergency) {
        ClashIsDependent(config, earlier[i], vaults, controllers, monthly, emergency, firstAddress, renewed, rules);
      }
    }
    forall tx, o | tx in rules.cosigned && o in Prevouts(tx) && o.txid.TxidOf? && o.txid.tx in r.Transactions() && tx !in r.Transactions()
      ensures exists i :: 0 <= i < |earlier| && Clashes(config, GraphOf(config, earlier[i]), r, vaults, controllers, monthly, emergency)
    {
      var i :| 0 <= i < |earlier| && tx in GraphOf(config, earlier[i]).Transactions();
      DependenceClashes(config, earlier[i], s, vaults, controllers, monthly, emergency, firstAddress, renewed, tx, o);
    }
  }

  lemma {:induction false} DependenceClashes(config: VaultConfig, earlier: Batch, s: State, vaults: seq<Utxo>, controllers: seq<Utxo>,
                                             monthly: U64, emergency: U64, firstAddress: nat, renewed: Batch, tx: Tx, o: OutPoint)
    requires Consistent(s) && ValidBatch(config, renewed) && ValidBatch(config, earlier) && BuiltBy(GraphOf(config, earlier), s)
    requires ProposalFor(config, vaults, controllers, monthly, emergency, firstAddress, renewed) && ExactScan(config, s, vaults, controllers)
    requires ReportsOutputs(vaults) && ReportsOutputs(controllers)
    requires tx in GraphOf(config, earlier).Transactions() && tx !in GraphOf(config, renewed).Transactions()
    requires o in Prevouts(tx) && o.txid.TxidOf? && o.txid.tx in GraphOf(config, renewed).Transactions()
    ensures Clashes(config, GraphOf(config, earlier), GraphOf(config, renewed), vaults, controllers, monthly, emergency)
  {
    var g, r := GraphOf(config, earlier), GraphOf(config, renewed);
    GraphIsWellFormed(config, earlier);
    GraphIsWellFormed(config, renewed);
    RenewedInputs(config, vaults, controllers, monthly, emergency, firstAddress, renewed);
    LiveInputsAreNew(s, vaults, controllers, r.rollover);
    UnconfirmedFromRollover(r, s);
    assert r.rollover.inputs[0].sequence == SEQUENCE_MAX;
    RepetitionIsExact(config, earlier, vaults, controllers, monthly, emergency, firstAddress, renewed);
    hide ValidBatch, ProposalFor, Collides, Repeats, ExactScan, ListsLive, Consistent, WellFormed, GraphOf, RolloverInputs, ReportsOutputs,
         BuiltBy, Unconfirmed;
    if g.rollover != r.rollover {
      SpendsNothingNew(g, r, s, tx, o);
      EmergencyBoth(config, earlier);
      CollisionIsExact(config, earlier, vaults, controllers, monthly, emergency, firstAddress, renewed);
    }
  }

  lemma {:induction false} ClashIsDependent(config: VaultConfig, earlier: Batch, vaults: seq<Utxo>, controllers: seq<Utxo>,
                                            monthly: U64, emergency: U64, firstAddress: nat, renewed: Batch, rules: Rules)
    requires ValidBatch(config, earlier) && ValidBatch(config, renewed)
    requires ProposalFor(config, vaults, controllers, monthly, emergency, firstAddress, renewed)
    requires ReportsOutputs(vaults) && ReportsOutputs(controllers)
    requires Clashes(config, GraphOf(config, earlier), GraphOf(config, renewed), vaults, controllers, monthly, emergency)
    requires GraphOf(config, earlier).Transactions() <= rules.cosigned
    ensures !Independent(rules, GraphOf(config, renewed))
  {
    hide ValidBatch, ProposalFor, Collides, Repeats, GraphOf, ReportsOutputs, Independent;
    if Collides(GraphOf(config, earlier), vaults, controllers, monthly, emergency) {
      CollisionIsDependent(config, earlier, vaults, controllers, monthly, emergency, firstAddress, renewed, rules);
    } else {
      GraphIsWellFormed(config, earlier);
      RepetitionIsExact(config, earlier, vaults, controllers, monthly, emergency, firstAddress, renewed);
      RepetitionIsDependent(GraphOf(config, earlier), GraphOf(config, renewed), rules);
    }
  }

  // Of two batches on one rollover, the first transaction that they do not share spends a shared one.
  lemma {:induction false} RepetitionIsDependent(g: Graph, r: Graph, rules: Rules)
    requires WellFormed(g) && g.rollover == r.rollover && g.Transactions() <= rules.cosigned && !(g.Transactions() <= r.Transactions())
    ensures !Independent(rules, r)
  {
    var tx :| tx in g.Transactions() && tx !in r.Transactions();
    if k: nat :| k < |g.authorizations| && g.authorizations[k] == tx {
      var j := FirstStray(g, r, k);
      AuthorizationInputs(g, j);
      assert g.authorizations[j] in rules.cosigned && g.ChainOutput(j) in Prevouts(g.authorizations[j]);
    } else {
      EmergencyInputs(g);
      var (trigger, withdrawal) := g.emergency.value;
      assert g.Remainder() in Prevouts(trigger) && g.Staging() in Prevouts(withdrawal);
      assert trigger in rules.cosigned && withdrawal in rules.cosigned;
    }
    hide WellFormed;
  }

  lemma {:induction false} FirstStray(g: Graph, r: Graph, k: nat) returns (j: nat)
    requires g.rollover == r.rollover && k < |g.authorizations| && g.authorizations[k] !in r.Transactions()
    ensures j <= k && g.authorizations[j] !in r.Transactions() && g.Parent(j) in r.Transactions()
  {
    if k == 0 || g.authorizations[k - 1] in r.Transactions() {
      j := k;
    } else {
      j := FirstStray(g, r, k - 1);
    }
  }

  /** So a renewal that clashes with none of them is bounded in full: within T seconds of its rollover,
      at most one monthly limit for each 2,592,256 s, and one emergency amount, leaves the vault outputs
      that descend from it, by whatever transactions. */
  lemma {:induction false} RenewalIsBounded(config: VaultConfig, earlier: seq<Batch>, vaults: seq<Utxo>, controllers: seq<Utxo>,
                                            monthly: U64, emergency: U64, firstAddress: nat, renewed: Batch, rules: Rules,
                                            states: seq<State>, events: seq<Event>, n: nat, m: nat, T: nat, txs: seq<Tx>)
    requires Run(rules, states, events) && n < |states| && m < |states| && ValidBatch(config, renewed)
    requires ProposalFor(config, vaults, controllers, monthly, emergency, firstAddress, renewed)
    requires ExactScan(config, states[n], vaults, controllers)
    requires forall i :: 0 <= i < |earlier| ==>
               && ValidBatch(config, earlier[i]) && BuiltBy(GraphOf(config, earlier[i]), states[n])
               && !Clashes(config, GraphOf(config, earlier[i]), GraphOf(config, renewed), vaults, controllers, monthly, emergency)
    requires SignedSoFar(config, earlier, renewed, rules)
    requires GraphOf(config, renewed).rollover in states[m].confirmed && AllDistinct(txs)
    requires forall tx :: tx in txs ==> tx in states[m].confirmed && Descends(GraphOf(config, renewed), tx)
    ensures var r := GraphOf(config, renewed);
            var time := states[m].confirmed[r.rollover] + T;
            OutflowOf(r, states[m], time, txs)
            <= (T / 2_592_256) * monthly + (if EmergencyPaid(r, states[m], time) then emergency else 0)
  {
    hide *;
    RunIsConsistent(rules, states, events, n);
    GraphIsWellFormed(config, renewed);
    RenewedLimit(config, vaults, controllers, monthly, emergency, firstAddress, renewed);
    IndependenceIsExact(config, earlier, states[n], vaults, controllers, monthly, emergency, firstAddress, renewed, rules);
    DescendantsAreBounded(rules, states, events, m, GraphOf(config, renewed), T, txs);
  }

  /** Two proposals from one scan and one pair of limits clash once they differ in their addresses. */
  lemma {:induction false} RepeatedProposalClashes(config: VaultConfig, vaults: seq<Utxo>, controllers: seq<Utxo>, monthly: U64,
                                                   emergency: U64, first: nat, second: nat, a: Batch, b: Batch)
    requires ValidBatch(config, a) && ProposalFor(config, vaults, controllers, monthly, emergency, first, a)
    requires ValidBatch(config, b) && ProposalFor(config, vaults, controllers, monthly, emergency, second, b)
    requires first != second && a.manifest.allowanceCount > 0
    ensures Clashes(config, GraphOf(config, a), GraphOf(config, b), vaults, controllers, monthly, emergency)
  {
    var g, r := GraphOf(config, a), GraphOf(config, b);
    GraphIsWellFormed(config, a);
    GraphIsWellFormed(config, b);
    SameScanSameRollover(config, vaults, controllers, monthly, emergency, first, second, a, b);
    RolloverOf(config, a);
    RolloverOf(config, b);
    RepetitionIsExact(config, a, vaults, controllers, monthly, emergency, second, b);
    RenewedInputs(config, vaults, controllers, monthly, emergency, second, b);
    FirstStepsDiffer(config, vaults, controllers, monthly, emergency, first, second, a, b);
    assert r.rollover.inputs[0].sequence == SEQUENCE_MAX;
    hide ValidBatch, ProposalFor, GraphOf, Collides, Repeats, RolloverInputs;
    assert g.authorizations[0] in g.Transactions();
    if g.authorizations[0] in r.Transactions() {
      SharedFirstStep(g, r);
    }
  }

  lemma {:induction false} FirstStepsDiffer(config: VaultConfig, vaults: seq<Utxo>, controllers: seq<Utxo>, monthly: U64, emergency: U64,
                                            first: nat, second: nat, a: Batch, b: Batch)
    requires ValidBatch(config, a) && ProposalFor(config, vaults, controllers, monthly, emergency, first, a)
    requires ValidBatch(config, b) && ProposalFor(config, vaults, controllers, monthly, emergency, second, b)
    requires first != second && a.manifest.allowanceCount > 0
    ensures |GraphOf(config, a).authorizations| > 0 && |GraphOf(config, b).authorizations| > 0
    ensures GraphOf(config, a).authorizations[0] != GraphOf(config, b).authorizations[0]
  {
    SameScanSameRollover(config, vaults, controllers, monthly, emergency, first, second, a, b);
    DifferentAddressesDiffer(config, vaults, controllers, monthly, emergency, first, second, a, b, 0);
    hide ValidBatch, ProposalFor;
  }

  // With one rollover, a shared first step is the first step of both.
  lemma {:induction false} SharedFirstStep(g: Graph, r: Graph)
    requires WellFormed(g) && WellFormed(r) && g.rollover == r.rollover && |g.authorizations| > 0
    requires |r.rollover.inputs| > 0 && r.rollover.inputs[0].sequence == SEQUENCE_MAX && g.authorizations[0] in r.Transactions()
    ensures |r.authorizations| > 0 && g.authorizations[0] == r.authorizations[0]
  {
    StepSequences(g);
    KindsOf(r, g.authorizations[0]);
    var i: nat :| i < |r.authorizations| && r.authorizations[i] == g.authorizations[0];
    SharedParent(g, r, 0, i);
    AuthorizationDepth(r, i);
    hide WellFormed;
  }

  lemma {:induction false} VaultOf(config: VaultConfig, batch: Batch)
    requires ValidBatch(config, batch)
    ensures GraphOf(config, batch).vault == config.Vault()
  {
    hide ValidBatch;
  }

  lemma {:induction false} CollisionIsDependent(config: VaultConfig, earlier: Batch, vaults: seq<Utxo>, controllers: seq<Utxo>,
                                                monthly: U64, emergency: U64, firstAddress: nat, renewed: Batch, rules: Rules)
    requires ValidBatch(config, earlier) && ValidBatch(config, renewed)
    requires ProposalFor(config, vaults, controllers, monthly, emergency, firstAddress, renewed)
    requires ReportsOutputs(vaults) && ReportsOutputs(controllers)
    requires Collides(GraphOf(config, earlier), vaults, controllers, monthly, emergency)
    requires GraphOf(config, earlier).Transactions() <= rules.cosigned
    ensures !Independent(rules, GraphOf(config, renewed))
  {
    var g, r := GraphOf(config, earlier), GraphOf(config, renewed);
    GraphIsWellFormed(config, earlier);
    GraphIsWellFormed(config, renewed);
    EmergencyBoth(config, earlier);
    CollisionIsExact(config, earlier, vaults, controllers, monthly, emergency, firstAddress, renewed);
    RenewedInputs(config, vaults, controllers, monthly, emergency, firstAddress, renewed);
    RenewedLimit(config, vaults, controllers, monthly, emergency, firstAddress, renewed);
    assert r.rollover.inputs[0].sequence == SEQUENCE_MAX;
    hide ValidBatch, ProposalFor, WellFormed, GraphOf, RolloverInputs, ReportsOutputs, SelectedCount, ChainTotal, UtxoSum;
    WithdrawalIsForeign(g, r);
    assert g.emergency.value.1 in g.Transactions() && r.rollover in r.Transactions();
  }

  lemma {:induction false} RenewedLimit(config: VaultConfig, vaults: seq<Utxo>, controllers: seq<Utxo>, monthly: U64, emergency: U64,
                                        firstAddress: nat, renewed: Batch)
    requires ProposalFor(config, vaults, controllers, monthly, emergency, firstAddress, renewed)
    ensures renewed.manifest.emergencyLimit == emergency && renewed.manifest.monthlyLimit == monthly
  {
    hide PhoneSigned, RolloverShape, AddressesReplay, SelectedCount, ChainTotal, UtxoSum, IndexRange;
  }
}
