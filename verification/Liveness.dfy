/** What a batch can do, and when: the conditions under which its transactions confirm are exact
    (src/core/ceremony.rs). */
module Liveness {
  import opened Wrappers
  import opened Bitcoin
  import opened Fees
  import Psbts
  import opened Ceremony
  import opened Graph
  import opened Ledger
  import opened Safety
  import opened Conservation

  /** A two-input policy transaction can confirm exactly when both its inputs are live, its delay has run out
      since its first input was made, and both keys have signed it if it takes from the vault. */
  lemma {:induction false} PairConfirmsExactly(rules: Rules, s: State, tx: Tx, source: OutPoint, connector: OutPoint, sequence: U32,
                                               seconds: nat)
    requires Consistent(s) && tx.version == 2 && tx.inputs == PolicyInputs(source, sequence, connector) && source != connector
    requires RelativeSeconds(2, sequence) == seconds && |tx.outputs| <= 3
    requires source in s.coins ==> s.coins[source].out.script == rules.vault
    ensures CanConfirm(rules, s, tx)
       <==> && source in s.coins && connector in s.coins && s.now >= s.coins[source].time + seconds && tx in rules.cosigned
  {
    assert tx.inputs[0] == TxIn(source, sequence) && tx.inputs[1] == TxIn(connector, SEQUENCE_RBF);
    assert source in Prevouts(tx) && connector in Prevouts(tx);
    assert RelativeSeconds(2, SEQUENCE_RBF) == 0;
    assert connector in s.coins ==> s.coins[connector].time <= s.now;
    hide SpentOnce, SpendersConfirmed, OutputsExist, LocksKept;
  }

  /** Authorization k can confirm exactly when its chain output and connector are live and 30 days and
      256 seconds have passed since they were made. */
  lemma {:induction false} AuthorizationConfirmsExactly(rules: Rules, s: State, g: Graph, k: nat)
    requires WellFormed(g) && Consistent(s) && rules.vault == g.vault && k < |g.authorizations|
    ensures CanConfirm(rules, s, g.authorizations[k])
       <==> && g.ChainOutput(k) in s.coins && g.Connector(k) in s.coins
            && s.now >= s.coins[g.ChainOutput(k)].time + 30 * 86_400 + 256
            && g.authorizations[k] in rules.cosigned
  {
    Delays();
    assert WellFormedStep(g, k);
    CreatedByParent(s, g.ChainOutput(k));
    hide WellFormed, Consistent;
    PairConfirmsExactly(rules, s, g.authorizations[k], g.ChainOutput(k), g.Connector(k), MONTHLY_SEQUENCE, 2_592_256);
  }

  /** The trigger can confirm as soon as the remainder and its connector are live; the withdrawal a week and
      384 seconds after the trigger. */
  lemma {:induction false} EmergencyConfirmsExactly(rules: Rules, s: State, g: Graph)
    requires WellFormed(g) && Consistent(s) && rules.vault == g.vault && g.emergency.Some?
    ensures CanConfirm(rules, s, g.emergency.value.0)
       <==> g.Remainder() in s.coins && g.TriggerConnector() in s.coins && g.emergency.value.0 in rules.cosigned
    ensures CanConfirm(rules, s, g.emergency.value.1)
       <==> && g.Staging() in s.coins && g.WithdrawalConnector() in s.coins
            && s.now >= s.coins[g.Staging()].time + 7 * 86_400 + 384
            && g.emergency.value.1 in rules.cosigned
  {
    Delays();
    var (trigger, withdrawal) := g.emergency.value;
    CreatedByParent(s, g.Remainder());
    CreatedByParent(s, g.Staging());
    assert WellFormedEmergency(g);
    assert RelativeSeconds(2, SEQUENCE_MAX) == 0;
    assert g.Remainder() in s.coins ==> s.coins[g.Remainder()].time <= s.now;
    hide WellFormed, Consistent;
    PairConfirmsExactly(rules, s, trigger, g.Remainder(), g.TriggerConnector(), SEQUENCE_MAX, 0);
    PairConfirmsExactly(rules, s, withdrawal, g.Staging(), g.WithdrawalConnector(), EMERGENCY_SEQUENCE, 605_184);
  }

  /** So in every reachable ledger where the batch is independent and its next connector has not been spent,
      the next allowance can be taken once its delay is over. */
  lemma {:induction false} NextAllowanceFlows(rules: Rules, states: seq<State>, events: seq<Event>, n: nat, g: Graph)
    requires Run(rules, states, events) && n < |states| && WellFormed(g) && Independent(rules, g)
    requires g.rollover in states[n].confirmed && g.Transactions() <= rules.cosigned
    ensures var s, k := states[n], Progress(g, states[n], |g.authorizations|);
            k < |g.authorizations| && g.Connector(k) in s.coins ==>
              && g.ChainOutput(k) in s.coins
              && (CanConfirm(rules, s, g.authorizations[k]) <==> s.now >= s.coins[g.ChainOutput(k)].time + 30 * 86_400 + 256)
  {
    var s := states[n];
    var k := Progress(g, s, |g.authorizations|);
    PrincipalStaysInVault(rules, states, events, n, g);
    RunIsConsistent(rules, states, events, n);
    assert Independent(rules, g) ==> rules.vault == g.vault;
    if k < |g.authorizations| {
      assert g.authorizations[k] in g.Transactions();
      hide Run, WellFormed, Consistent, Independent;
      AuthorizationConfirmsExactly(rules, s, g, k);
    }
  }

  // ----- What acceptance alone bounds -----

  /** However long one waits, an accepted batch pays out at most twelve allowances and one emergency amount;
      without a monthly limit it has no allowance at all. */
  lemma {:induction false} LifetimeBound(config: VaultConfig, batch: Batch, s: State, time: int)
    requires ValidBatch(config, batch)
    ensures var g, m := GraphOf(config, batch), batch.manifest;
            && |g.authorizations| <= 12 && (m.monthlyLimit == 0 ==> g.authorizations == []) && (m.emergencyLimit == 0 ==> g.emergency.None?)
            && TotalOutflow(g, s, time) <= 12 * m.monthlyLimit + m.emergencyLimit
  {
    var g, m := GraphOf(config, batch), batch.manifest;
    var n := |g.authorizations|;
    GraphIsWellFormed(config, batch);
    AtMostTwelve(config, batch);
    hide ValidBatch, GraphOf;
    NoOutflow(g, g.rollover.outputs);
    ChainOutflowBound(g, s, time, n);
    ReleasedAtMost(g, s, time, n);
    MulMonotone(Released(g, s, time, n), 12, g.limit);
    if g.emergency.Some? {
      EmergencyOutflow(g);
    }
    hide WellFormed, ChainOutflow, Released, Outflow;
  }

  lemma {:induction false} AtMostTwelve(config: VaultConfig, batch: Batch)
    requires ValidBatch(config, batch)
    ensures |batch.manifest.allowances| <= 12 && (batch.manifest.monthlyLimit == 0 ==> batch.manifest.allowances == [])
  {
    BatchParts(config, batch);
    hide ValidBatch, ValidStep, ValidRollover, ValidEmergency, ManifestTransactions;
  }

  // ----- Dust and fees -----

  lemma {:induction false} StepPays(config: VaultConfig, limit: U64, count: nat, files: Files, rollover: Tx, allowances: seq<AllowanceStep>,
                                    k: nat)
    requires |allowances| == count && k < count && ValidStep(config, limit, count, files, rollover, allowances, k)
    requires ScriptLength(allowances[k].hotAddress.script) == 34
    ensures allowances[k].authorization.file in files && allowances[k].authorization.fee == if k + 1 < count then 331 else 245
    ensures var outputs := files[allowances[k].authorization.file].tx.outputs;
            k + 1 < count ==> |outputs| == 3 && outputs[1].value >= 330
  {
    var a := allowances[k];
    var outputs := files[a.authorization.file].tx.outputs;
    hide ValidChild;
    SingleStepFees(outputs[0], if k + 1 < count then outputs[1] else TxOut(0, config.Vault()), ConnectorOutput(config.Controller()));
    assert k + 1 < count ==> outputs == [outputs[0], outputs[1], ConnectorOutput(config.Controller())];
    assert k + 1 == count ==> outputs == [outputs[0]];
    hide PolicyVsize;
  }

  lemma {:induction false} EmergencyPays(config: VaultConfig, limit: U64, remainderVout: U32, connectorVout: U32, files: Files,
                                         rollover: Tx, e: EmergencyPolicy)
    requires ValidEmergency(config, limit, remainderVout, connectorVout, files, rollover, Some(e))
    ensures e.trigger.fee == 331 && e.changeValue >= 330 && (ScriptLength(e.hotAddress.script) == 34 ==> e.withdrawal.fee == 245)
  {
    hide ValidChild;
    SingleStepFees(TxOut(e.stagingValue, config.Vault()), TxOut(e.changeValue, config.Vault()), ConnectorOutput(config.Controller()));
    if ScriptLength(e.hotAddress.script) == 34 {
      SingleStepFees(TxOut(limit, e.hotAddress.script), TxOut(0, config.Vault()), ConnectorOutput(config.Controller()));
    }
    hide PolicyVsize;
  }

  /** In every accepted batch the remainder, every later chain output and the emergency change are above
      dust, and every transaction after the rollover pays one satoshi per vbyte: 331 while it goes on, 245
      at the end, for Taproot addresses. */
  lemma {:induction false} AcceptedAmounts(config: VaultConfig, batch: Batch)
    requires ValidBatch(config, batch)
    requires forall k :: 0 <= k < |batch.manifest.allowances| ==> ScriptLength(batch.manifest.allowances[k].hotAddress.script) == 34
    ensures var m := batch.manifest;
            && m.remainderValue >= 330
            && (forall k :: 0 <= k < |m.allowances| ==> m.allowances[k].authorization.fee == (if k + 1 < |m.allowances| then 331 else 245))
            && (forall k :: 1 <= k < |m.allowances| ==> m.allowances[k].chainValue >= 330)
            && (m.emergency.Some? ==>
                  && m.emergency.value.trigger.fee == 331 && m.emergency.value.changeValue >= 330
                  && (ScriptLength(m.emergency.value.hotAddress.script) == 34 ==> m.emergency.value.withdrawal.fee == 245))
  {
    var m, files := batch.manifest, batch.files;
    BatchParts(config, batch);
    RemainderIsNotDust(config, m, files[m.rollover.file]);
    hide ValidBatch, ValidStep, ValidRollover, ValidEmergency, ManifestTransactions;
    var rollover := files[m.rollover.file].tx;
    forall k | 0 <= k < |m.allowances|
      ensures m.allowances[k].authorization.fee == (if k + 1 < |m.allowances| then 331 else 245)
      ensures k >= 1 ==> m.allowances[k].chainValue >= 330
    {
      StepPays(config, m.monthlyLimit, m.allowanceCount, files, rollover, m.allowances, k);
      if k > 0 {
        StepPays(config, m.monthlyLimit, m.allowanceCount, files, rollover, m.allowances, k - 1);
        StepShape(config, m.monthlyLimit, m.allowanceCount, files, rollover, m.allowances, k);
      }
    }
    if m.emergency.Some? {
      EmergencyPays(config, m.emergencyLimit, RemainderVout(m), EmergencyVout(m), files, rollover, m.emergency.value);
    }
  }

  lemma {:induction false} RemainderIsNotDust(config: VaultConfig, m: Manifest, p: Psbts.Psbt)
    requires ValidRollover(config, m, p)
    ensures m.remainderValue >= 330
  {
    hide ValidRolloverInputs, PolicyVsize, RolloverOutputs;
  }

  // ----- The files -----

  /** Every input records exactly the output that it names, so a signature commits to the amounts that are
      really spent. */
  predicate RecordsSpent(p: Psbts.Psbt) {
    && |p.inputs| == |p.tx.inputs|
    && forall i :: 0 <= i < |p.inputs| ==>
         var o := p.tx.inputs[i].prevout;
         o.txid.TxidOf? && o.vout < |o.txid.tx.outputs| && p.inputs[i].utxo == Some(o.txid.tx.outputs[o.vout])
  }

  /** No absolute lock, and BIP 125's opt-in to replacement on a connector that waits for nothing. */
  predicate Replaceable(p: Psbts.Psbt) {
    && p.tx.version == 2 && p.tx.lockTime == 0 && |p.tx.inputs| == 2 && |p.inputs| == 2
    && p.tx.inputs[1].sequence < 0xFFFF_FFFE
    && RelativeSeconds(2, p.tx.inputs[1].sequence) == 0 && RelativeBlocks(2, p.tx.inputs[1].sequence) == 0
    && p.inputs[1].signatures == map[]
  }

  lemma {:induction false} StepFile(config: VaultConfig, m: Manifest, files: Files, rollover: Tx, k: nat)
    requires k < |m.allowances| == m.allowanceCount
    requires ValidStep(config, m.monthlyLimit, m.allowanceCount, files, rollover, m.allowances, k)
    requires k > 0 ==> ValidStep(config, m.monthlyLimit, m.allowanceCount, files, rollover, m.allowances, k - 1)
    requires |rollover.outputs| > 2 && rollover.outputs[2] == ConnectorOutput(config.Controller())
    ensures m.allowances[k].authorization.file in files
    ensures var p := files[m.allowances[k].authorization.file]; RecordsSpent(p) && Replaceable(p)
  {
    hide PolicyVsize, MinimalNonDust;
  }

  lemma {:induction false} EmergencyFiles(config: VaultConfig, m: Manifest, files: Files, rollover: Tx)
    requires ValidEmergency(config, m.emergencyLimit, RemainderVout(m), EmergencyVout(m), files, rollover, m.emergency) && m.emergency.Some?
    requires |rollover.outputs| > EmergencyVout(m) && rollover.outputs[EmergencyVout(m)] == ConnectorOutput(config.Controller())
    ensures m.emergency.value.trigger.file in files && m.emergency.value.withdrawal.file in files
    ensures var p := files[m.emergency.value.trigger.file]; RecordsSpent(p) && Replaceable(p)
    ensures var p := files[m.emergency.value.withdrawal.file]; RecordsSpent(p) && Replaceable(p)
  {
    hide PolicyVsize, MinimalNonDust;
  }

  lemma {:induction false} RolloverConnectors(config: VaultConfig, m: Manifest, p: Psbts.Psbt)
    requires ValidRollover(config, m, p)
    ensures p.tx.version == 2 && p.tx.lockTime == 0
    ensures m.allowanceCount > 0 ==> |p.tx.outputs| > 2 && p.tx.outputs[2] == ConnectorOutput(config.Controller())
    ensures m.emergencyLimit > 0 ==> |p.tx.outputs| > EmergencyVout(m) && p.tx.outputs[EmergencyVout(m)] == ConnectorOutput(config.Controller())
  {
    hide PolicyVsize, MinimalNonDust, ValidRolloverInputs;
  }

  /** In every accepted batch the rollover has no absolute lock, and every other entry records the outputs
      that it spends, can be replaced, and has an unsigned connector. */
  lemma {:induction false} EntriesAreReplaceable(config: VaultConfig, batch: Batch, t: BatchTransaction)
    requires ValidBatch(config, batch) && t in ManifestTransactions(batch.manifest)
    ensures t.file in batch.files && batch.files[t.file].tx.version == 2 && batch.files[t.file].tx.lockTime == 0
    ensures t != batch.manifest.rollover ==> RecordsSpent(batch.files[t.file]) && Replaceable(batch.files[t.file])
  {
    var m, files := batch.manifest, batch.files;
    BatchParts(config, batch);
    EntryCases(m, t);
    RolloverConnectors(config, m, files[m.rollover.file]);
    EmergencyIffLimit(config, m, files, files[m.rollover.file].tx);
    hide ValidBatch, ManifestTransactions, ValidRollover, ValidStep, ValidEmergency, RecordsSpent;
    var rollover := files[m.rollover.file].tx;
    if t != m.rollover {
      if k :| 0 <= k < |m.allowances| && t == m.allowances[k].authorization {
        StepFile(config, m, files, rollover, k);
      } else {
        EmergencyFiles(config, m, files, rollover);
      }
    }
  }

  lemma {:induction false} EmergencyIffLimit(config: VaultConfig, m: Manifest, files: Files, rollover: Tx)
    requires ValidEmergency(config, m.emergencyLimit, RemainderVout(m), EmergencyVout(m), files, rollover, m.emergency)
    ensures m.emergency.Some? <==> m.emergencyLimit > 0
  {
    hide ValidTrigger, ValidWithdrawal;
  }
}
