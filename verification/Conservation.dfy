/** Where every satoshi of an accepted batch goes (src/core/ceremony.rs). */
module Conservation {
  import opened Wrappers
  import opened Bitcoin
  import opened Fees
  import opened Psbts
  import opened Ceremony

  function FeeTotal(entries: seq<BatchTransaction>): nat {
    if entries == [] then 0 else entries[0].fee + FeeTotal(entries[1..])
  }

  lemma {:induction false} FeeTotalAppend(a: seq<BatchTransaction>, b: seq<BatchTransaction>)
    ensures FeeTotal(a + b) == FeeTotal(a) + FeeTotal(b)
  {
    if a == [] {
      assert a + b == b;
    } else {
      assert (a + b)[1..] == a[1..] + b;
      FeeTotalAppend(a[1..], b);
    }
  }

  function Authorizations(m: Manifest): seq<BatchTransaction> {
    seq(|m.allowances|, i requires 0 <= i < |m.allowances| => m.allowances[i].authorization)
  }

  // The step's own balance, taken from its accepted transaction.
  lemma {:induction false} StepBalance(config: VaultConfig, limit: U64, count: nat, files: Files, rollover: Tx,
                                       allowances: seq<AllowanceStep>, k: nat)
    requires |allowances| == count && k < count
    requires ValidStep(config, limit, count, files, rollover, allowances, k)
    ensures k + 1 == count ==>
              allowances[k].chainValue + CONNECTOR_VALUE_SATS == limit + allowances[k].authorization.fee
    ensures k + 1 < count && ValidStep(config, limit, count, files, rollover, allowances, k + 1) ==>
              allowances[k].chainValue == limit + allowances[k].authorization.fee + allowances[k + 1].chainValue
  {
    hide PolicyVsize, MinimalNonDust, ValidChild;
  }

  lemma {:induction false} ChainTail(config: VaultConfig, limit: U64, count: nat, files: Files, rollover: Tx,
                                     m: Manifest, k: nat)
    requires |m.allowances| == count && k < count
    requires forall j :: k <= j < count ==> ValidStep(config, limit, count, files, rollover, m.allowances, j)
    ensures m.allowances[k].chainValue + CONNECTOR_VALUE_SATS == (count - k) * limit + FeeTotal(Authorizations(m)[k..])
    decreases count - k
  {
    hide ValidStep;
    var entries := Authorizations(m);
    StepBalance(config, limit, count, files, rollover, m.allowances, k);
    assert entries[k..][0] == m.allowances[k].authorization && entries[k..][1..] == entries[k + 1..];
    if k + 1 < count {
      ChainTail(config, limit, count, files, rollover, m, k + 1);
      Distribute(count - k - 1, limit);
    } else {
      assert entries[k + 1..] == [];
    }
  }

  /** Before step k the chain holds exactly the remaining allowances and their fees, less the one
      connector that the last authorization consumes. */
  lemma {:induction false} ChainValueIsWhatRemains(config: VaultConfig, batch: Batch, k: nat)
    requires ValidBatch(config, batch) && k < batch.manifest.allowanceCount
    ensures var m := batch.manifest;
            && k < |m.allowances| == m.allowanceCount
            && m.allowances[k].chainValue + CONNECTOR_VALUE_SATS
               == (m.allowanceCount - k) * m.monthlyLimit + FeeTotal(Authorizations(m)[k..])
  {
    hide ValidBatch, ValidStep, ValidRollover, ValidEmergency, FeeTotal, ManifestTransactions, ValidHeader;
    BatchParts(config, batch);
    var m := batch.manifest;
    ChainTail(config, m.monthlyLimit, m.allowanceCount, batch.files, batch.files[m.rollover.file].tx, m, k);
  }

  lemma {:induction false} Distribute(n: nat, limit: nat)
    ensures (n + 1) * limit == n * limit + limit
  {
  }

  /** What the rollover leaves in cold storage or hands to the emergency package. */
  function ColdValue(m: Manifest): nat {
    if m.emergency.Some? then m.emergency.value.amount + m.emergency.value.changeValue else m.remainderValue
  }

  /** The rollover's own balance. */
  lemma {:induction false} RolloverBalance(config: VaultConfig, m: Manifest, p: Psbt)
    requires ValidRollover(config, m, p)
    ensures m.totalInput == m.rollover.fee + m.remainderValue
                            + (if m.allowanceCount > 0 then m.allowanceValue + CONNECTOR_VALUE_SATS else 0)
                            + (if m.emergencyLimit > 0 then CONNECTOR_VALUE_SATS else 0)
    ensures |p.tx.outputs| > RemainderVout(m) && p.tx.outputs[RemainderVout(m)].value == m.remainderValue
    ensures m.allowanceCount > 0 ==> p.tx.outputs[0].value == m.allowanceValue
  {
    hide ValidRolloverInputs, PolicyVsize, MinimalNonDust;
    var vault, controller := config.Vault(), config.Controller();
    var allowance := TxOut(m.allowanceValue, vault);
    var remainder, connector := TxOut(m.remainderValue, vault), ConnectorOutput(controller);
    OutputSums(allowance, remainder, connector);
    OutputSums(remainder, connector, connector);
    if m.allowanceCount > 0 {
      if m.emergencyLimit > 0 {
        assert p.tx.outputs == [allowance, remainder, connector] + [connector];
        OutputSumAppend([allowance, remainder, connector], [connector]);
        OutputSums(connector, connector, connector);
      } else {
        assert p.tx.outputs == [allowance, remainder, connector];
      }
    } else if m.emergencyLimit > 0 {
      assert p.tx.outputs == [remainder, connector];
    } else {
      assert p.tx.outputs == [remainder];
    }
  }

  lemma {:induction false} EmergencyBalance(config: VaultConfig, limit: U64, remainderVout: U32, connectorVout: U32,
                                            files: Files, rollover: Tx, emergency: Option<EmergencyPolicy>)
    requires ValidEmergency(config, limit, remainderVout, connectorVout, files, rollover, emergency)
    ensures emergency.Some? <==> limit > 0
    ensures emergency.Some? ==>
              var e := emergency.value;
              && |rollover.outputs| > remainderVout
              && e.amount == limit
              && rollover.outputs[remainderVout].value == e.stagingValue + e.changeValue + e.trigger.fee
              && e.stagingValue + CONNECTOR_VALUE_SATS == e.amount + e.withdrawal.fee
  {
    if limit > 0 {
      var e := emergency.value;
      OutputSums(TxOut(e.stagingValue, config.Vault()), TxOut(e.changeValue, config.Vault()), ConnectorOutput(config.Controller()));
    }
    hide PolicyVsize, MinimalNonDust;
  }

  lemma {:induction false} EntryFees(m: Manifest)
    ensures FeeTotal(ManifestTransactions(m))
         == m.rollover.fee + FeeTotal(Authorizations(m))
            + (if m.emergency.Some? then m.emergency.value.trigger.fee + m.emergency.value.withdrawal.fee else 0)
  {
    var tail := if m.emergency.Some? then [m.emergency.value.trigger, m.emergency.value.withdrawal] else [];
    assert ManifestTransactions(m) == [m.rollover] + Authorizations(m) + tail;
    FeeTotalAppend([m.rollover] + Authorizations(m), tail);
    FeeTotalAppend([m.rollover], Authorizations(m));
    assert FeeTotal([m.rollover]) == m.rollover.fee;
    if m.emergency.Some? {
      assert tail[1..] == [m.emergency.value.withdrawal] && FeeTotal(tail[1..]) == m.emergency.value.withdrawal.fee;
    }
  }

  /** Conservation: the inputs of an accepted batch are its allowances, what stays cold or is
      reserved for the emergency, and the fees of its transactions. Every connector cancels. */
  lemma {:induction false} BatchConserves(config: VaultConfig, batch: Batch)
    requires ValidBatch(config, batch)
    ensures var m := batch.manifest;
            && m.totalInput == m.allowanceCount * m.monthlyLimit + ColdValue(m) + FeeTotal(ManifestTransactions(m))
            && (m.emergency.Some? <==> m.emergencyLimit > 0)
            && (m.emergency.Some? ==> m.emergency.value.amount == m.emergencyLimit)
  {
    var m, files := batch.manifest, batch.files;
    BatchParts(config, batch);
    hide ValidBatch, ManifestTransactions, ValidEmergency, ValidRollover, ValidStep;
    var rollover := files[m.rollover.file];
    RolloverBalance(config, m, rollover);
    EmergencyBalance(config, m.emergencyLimit, RemainderVout(m), EmergencyVout(m), files, rollover.tx, m.emergency);
    EntryFees(m);
    if m.allowanceCount > 0 {
      ChainTail(config, m.monthlyLimit, m.allowanceCount, files, rollover.tx, m, 0);
      FirstStepSpendsTheAllowance(config, m.monthlyLimit, m.allowanceCount, files, rollover.tx, m.allowances);
      assert Authorizations(m)[0..] == Authorizations(m);
    }
  }

  lemma {:induction false} FirstStepSpendsTheAllowance(config: VaultConfig, limit: U64, count: nat, files: Files,
                                                       rollover: Tx, allowances: seq<AllowanceStep>)
    requires |allowances| > 0 && ValidStep(config, limit, count, files, rollover, allowances, 0)
    ensures |rollover.outputs| > 0 && allowances[0].chainValue == rollover.outputs[0].value
  {
    hide PolicyVsize, MinimalNonDust, ValidChild;
  }
}
