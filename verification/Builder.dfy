/** The phone's policy builder (src/core/ceremony.rs). */
module Builder {
  import opened Wrappers
  import opened Bitcoin
  import opened Fees
  import opened Psbts
  import opened Ceremony
  import opened Validator
  import opened HotAddresses
  import opened Selection

  function CooperativeLeaf(config: VaultConfig): Leaf {
    VaultLeaf(Cooperative, config.phone, config.hww)
  }

  /** The phone's half of a two-input policy transaction: the vault input is signed, the connector
      input is not. */
  function PhoneSignedPair(config: VaultConfig, tx: Tx, source: TxOut): Psbt
    requires |tx.inputs| == 2
  {
    Signed(PolicyPsbt(tx, [source, ConnectorOutput(config.Controller())], [0], config.Vault(), config.Controller()),
           config.phone, CooperativeLeaf(config), [0])
  }

  method SignPair(config: VaultConfig, tx: Tx, source: TxOut) returns (p: Psbt)
    requires |tx.inputs| == 2 && source.script == config.Vault()
    ensures p == PhoneSignedPair(config, tx, source)
  {
    PairPartition();
    var unsigned := CreatePolicyPsbt(tx, [source, ConnectorOutput(config.Controller())], [0], [1],
                                     config.Vault(), config.Controller());
    var signed := SignInputs(unsigned.value, config.phone, CooperativeLeaf(config), [0]);
    p := signed.value;
  }

  lemma {:induction false} PairPartition()
    ensures ValidateInputPartition(2, [0], [1])
  {
    assert ToSet([0]) == {0} && ToSet([1]) == {1};
    assert |{0}| == 1 && |{1}| == 1 && {0} !! {1};
  }

  lemma {:induction false} PhoneSignedPairIsChild(config: VaultConfig, tx: Tx, source: TxOut, vaultOutpoint: OutPoint,
                               connector: OutPoint, sequence: U32, t: BatchTransaction)
    requires tx.inputs == PolicyInputs(vaultOutpoint, sequence, connector)
    requires t.vaultIndexes == [0] && t.controllerIndexes == [1] && t.unsignedTxid == TxidOf(tx)
    requires source.value + CONNECTOR_VALUE_SATS <= MAX_U64
    requires source.value + CONNECTOR_VALUE_SATS == OutputSum(tx.outputs) + t.fee
    ensures ValidChild(PhoneSignedPair(config, tx, source), source, vaultOutpoint, connector, config.Controller(), t)
    ensures DefaultSighashes(PhoneSignedPair(config, tx, source))
  {
  }

  /** One pass of the allowance loop: fee, next chain value, dust and exhaustion checks, template,
      PSBT. It fails only for lack of value. */
  method BuildAuthorization(config: VaultConfig, limit: U64, step: nat, hasNext: bool, source: ChainState, hot: Address)
    returns (r: Result<(AllowanceStep, Psbt)>)
    requires source.prevout.script == config.Vault() && source.connector.value == CONNECTOR_VALUE_SATS
    requires source.prevout.value + CONNECTOR_VALUE_SATS <= MAX_U64
    requires hot.network == config.network && ScriptLength(hot.script) == 34
    ensures r.Success? <==>
              if hasNext then source.prevout.value >= limit + CONTINUING_FEE + P2TR_DUST
              else source.prevout.value + CONNECTOR_VALUE_SATS == limit + FINAL_FEE
    ensures r.Success? ==>
              var (a, p) := r.value;
              && ValidAuthorization(config, limit, hasNext, source.prevout, source.outpoint, source.connector.outpoint, p, a)
              && PhoneSignedChild(config, p)
              && a.step == step && a.hotAddress == hot
              && a.authorization.file == AuthorizationFile(step)
              && a.authorization.fee == if hasNext then CONTINUING_FEE else FINAL_FEE
  {
    hide PolicyVsize, ValidChild, DefaultSighashes;
    var vault, controller := config.Vault(), config.Controller();
    SingleStepFees(TxOut(limit, hot.script), TxOut(1, vault), ConnectorOutput(controller));
    var template := AuthorizationTemplate(source.outpoint, NULL_OUTPOINT, limit, hot.script,
                                          if hasNext then Some(TxOut(1, vault)) else None, controller);
    PairRoles(template);
    var vsize := EstimatePolicyVsize(template, [0], [1]);
    var fee := vsize.value * DEFAULT_FEE_RATE_SAT_VB;
    var funds := CheckedAdd(source.prevout.value, CONNECTOR_VALUE_SATS);
    var available := if hasNext then CheckedSub(funds.value, CONNECTOR_VALUE_SATS) else Some(funds.value);
    if available.value < limit || available.value - limit < fee {
      return Failure("chain cannot fund authorization");
    }
    var next := available.value - limit - fee;
    if hasNext && next < MinimalNonDust(vault) {
      return Failure("dust chain output");
    }
    if !hasNext && next != 0 {
      return Failure("chain output not exhausted");
    }
    var nextChain := if hasNext then Some(TxOut(next, vault)) else None;
    if hasNext {
      SingleStepFees(TxOut(limit, hot.script), nextChain.value, ConnectorOutput(controller));
    }
    OutputSums(TxOut(limit, hot.script), TxOut(next, vault), ConnectorOutput(controller));
    var tx := AuthorizationTemplate(source.outpoint, source.connector.outpoint, limit, hot.script, nextChain, controller);
    var psbt := SignPair(config, tx, source.prevout);
    var nextConnector := if hasNext then Some(ConnectorState(OutPoint(TxidOf(tx), 2), CONNECTOR_VALUE_SATS)) else None;
    var transaction := BatchTransaction(AuthorizationFile(step), TxidOf(tx), fee, [0], [1]);
    PhoneSignedPairIsChild(config, tx, source.prevout, source.outpoint, source.connector.outpoint, MONTHLY_SEQUENCE, transaction);
    return Success((AllowanceStep(step, MONTHLY_DELAY_SECONDS, MONTHLY_SEQUENCE, source.prevout.value, hot,
                                  source.connector, nextConnector, transaction), psbt));
  }

  /** The files of the first `n` authorizations, and nothing else new. */
  ghost predicate AddsAuthorizations(before: Files, after: Files, n: nat) {
    && (forall name :: name in before && !name.AuthorizationFile? ==> name in after && after[name] == before[name])
    && (forall name :: name in after ==> name in before || (name.AuthorizationFile? && 1 <= name.step <= n))
  }

  /** The PSBT is exactly what the phone hands over: its own signature on the vault input only. */
  ghost predicate PhoneSignedChild(config: VaultConfig, p: Psbt) {
    && |p.tx.inputs| == 2 && |p.inputs| == 2 && p.inputs[0].utxo.Some?
    && p.inputs[0].utxo.value.script == config.Vault()
    && DefaultSighashes(p)
    && p == PhoneSignedPair(config, p.tx, p.inputs[0].utxo.value)
  }

  ghost predicate BuiltStep(config: VaultConfig, limit: U64, count: nat, files: Files, rollover: Tx,
                            allowances: seq<AllowanceStep>, firstAddress: nat, k: nat)
    requires k < |allowances|
  {
    var a := allowances[k];
    && ValidStep(config, limit, count, files, rollover, allowances, k)
    && a.authorization.file == AuthorizationFile(k + 1)
    && a.hotAddress == ReceiveAddress(config.network, config.phone, firstAddress + k)
    && a.authorization.fee == (if k + 1 < count then CONTINUING_FEE else FINAL_FEE)
    && k < count && a.chainValue == ChainTotal(count - k, limit)
    && PhoneSignedChild(config, files[a.authorization.file])
  }

  ghost predicate AllBuilt(config: VaultConfig, limit: U64, count: nat, files: Files, rollover: Tx,
                           allowances: seq<AllowanceStep>, firstAddress: nat)
  {
    forall j :: 0 <= j < |allowances| ==>
      BuiltStep(config, limit, count, files, rollover, allowances, firstAddress, j)
  }

  ghost predicate NextState(config: VaultConfig, limit: U64, remaining: nat, rollover: Tx, files: Files,
                            allowances: seq<AllowanceStep>, state: ChainState)
    requires remaining >= 1
  {
    && AtStep(state, files, rollover, allowances, |allowances|)
    && state.prevout.script == config.Vault()
    && state.prevout.value + CONNECTOR_VALUE_SATS <= MAX_U64
    && state.prevout.value == ChainTotal(remaining, limit)
  }

  /** A built authorization that continues the given state. */
  ghost predicate Continues(config: VaultConfig, limit: U64, count: nat, firstAddress: nat, k: nat,
                            state: ChainState, step: AllowanceStep, p: Psbt)
  {
    && ValidAuthorization(config, limit, k + 1 < count, state.prevout, state.outpoint, state.connector.outpoint, p, step)
    && PhoneSignedChild(config, p)
    && step.step == k + 1 && step.authorization.file == AuthorizationFile(k + 1)
    && step.hotAddress == ReceiveAddress(config.network, config.phone, firstAddress + k)
    && step.authorization.fee == if k + 1 < count then CONTINUING_FEE else FINAL_FEE
  }

  // Later writes go to other files, so finished steps stay as they are.
  lemma {:induction false} KeepSteps(config: VaultConfig, limit: U64, count: nat, files: Files, files': Files, rollover: Tx,
                  allowances: seq<AllowanceStep>, allowances': seq<AllowanceStep>, firstAddress: nat, p: Psbt)
    requires AllBuilt(config, limit, count, files, rollover, allowances, firstAddress)
    requires files' == files[AuthorizationFile(|allowances| + 1) := p]
    requires |allowances'| == |allowances| + 1 && allowances'[..|allowances|] == allowances
    ensures forall j :: 0 <= j < |allowances| ==>
              BuiltStep(config, limit, count, files', rollover, allowances', firstAddress, j)
  {
    hide ValidAuthorization, PhoneSignedChild, ChainTotal;
    forall j | 0 <= j < |allowances|
      ensures BuiltStep(config, limit, count, files', rollover, allowances', firstAddress, j)
    {
      assert BuiltStep(config, limit, count, files, rollover, allowances, firstAddress, j);
      assert allowances'[j] == allowances'[..|allowances|][j] == allowances[j];
      if j > 0 {
        assert BuiltStep(config, limit, count, files, rollover, allowances, firstAddress, j - 1);
        assert allowances'[j - 1] == allowances'[..|allowances|][j - 1] == allowances[j - 1];
      }
      assert ParentTx(files', rollover, allowances', j) == ParentTx(files, rollover, allowances, j);
    }
  }

  lemma {:induction false} NewStep(config: VaultConfig, limit: U64, count: nat, files: Files, files': Files, rollover: Tx,
                allowances: seq<AllowanceStep>, allowances': seq<AllowanceStep>, firstAddress: nat,
                state: ChainState, step: AllowanceStep, p: Psbt)
    requires |allowances| < count && allowances' == allowances + [step]
    requires AllBuilt(config, limit, count, files, rollover, allowances, firstAddress)
    requires NextState(config, limit, count - |allowances|, rollover, files, allowances, state)
    requires Continues(config, limit, count, firstAddress, |allowances|, state, step, p)
    requires files' == files[step.authorization.file := p]
    ensures BuiltStep(config, limit, count, files', rollover, allowances', firstAddress, |allowances|)
  {
    var k := |allowances|;
    if k > 0 {
      assert BuiltStep(config, limit, count, files, rollover, allowances, firstAddress, k - 1);
      assert allowances'[k - 1] == allowances[k - 1];
    }
    assert ParentTx(files', rollover, allowances', k) == ParentTx(files, rollover, allowances, k);
  }

  lemma {:induction false} NewState(config: VaultConfig, limit: U64, count: nat, files: Files, rollover: Tx, allowances: seq<AllowanceStep>,
                 firstAddress: nat, state: ChainState, step: AllowanceStep, p: Psbt)
    requires |allowances| + 1 < count
    requires NextState(config, limit, count - |allowances|, rollover, files, allowances, state)
    requires Continues(config, limit, count, firstAddress, |allowances|, state, step, p)
    ensures NextState(config, limit, count - |allowances| - 1, rollover, files[step.authorization.file := p],
                      allowances + [step],
                      ChainState(OutPoint(TxidOf(p.tx), 1), p.tx.outputs[1], step.nextConnector.value))
  {
  }

  lemma {:induction false} ExtendChain(config: VaultConfig, limit: U64, count: nat, rollover: Tx, files: Files,
                    allowances: seq<AllowanceStep>, firstAddress: nat, state: ChainState, step: AllowanceStep, p: Psbt)
    requires |allowances| < count
    requires AllBuilt(config, limit, count, files, rollover, allowances, firstAddress)
    requires NextState(config, limit, count - |allowances|, rollover, files, allowances, state)
    requires Continues(config, limit, count, firstAddress, |allowances|, state, step, p)
    ensures AllBuilt(config, limit, count, files[step.authorization.file := p], rollover, allowances + [step], firstAddress)
  {
    var files', allowances' := files[step.authorization.file := p], allowances + [step];
    NewStep(config, limit, count, files, files', rollover, allowances, allowances', firstAddress, state, step, p);
    KeepSteps(config, limit, count, files, files', rollover, allowances, allowances', firstAddress, p);
    hide BuiltStep;
  }

  /** The allowance loop. Once the chain has exactly its computed value, the loop can only fail on
      a dust link, and it does so exactly when there is a link and the last one is below dust. */
  method BuildAllowances(config: VaultConfig, limit: U64, count: nat, rollover: Tx, before: Files, hot: AddressCursor)
    returns (r: Result<(seq<AllowanceStep>, Files)>)
    requires hot.network == config.network && hot.owner == config.phone
    requires forall name :: name in before ==> !name.AuthorizationFile?
    requires count > 0 ==>
               && |rollover.outputs| > 0 && rollover.outputs[0].script == config.Vault()
               && rollover.outputs[0].value == ChainTotal(count, limit)
               && rollover.outputs[0].value + CONNECTOR_VALUE_SATS <= MAX_U64
    modifies hot`next
    ensures r.Failure? <==> count >= 2 && limit + FINAL_FEE < CONNECTOR_VALUE_SATS + P2TR_DUST
    ensures r.Success? ==>
              && |r.value.0| == count && hot.next == old(hot.next) + count
              && AddsAuthorizations(before, r.value.1, count)
              && AllBuilt(config, limit, count, r.value.1, rollover, r.value.0, old(hot.next))
  {
    hide AllBuilt, NextState, ValidAuthorization, PhoneSignedChild;
    var allowances: seq<AllowanceStep>, files := [], before;
    ghost var firstAddress := hot.next;
    var state := ChainState(OutPoint(TxidOf(rollover), 0), if count > 0 then rollover.outputs[0] else TxOut(0, config.Vault()),
                            ConnectorState(OutPoint(TxidOf(rollover), 2), CONNECTOR_VALUE_SATS));
    StartChain(config, limit, count, rollover, files, firstAddress, state);
    for k := 0 to count
      invariant |allowances| == k && hot.next == firstAddress + k
      invariant AddsAuthorizations(before, files, k)
      invariant AllBuilt(config, limit, count, files, rollover, allowances, firstAddress)
      invariant k < count ==> NextState(config, limit, count - k, rollover, files, allowances, state)
      invariant count >= 2 && k + 1 >= count ==> limit + FINAL_FEE >= CONNECTOR_VALUE_SATS + P2TR_DUST
    {
      var address := hot.NextReceiveAddress();
      var hasNext := k + 1 < count;
      StateIsSpendable(config, limit, count - k, rollover, files, allowances, state);
      var built := BuildAuthorization(config, limit, k + 1, hasNext, state, address);
      if built.Failure? {
        return Failure(built.error);
      }
      var (step, psbt) := built.value;
      assert Continues(config, limit, count, firstAddress, k, state, step, psbt);
      ExtendChain(config, limit, count, rollover, files, allowances, firstAddress, state, step, psbt);
      if hasNext {
        NewState(config, limit, count, files, rollover, allowances, firstAddress, state, step, psbt);
        LinkedOutput(config, limit, state, step, psbt);
        state := ChainState(OutPoint(TxidOf(psbt.tx), 1), psbt.tx.outputs[1], step.nextConnector.value);
      }
      files := files[step.authorization.file := psbt];
      allowances := allowances + [step];
    }
    return Success((allowances, files));
  }

  lemma {:induction false} StartChain(config: VaultConfig, limit: U64, count: nat, rollover: Tx, files: Files, firstAddress: nat, state: ChainState)
    requires count > 0 ==>
               && |rollover.outputs| > 0 && rollover.outputs[0].script == config.Vault()
               && rollover.outputs[0].value == ChainTotal(count, limit)
               && rollover.outputs[0].value + CONNECTOR_VALUE_SATS <= MAX_U64
               && state == ChainState(OutPoint(TxidOf(rollover), 0), rollover.outputs[0],
                                      ConnectorState(OutPoint(TxidOf(rollover), 2), CONNECTOR_VALUE_SATS))
    ensures AllBuilt(config, limit, count, files, rollover, [], firstAddress)
    ensures count > 0 ==> NextState(config, limit, count, rollover, files, [], state)
  {
  }

  lemma {:induction false} StateIsSpendable(config: VaultConfig, limit: U64, remaining: nat, rollover: Tx, files: Files,
                         allowances: seq<AllowanceStep>, state: ChainState)
    requires remaining >= 1 && NextState(config, limit, remaining, rollover, files, allowances, state)
    ensures state.prevout.script == config.Vault() && state.connector.value == CONNECTOR_VALUE_SATS
    ensures state.prevout.value + CONNECTOR_VALUE_SATS <= MAX_U64
    ensures remaining == 1 ==> state.prevout.value + CONNECTOR_VALUE_SATS == limit + FINAL_FEE
    ensures remaining == 2 ==> (state.prevout.value >= limit + CONTINUING_FEE + P2TR_DUST <==>
                                limit + FINAL_FEE >= CONNECTOR_VALUE_SATS + P2TR_DUST)
    ensures remaining >= 2 && state.prevout.value < limit + CONTINUING_FEE + P2TR_DUST ==>
              limit + FINAL_FEE < CONNECTOR_VALUE_SATS + P2TR_DUST
  {
    if remaining >= 2 {
      ChainTotalAtLeast(remaining - 1, limit);
    }
  }

  lemma {:induction false} LinkedOutput(config: VaultConfig, limit: U64, state: ChainState, step: AllowanceStep, p: Psbt)
    requires ValidAuthorization(config, limit, true, state.prevout, state.outpoint, state.connector.outpoint, p, step)
    ensures |p.tx.outputs| == 3 && step.nextConnector.Some?
  {
  }

  // ----- Emergency access -----

  /** `build_emergency_access`. */
  method BuildEmergencyAccess(config: VaultConfig, rollover: Tx, remainderVout: U32, connectorVout: U32, amount: U64,
                              hot: Address)
    returns (r: Result<(EmergencyPolicy, Psbt, Psbt)>)
    requires |rollover.outputs| > remainderVout
    requires rollover.outputs[remainderVout].script == config.Vault()
    requires rollover.outputs[remainderVout].value + CONNECTOR_VALUE_SATS <= MAX_U64
    requires amount > 0 && amount + FINAL_FEE <= MAX_U64
    requires hot.network == config.network && ScriptLength(hot.script) == 34
    ensures r.Success? <==>
              && amount + FINAL_FEE >= CONNECTOR_VALUE_SATS + P2TR_DUST
              && rollover.outputs[remainderVout].value >= MinimumRemainder(amount)
    ensures r.Success? ==>
              var (e, t, w) := r.value;
              && ValidEmergency(config, amount, remainderVout, connectorVout,
                                map[TriggerFile := t, WithdrawalFile := w], rollover, Some(e))
              && e.trigger.file == TriggerFile && e.withdrawal.file == WithdrawalFile && e.hotAddress == hot
              && PhoneSignedChild(config, t) && PhoneSignedChild(config, w)
  {
    hide ValidTrigger, ValidWithdrawal, PhoneSignedChild, PolicyVsize;
    var vault, source := config.Vault(), rollover.outputs[remainderVout];
    var withdrawalFee := PairFee(WithdrawalTemplate(NULL_OUTPOINT, NULL_OUTPOINT, amount, hot.script));
    SingleStepFees(TxOut(amount, hot.script), TxOut(0, vault), ConnectorOutput(config.Controller()));
    if amount + withdrawalFee < CONNECTOR_VALUE_SATS {
      return Failure("connector cannot fund emergency");
    }
    var staging: U64 := amount + withdrawalFee - CONNECTOR_VALUE_SATS;
    if staging < MinimalNonDust(vault) {
      return Failure("dust staging output");
    }
    var sourceOutpoint := OutPoint(TxidOf(rollover), remainderVout);
    var connector := OutPoint(TxidOf(rollover), connectorVout);
    var triggerFee := PairFee(TriggerTemplate(sourceOutpoint, NULL_OUTPOINT, staging, MinimalNonDust(vault), vault, config.Controller()));
    SingleStepFees(TxOut(staging, vault), TxOut(MinimalNonDust(vault), vault), ConnectorOutput(config.Controller()));
    if source.value < staging || source.value - staging < triggerFee {
      return Failure("cannot fund emergency access");
    }
    var change: U64 := source.value - staging - triggerFee;
    if change < MinimalNonDust(vault) {
      return Failure("dust vault change");
    }
    var trigger, triggerEntry := BuildTrigger(config, source, sourceOutpoint, connector, staging, change, triggerFee);
    var withdrawal, withdrawalEntry := BuildWithdrawal(config, TxidOf(trigger.tx), staging, amount, hot.script, withdrawalFee);
    var policy := EmergencyPolicy(amount, EMERGENCY_DELAY_SECONDS, EMERGENCY_SEQUENCE, hot, 0, staging, 1, change,
                                  ConnectorState(connector, CONNECTOR_VALUE_SATS),
                                  ConnectorState(OutPoint(TxidOf(trigger.tx), 2), CONNECTOR_VALUE_SATS),
                                  triggerEntry, withdrawalEntry);
    return Success((policy, trigger, withdrawal));
  }

  method BuildTrigger(config: VaultConfig, source: TxOut, sourceOutpoint: OutPoint, connector: OutPoint, staging: U64,
                      change: U64, fee: U64)
    returns (p: Psbt, entry: BatchTransaction)
    requires source.script == config.Vault() && source.value + CONNECTOR_VALUE_SATS <= MAX_U64
    requires fee == CONTINUING_FEE && source.value == staging + change + fee && change >= MinimalNonDust(config.Vault())
    ensures ValidTrigger(p, source, sourceOutpoint, connector, staging, change, entry, config.Vault(), config.Controller())
    ensures PhoneSignedChild(config, p) && entry.file == TriggerFile
  {
    var vault, controller := config.Vault(), config.Controller();
    var tx := TriggerTemplate(sourceOutpoint, connector, staging, change, vault, controller);
    p := SignPair(config, tx, source);
    entry := BatchTransaction(TriggerFile, TxidOf(tx), fee, [0], [1]);
    SingleStepFees(TxOut(staging, vault), TxOut(change, vault), ConnectorOutput(controller));
    OutputSums(TxOut(staging, vault), TxOut(change, vault), ConnectorOutput(controller));
    PhoneSignedPairIsChild(config, tx, source, sourceOutpoint, connector, SEQUENCE_MAX, entry);
  }

  method BuildWithdrawal(config: VaultConfig, trigger: Txid, staging: U64, amount: U64, hot: Script, fee: U64)
    returns (p: Psbt, entry: BatchTransaction)
    requires staging + CONNECTOR_VALUE_SATS <= MAX_U64
    requires fee == FINAL_FEE && staging + CONNECTOR_VALUE_SATS == amount + fee && ScriptLength(hot) == 34
    ensures ValidWithdrawal(p, trigger, staging, amount, hot, entry, config.Vault(), config.Controller())
    ensures PhoneSignedChild(config, p) && entry.file == WithdrawalFile
  {
    var vault, controller := config.Vault(), config.Controller();
    var tx := WithdrawalTemplate(OutPoint(trigger, 0), OutPoint(trigger, 2), amount, hot);
    p := SignPair(config, tx, TxOut(staging, vault));
    entry := BatchTransaction(WithdrawalFile, TxidOf(tx), fee, [0], [1]);
    SingleStepFees(TxOut(amount, hot), TxOut(0, vault), ConnectorOutput(controller));
    OutputSums(TxOut(amount, hot), TxOut(0, vault), ConnectorOutput(controller));
    PhoneSignedPairIsChild(config, tx, TxOut(staging, vault), OutPoint(trigger, 0), OutPoint(trigger, 2), EMERGENCY_SEQUENCE, entry);
  }

  method PairFee(template: Tx) returns (fee: nat)
    requires |template.inputs| == 2
    ensures fee == PolicyVsize(1, 1, template.outputs)
  {
    PairRoles(template);
    var vsize := EstimatePolicyVsize(template, [0], [1]);
    fee := vsize.value * DEFAULT_FEE_RATE_SAT_VB;
  }
}
