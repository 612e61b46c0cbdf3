/** The signer's annual workload: the transaction walk and the signature jobs that it yields
    (cold-signer/src/benchmark.rs). */
module SignerWalk {
  import opened Bytes
  import opened Wrappers
  import opened Bitcoin
  import opened Fees
  import opened Ceremony
  import opened Selection
  import opened SignerTransactions

  const VAULT_BALANCE_SATS: nat := 210_000_000
  const MONTHLY_ALLOWANCE_SATS: nat := 10_000_000
  const EMERGENCY_ACCESS_SATS: nat := 50_000_000
  const MONTHLY_STEPS: nat := 12
  const TRANSACTION_COUNT: nat := 15
  const MAX_SIGNATURE_JOBS: nat := MAX_ROLLOVER_INPUTS + 14

  /** The hash function that the device supplies, and the tag of a Taproot signature message. */
  datatype Hasher = Hasher(hash: seq<Byte> -> Hash, sighashTag: Hash)

  datatype Context = Context(vaultScript: ScriptBytes, controllerScript: ScriptBytes, leaf: Hash)
  datatype Job = Job(signatureIndex: nat, transactionIndex: nat, inputIndex: nat, sighash: Hash)

  // ----- The signature message (section "Common signature message" of BIP 341) -----

  function PrevoutChunks(tx: Transaction): seq<seq<Byte>> {
    seq(|tx.inputs|, i requires 0 <= i < |tx.inputs| => tx.inputs[i].txid + LittleEndian(tx.inputs[i].vout, 4))
  }

  function AmountChunks(tx: Transaction): seq<seq<Byte>> {
    seq(|tx.inputs|, i requires 0 <= i < |tx.inputs| => LittleEndian(tx.inputs[i].amount, 8))
  }

  function ScriptChunks(tx: Transaction, context: Context): seq<seq<Byte>> {
    seq(|tx.inputs|, i requires 0 <= i < |tx.inputs| =>
      [P2TR_SCRIPT_LEN] + if tx.inputs[i].controller then context.controllerScript else context.vaultScript)
  }

  function SequenceChunks(tx: Transaction): seq<seq<Byte>> {
    seq(|tx.inputs|, i requires 0 <= i < |tx.inputs| => LittleEndian(tx.inputs[i].sequence, 4))
  }

  datatype Components = Components(prevouts: Hash, amounts: Hash, scripts: Hash, sequences: Hash, outputs: Hash)

  function ComponentsOf(h: Hasher, tx: Transaction, context: Context): Components {
    Components(h.hash(Concat(PrevoutChunks(tx))), h.hash(Concat(AmountChunks(tx))), h.hash(Concat(ScriptChunks(tx, context))),
               h.hash(Concat(SequenceChunks(tx))), h.hash(Concat(OutputChunks(tx.outputs))))
  }

  // Epoch, SIGHASH_DEFAULT, version, lock time, the components, the spend type, the input, the leaf,
  // the key version, and no code separator.
  function MessageChunks(c: Components, inputIndex: nat, leaf: Hash): seq<seq<Byte>> {
    [[0], [0], LittleEndian(2, 4), LittleEndian(0, 4), c.prevouts, c.amounts, c.scripts, c.sequences, c.outputs, [2],
     LittleEndian(inputIndex, 4), leaf, [0], LittleEndian(0xFFFF_FFFF, 4)]
  }

  function Sighash(h: Hasher, tx: Transaction, context: Context, inputIndex: nat): Hash {
    h.hash(h.sighashTag + h.sighashTag + Concat(MessageChunks(ComponentsOf(h, tx, context), inputIndex, context.leaf)))
  }

  /** The jobs of the first `upto` inputs: one for each input that is not a connector. */
  function Jobs(h: Hasher, tx: Transaction, context: Context, t: nat, first: nat, upto: nat): seq<Job>
    requires upto <= |tx.inputs|
  {
    if upto == 0 then []
    else
      var before := Jobs(h, tx, context, t, first, upto - 1);
      if tx.inputs[upto - 1].controller then before
      else before + [Job(first + |before|, t, upto - 1, Sighash(h, tx, context, upto - 1))]
  }

  /** Jobs are numbered without gaps, in input order, over exactly the inputs that are not
      connectors. */
  lemma {:induction false} JobsAreContiguous(h: Hasher, tx: Transaction, context: Context, t: nat, first: nat, upto: nat)
    requires upto <= |tx.inputs|
    ensures var jobs := Jobs(h, tx, context, t, first, upto);
            && |jobs| <= upto
            && (forall k :: 0 <= k < |jobs| ==>
                  && jobs[k].signatureIndex == first + k && jobs[k].transactionIndex == t
                  && jobs[k].inputIndex < upto && !tx.inputs[jobs[k].inputIndex].controller
                  && jobs[k].sighash == Sighash(h, tx, context, jobs[k].inputIndex))
            && (forall j, k :: 0 <= j < k < |jobs| ==> jobs[j].inputIndex < jobs[k].inputIndex)
            && (forall i :: 0 <= i < upto && !tx.inputs[i].controller ==> exists k :: 0 <= k < |jobs| && jobs[k].inputIndex == i)
  {
    hide Sighash;
    if upto > 0 {
      JobsAreContiguous(h, tx, context, t, first, upto - 1);
      JobsHaveOneMore(h, tx, context, t, first, upto);
      hide Jobs;
      var before, jobs := Jobs(h, tx, context, t, first, upto - 1), Jobs(h, tx, context, t, first, upto);
      forall i | 0 <= i < upto && !tx.inputs[i].controller
        ensures exists k :: 0 <= k < |jobs| && jobs[k].inputIndex == i
      {
        JobIsKept(before, jobs, i);
        assert i == upto - 1 ==> jobs[|before|].inputIndex == i;
      }
    }
  }

  lemma {:induction false} JobIsKept(before: seq<Job>, jobs: seq<Job>, i: nat)
    requires |before| <= |jobs| && forall k :: 0 <= k < |before| ==> jobs[k] == before[k]
    ensures (exists k :: 0 <= k < |before| && before[k].inputIndex == i) ==> exists k :: 0 <= k < |jobs| && jobs[k].inputIndex == i
  {
    if k :| 0 <= k < |before| && before[k].inputIndex == i {
      assert jobs[k].inputIndex == i;
    }
  }

  // What the last input adds.
  lemma {:induction false} JobsHaveOneMore(h: Hasher, tx: Transaction, context: Context, t: nat, first: nat, upto: nat)
    requires 0 < upto <= |tx.inputs|
    ensures var before, jobs := Jobs(h, tx, context, t, first, upto - 1), Jobs(h, tx, context, t, first, upto);
            && |jobs| == |before| + (if tx.inputs[upto - 1].controller then 0 else 1)
            && (forall k :: 0 <= k < |before| ==> jobs[k] == before[k])
            && (!tx.inputs[upto - 1].controller ==>
                  jobs[|before|] == Job(first + |before|, t, upto - 1, Sighash(h, tx, context, upto - 1)))
  {
    hide Sighash;
  }

  lemma {:induction false} ComponentSizes(tx: Transaction, context: Context)
    requires Accepted(tx)
    ensures |Concat(PrevoutChunks(tx))| == 36 * |tx.inputs| && |Concat(AmountChunks(tx))| == 8 * |tx.inputs|
    ensures |Concat(ScriptChunks(tx, context))| == 35 * |tx.inputs| && |Concat(SequenceChunks(tx))| == 4 * |tx.inputs|
    ensures |Concat(OutputChunks(tx.outputs))| == 43 * |tx.outputs|
  {
    ConcatLength(PrevoutChunks(tx), 36);
    ConcatLength(AmountChunks(tx), 8);
    ConcatLength(ScriptChunks(tx, context), 35);
    ConcatLength(SequenceChunks(tx), 4);
    ConcatLength(OutputChunks(tx.outputs), 43);
  }

  lemma {:induction false} MessageLength(c: Components, inputIndex: nat, leaf: Hash)
    ensures |Concat(MessageChunks(c, inputIndex, leaf))| == 212
  {
    hide LittleEndian, Concat;
    var index, last := LittleEndian(inputIndex, 4), LittleEndian(0xFFFF_FFFF, 4);
    var head: seq<seq<Byte>> := [[0], [0], LittleEndian(2, 4), LittleEndian(0, 4)];
    var hashes: seq<seq<Byte>> := [c.prevouts, c.amounts, c.scripts, c.sequences, c.outputs];
    var tail: seq<seq<Byte>> := [[2], index, leaf, [0]];
    assert MessageChunks(c, inputIndex, leaf) == head + hashes + tail + [last];
    ConcatAppend(head + hashes + tail, last);
    ConcatJoin(head + hashes, tail);
    ConcatJoin(head, hashes);
    FourChunks([0], [0], LittleEndian(2, 4), LittleEndian(0, 4));
    ConcatLength(hashes, 32);
    FourChunks([2], index, leaf, [0]);
  }

  lemma {:induction false} ConcatJoin(a: seq<seq<Byte>>, b: seq<seq<Byte>>)
    ensures Concat(a + b) == Concat(a) + Concat(b)
  {
    if a == [] {
      assert a + b == b;
    } else {
      assert (a + b)[1..] == a[1..] + b;
      ConcatJoin(a[1..], b);
    }
  }

  /** One hash component: cleared, filled, hashed. */
  method HashComponent(h: Hasher, writer: ByteWriter, chunks: seq<seq<Byte>>) returns (r: Option<Hash>)
    requires writer.Valid() && writer.bytes.Length == MAX_HASH_COMPONENT_SIZE
    modifies writer, writer.bytes
    ensures writer.Valid()
    ensures r == if |Concat(chunks)| <= MAX_HASH_COMPONENT_SIZE then Some(h.hash(Concat(chunks))) else None
  {
    writer.Clear();
    var ok := writer.ExtendAll(chunks);
    if !ok {
      return None;
    }
    var slice := writer.AsSlice();
    assert slice == Concat(chunks);
    return Some(h.hash(slice));
  }

  method HashComponents(h: Hasher, tx: Transaction, context: Context) returns (r: Option<Components>)
    requires Accepted(tx)
    ensures r == Some(ComponentsOf(h, tx, context))
  {
    ComponentSizes(tx, context);
    hide Concat, PrevoutChunks, AmountChunks, ScriptChunks, SequenceChunks, OutputChunks;
    var writer := new ByteWriter(MAX_HASH_COMPONENT_SIZE);
    var prevouts := HashComponent(h, writer, PrevoutChunks(tx));
    var amounts := HashComponent(h, writer, AmountChunks(tx));
    var scripts := HashComponent(h, writer, ScriptChunks(tx, context));
    var sequences := HashComponent(h, writer, SequenceChunks(tx));
    var outputs := HashComponent(h, writer, OutputChunks(tx.outputs));
    if prevouts.None? || amounts.None? || scripts.None? || sequences.None? || outputs.None? {
      return None;
    }
    return Some(Components(prevouts.value, amounts.value, scripts.value, sequences.value, outputs.value));
  }

  method HashMessage(h: Hasher, c: Components, inputIndex: nat, leaf: Hash) returns (r: Option<Hash>)
    ensures r == Some(h.hash(h.sighashTag + h.sighashTag + Concat(MessageChunks(c, inputIndex, leaf))))
  {
    MessageLength(c, inputIndex, leaf);
    hide Concat, MessageChunks;
    var message := new ByteWriter(MESSAGE_SIZE);
    var ok := message.ExtendAll(MessageChunks(c, inputIndex, leaf));
    if !ok {
      return None;
    }
    var slice := message.AsSlice();
    assert slice == Concat(MessageChunks(c, inputIndex, leaf));
    return Some(h.hash(h.sighashTag + h.sighashTag + slice));
  }

  /** `for_each_sighash`: no buffer overflows for an accepted transaction. The caller keeps the
      byte-sized counter in range. */
  method ForEachSighash(h: Hasher, tx: Transaction, context: Context, t: nat, first: nat) returns (r: Result<seq<Job>>)
    requires Accepted(tx) && first + |tx.inputs| <= MAX_U8
    ensures r == Success(Jobs(h, tx, context, t, first, |tx.inputs|))
  {
    hide ComponentsOf, MessageChunks;
    var components := HashComponents(h, tx, context);
    if components.None? {
      return Failure("serialization overflow");
    }
    var jobs: seq<Job> := [];
    var next := first;
    for i := 0 to |tx.inputs|
      invariant jobs == Jobs(h, tx, context, t, first, i) && next == first + |jobs| && |jobs| <= i
    {
      if !tx.inputs[i].controller {
        var sighash := HashMessage(h, components.value, i, context.leaf);
        if sighash.None? {
          return Failure("serialization overflow");
        }
        assert sighash.value == Sighash(h, tx, context, i);
        jobs := jobs + [Job(next, t, i, sighash.value)];
        next := next + 1;
      }
    }
    return Success(jobs);
  }

  // ----- The walk -----

  datatype Config = Config(
    rolloverInputs: seq<Input>,
    monthlyScripts: seq<ScriptBytes>,
    emergencyScript: ScriptBytes,
    vaultScript: ScriptBytes,
    controllerScript: ScriptBytes,
    leaf: Hash)

  predicate ValidConfig(c: Config) {
    && 1 <= |c.rolloverInputs| <= MAX_ROLLOVER_INPUTS && |c.monthlyScripts| == MONTHLY_STEPS
    && (forall i :: 0 <= i < |c.rolloverInputs| ==> !c.rolloverInputs[i].controller)
  }

  function TxidBytes(h: Hasher, tx: Transaction): Hash
    requires Accepted(tx)
  {
    h.hash(h.hash(TxBytes(tx)))
  }

  method ComputeTxid(h: Hasher, tx: Transaction) returns (r: Result<Hash>)
    requires Accepted(tx)
    ensures r == Success(TxidBytes(h, tx))
  {
    hide TxBytes;
    var serialized := Serialize(tx);
    if serialized.Failure? {
      return Failure("serialization overflow");
    }
    return Success(h.hash(h.hash(serialized.value)));
  }

  function ChainInput(txid: Hash, vout: U32, amount: U64): Input {
    Input(txid, vout, amount, MONTHLY_SEQUENCE, false)
  }

  function ConnectorInput(txid: Hash, vout: U32): Input {
    Input(txid, vout, CONNECTOR_VALUE_SATS, SEQUENCE_RBF, true)
  }

  /** What the rollover's remainder holds, for n rollover inputs. */
  function RemainderValue(n: nat): int
    requires n <= MAX_ROLLOVER_INPUTS
  {
    VAULT_BALANCE_SATS - ChainTotal(MONTHLY_STEPS, MONTHLY_ALLOWANCE_SATS) - P2trVsize(n, 0, 4) - 2 * CONNECTOR_VALUE_SATS
  }

  lemma {:induction false} WalkAmounts(n: nat, k: nat)
    requires 1 <= n <= MAX_ROLLOVER_INPUTS
    ensures ChainTotal(MONTHLY_STEPS, MONTHLY_ALLOWANCE_SATS) == 120_002_886
    ensures 1 <= k <= MONTHLY_STEPS ==>
              ChainTotal(k, MONTHLY_ALLOWANCE_SATS) == 10_000_331 * k - 1_086
    ensures SignerVsize(1, 1, 3) == Some(CONTINUING_FEE) && SignerVsize(1, 1, 1) == Some(FINAL_FEE)
    ensures SignerVsize(n, 0, 4) == Some(P2trVsize(n, 0, 4)) && P2trVsize(n, 0, 4) <= 2_000
    ensures 89_990_000 <= RemainderValue(n) <= 90_000_000
  {
    ChainClosedForm(MONTHLY_STEPS, MONTHLY_ALLOWANCE_SATS);
    if 1 <= k <= MONTHLY_STEPS {
      ChainClosedForm(k, MONTHLY_ALLOWANCE_SATS);
    }
    hide ChainTotal;
  }

  function RolloverTx(c: Config): Transaction
    requires ValidConfig(c)
  {
    WalkAmounts(|c.rolloverInputs|, 1);
    Transaction(c.rolloverInputs,
                [Output(ChainTotal(MONTHLY_STEPS, MONTHLY_ALLOWANCE_SATS), c.vaultScript),
                 Output(RemainderValue(|c.rolloverInputs|), c.vaultScript),
                 Output(CONNECTOR_VALUE_SATS, c.controllerScript), Output(CONNECTOR_VALUE_SATS, c.controllerScript)])
  }

  /** Authorization k, counted from zero, below `parent`: what the policy builder would make of the
      same chain. */
  function AuthorizationTx(c: Config, k: nat, parent: Hash): Transaction
    requires ValidConfig(c) && k < MONTHLY_STEPS
  {
    WalkAmounts(1, MONTHLY_STEPS - k);
    Transaction([ChainInput(parent, ChainVout(k), ChainTotal(MONTHLY_STEPS - k, MONTHLY_ALLOWANCE_SATS)), ConnectorInput(parent, 2)],
                if k + 1 < MONTHLY_STEPS then
                  WalkAmounts(1, MONTHLY_STEPS - k - 1);
                  [Output(MONTHLY_ALLOWANCE_SATS, c.monthlyScripts[k]),
                   Output(ChainTotal(MONTHLY_STEPS - k - 1, MONTHLY_ALLOWANCE_SATS), c.vaultScript),
                   Output(CONNECTOR_VALUE_SATS, c.controllerScript)]
                else [Output(MONTHLY_ALLOWANCE_SATS, c.monthlyScripts[k])])
  }

  const STAGING: nat := EMERGENCY_ACCESS_SATS + FINAL_FEE - CONNECTOR_VALUE_SATS

  function TriggerTx(c: Config, parent: Hash): Transaction
    requires ValidConfig(c)
  {
    WalkAmounts(|c.rolloverInputs|, 1);
    var remainder := RemainderValue(|c.rolloverInputs|);
    Transaction([Input(parent, 1, remainder, SEQUENCE_MAX, false), ConnectorInput(parent, 3)],
                [Output(STAGING, c.vaultScript), Output(remainder - STAGING - CONTINUING_FEE, c.vaultScript),
                 Output(CONNECTOR_VALUE_SATS, c.controllerScript)])
  }

  function WithdrawalTx(c: Config, parent: Hash): Transaction {
    Transaction([Input(parent, 0, STAGING, EMERGENCY_SEQUENCE, false), ConnectorInput(parent, 2)],
                [Output(EMERGENCY_ACCESS_SATS, c.emergencyScript)])
  }

  /** Every transaction of the year: each one spends the one before it, the trigger the rollover. */
  ghost predicate IsWalk(h: Hasher, c: Config, txs: seq<Transaction>)
    requires ValidConfig(c)
  {
    && |txs| == TRANSACTION_COUNT
    && (forall i :: 0 <= i < |txs| ==> Accepted(txs[i]))
    && txs[0] == RolloverTx(c)
    && (forall k :: 0 <= k < MONTHLY_STEPS ==> txs[k + 1] == AuthorizationTx(c, k, TxidBytes(h, txs[k])))
    && txs[13] == TriggerTx(c, TxidBytes(h, txs[0]))
    && txs[14] == WithdrawalTx(c, TxidBytes(h, txs[13]))
  }

  /** `walk_transactions`: no step runs out of value and no serialization overflows, whatever the
      number of rollover inputs. */
  method WalkTransactions(h: Hasher, c: Config) returns (r: Result<seq<Transaction>>)
    requires ValidConfig(c)
    ensures r.Success? && IsWalk(h, c, r.value)
  {
    hide TxidBytes, TxBytes, ChainTotal;
    ghost var n := |c.rolloverInputs|;
    WalkAmounts(n, MONTHLY_STEPS);
    var fees := SignerVsize(|c.rolloverInputs|, 0, 4);
    var chain: nat := MONTHLY_ALLOWANCE_SATS * MONTHLY_STEPS + SignerVsize(1, 1, 3).value * (MONTHLY_STEPS - 1)
                      + SignerVsize(1, 1, 1).value - CONNECTOR_VALUE_SATS;
    if VAULT_BALANCE_SATS < chain + fees.value + 2 * CONNECTOR_VALUE_SATS {
      return Failure("insufficient value");
    }
    var remainder: U64 := VAULT_BALANCE_SATS - chain - fees.value - 2 * CONNECTOR_VALUE_SATS;
    var created := NewTransaction(c.rolloverInputs,
                     [Output(chain, c.vaultScript), Output(remainder, c.vaultScript),
                      Output(CONNECTOR_VALUE_SATS, c.controllerScript), Output(CONNECTOR_VALUE_SATS, c.controllerScript)]);
    var rollover := created.value;
    assert rollover == RolloverTx(c);
    var txs := [rollover];
    var rolloverTxidResult := ComputeTxid(h, rollover);
    if rolloverTxidResult.Failure? {
      return Failure("serialization overflow");
    }
    var rolloverTxid := rolloverTxidResult.value;
    var chainInput := ChainInput(rolloverTxid, 0, chain);
    var connector := ConnectorInput(rolloverTxid, 2);
    for k := 0 to MONTHLY_STEPS
      invariant |txs| == k + 1 && txs[0] == rollover && forall i :: 0 <= i < |txs| ==> Accepted(txs[i])
      invariant forall j :: 0 <= j < k ==> txs[j + 1] == AuthorizationTx(c, j, TxidBytes(h, txs[j]))
      invariant k < MONTHLY_STEPS ==>
                  && chainInput == ChainInput(TxidBytes(h, txs[k]), ChainVout(k), ChainAt(k))
                  && connector == ConnectorInput(TxidBytes(h, txs[k]), 2)
    {
      var authorizationResult := Authorize(c, k, chainInput, connector);
      if authorizationResult.Failure? {
        return Failure("serialization overflow");
      }
      var authorization := authorizationResult.value;
      txs := txs + [authorization];
      var txidResult := ComputeTxid(h, authorization);
      if txidResult.Failure? {
        return Failure("serialization overflow");
      }
      var txid := txidResult.value;
      if k + 1 < MONTHLY_STEPS {
        chainInput := ChainInput(txid, 1, authorization.outputs[1].amount);
        connector := ConnectorInput(txid, 2);
      }
    }
    var triggerResult := BuildTriggerTx(c, rolloverTxid, remainder);
    if triggerResult.Failure? {
      return Failure("serialization overflow");
    }
    var trigger := triggerResult.value;
    var triggerTxidResult := ComputeTxid(h, trigger);
    if triggerTxidResult.Failure? {
      return Failure("serialization overflow");
    }
    var triggerTxid := triggerTxidResult.value;
    var withdrawal := NewTransaction([Input(triggerTxid, 0, trigger.outputs[0].amount, EMERGENCY_SEQUENCE, false), ConnectorInput(triggerTxid, 2)],
                                     [Output(EMERGENCY_ACCESS_SATS, c.emergencyScript)]);
    return Success(txs + [trigger, withdrawal.value]);
  }

  function ChainAt(k: nat): U64
    requires k < MONTHLY_STEPS
  {
    WalkAmounts(1, MONTHLY_STEPS - k);
    ChainTotal(MONTHLY_STEPS - k, MONTHLY_ALLOWANCE_SATS)
  }

  // One pass of the walk's loop.
  method Authorize(c: Config, k: nat, chain: Input, connector: Input) returns (r: Result<Transaction>)
    requires ValidConfig(c) && k < MONTHLY_STEPS
    requires chain == ChainInput(chain.txid, ChainVout(k), ChainAt(k)) && connector == ConnectorInput(chain.txid, 2)
    ensures r == Success(AuthorizationTx(c, k, chain.txid))
    ensures k + 1 < MONTHLY_STEPS ==> |r.value.outputs| == 3 && r.value.outputs[1].amount == ChainAt(k + 1)
    ensures Accepted(r.value)
  {
    WalkAmounts(1, MONTHLY_STEPS - k);
    hide ChainTotal;
    var hasNext := k + 1 < MONTHLY_STEPS;
    var fee := if hasNext then SignerVsize(1, 1, 3).value else SignerVsize(1, 1, 1).value;
    var available := chain.amount + if hasNext then 0 else CONNECTOR_VALUE_SATS;
    if available < MONTHLY_ALLOWANCE_SATS + fee {
      return Failure("insufficient value");
    }
    var next: U64 := available - MONTHLY_ALLOWANCE_SATS - fee;
    var hot := Output(MONTHLY_ALLOWANCE_SATS, c.monthlyScripts[k]);
    if hasNext {
      WalkAmounts(1, MONTHLY_STEPS - k - 1);
      r := NewTransaction([chain, connector], [hot, Output(next, c.vaultScript), Output(CONNECTOR_VALUE_SATS, c.controllerScript)]);
    } else {
      if next != 0 {
        return Failure("insufficient value");
      }
      r := NewTransaction([chain, connector], [hot]);
    }
  }

  method BuildTriggerTx(c: Config, rolloverTxid: Hash, remainder: U64) returns (r: Result<Transaction>)
    requires ValidConfig(c) && remainder == RemainderValue(|c.rolloverInputs|)
    ensures r == Success(TriggerTx(c, rolloverTxid)) && Accepted(r.value)
  {
    WalkAmounts(|c.rolloverInputs|, 1);
    hide ChainTotal, RemainderValue;
    var staging: U64 := EMERGENCY_ACCESS_SATS + SignerVsize(1, 1, 1).value - CONNECTOR_VALUE_SATS;
    var fee := SignerVsize(1, 1, 3).value;
    if remainder < staging + fee {
      return Failure("insufficient value");
    }
    r := NewTransaction([Input(rolloverTxid, 1, remainder, SEQUENCE_MAX, false), ConnectorInput(rolloverTxid, 3)],
                        [Output(staging, c.vaultScript), Output(remainder - staging - fee, c.vaultScript),
                         Output(CONNECTOR_VALUE_SATS, c.controllerScript)]);
  }

  // ----- The jobs of the whole walk -----

  /** How many inputs of a transaction the vault key signs. */
  function VaultInputs(tx: Transaction, upto: nat): nat
    requires upto <= |tx.inputs|
  {
    if upto == 0 then 0 else VaultInputs(tx, upto - 1) + if tx.inputs[upto - 1].controller then 0 else 1
  }

  lemma {:induction false} JobsCount(h: Hasher, tx: Transaction, context: Context, t: nat, first: nat, upto: nat)
    requires upto <= |tx.inputs|
    ensures |Jobs(h, tx, context, t, first, upto)| == VaultInputs(tx, upto)
  {
    if upto > 0 {
      JobsCount(h, tx, context, t, first, upto - 1);
    }
  }

  lemma {:induction false} AllVaultInputs(tx: Transaction, upto: nat)
    requires upto <= |tx.inputs| && forall i :: 0 <= i < |tx.inputs| ==> !tx.inputs[i].controller
    ensures VaultInputs(tx, upto) == upto
  {
    if upto > 0 {
      AllVaultInputs(tx, upto - 1);
    }
  }

  // Every transaction after the rollover has one vault input and one connector.
  lemma {:induction false} OneJobEach(h: Hasher, c: Config, txs: seq<Transaction>, i: nat)
    requires ValidConfig(c) && IsWalk(h, c, txs) && i < |txs|
    ensures |txs[i].inputs| <= MAX_ROLLOVER_INPUTS && Accepted(txs[i])
    ensures VaultInputs(txs[i], |txs[i].inputs|) == if i == 0 then |c.rolloverInputs| else 1
  {
    hide ChainTotal, TxidBytes;
    if i == 0 {
      AllVaultInputs(txs[0], |txs[0].inputs|);
    } else {
      assert 1 <= i <= MONTHLY_STEPS ==> txs[i] == AuthorizationTx(c, i - 1, TxidBytes(h, txs[i - 1]));
      var tx := txs[i];
      assert |tx.inputs| == 2 && !tx.inputs[0].controller && tx.inputs[1].controller;
      assert VaultInputs(tx, 1) == 1 && VaultInputs(tx, 2) == 1;
    }
  }

  /** What every signature of the walk is made under. */
  function YearContext(c: Config): Context {
    Context(c.vaultScript, c.controllerScript, c.leaf)
  }

  /** The jobs of the first n transactions, numbered on from one transaction to the next. */
  function YearJobs(h: Hasher, c: Config, txs: seq<Transaction>, n: nat): seq<Job>
    requires n <= |txs|
  {
    if n == 0 then []
    else
      var before := YearJobs(h, c, txs, n - 1);
      before + Jobs(h, txs[n - 1], YearContext(c), n - 1, |before|, |txs[n - 1].inputs|)
  }

  /** `for_each_signature_job`: the jobs of all transactions of the walk; one for each rollover input and
      fourteen more, so the byte-sized counter never wraps. */
  method SignatureJobs(h: Hasher, c: Config) returns (r: Result<seq<Job>>, ghost txs: seq<Transaction>)
    requires ValidConfig(c)
    ensures IsWalk(h, c, txs)
    ensures r == Success(YearJobs(h, c, txs, |txs|)) && |r.value| == |c.rolloverInputs| + 14 <= MAX_SIGNATURE_JOBS
  {
    hide IsWalk, ChainTotal, Sighash, Accepted;
    var txsResult := WalkTransactions(h, c);
    txs := txsResult.value;
    var walk := txsResult.value;
    assert |txs| == TRANSACTION_COUNT by { WalkLength(h, c, txs); }
    var jobs: seq<Job> := [];
    for t := 0 to |walk|
      invariant jobs == YearJobs(h, c, txs, t) && |jobs| == (if t == 0 then 0 else |c.rolloverInputs| + t - 1)
    {
      OneJobEach(h, c, txs, t);
      var moreResult := ForEachSighash(h, walk[t], YearContext(c), t, |jobs|);
      if moreResult.Failure? {
        return Failure("serialization overflow"), txs;
      }
      JobsCount(h, txs[t], YearContext(c), t, |jobs|, |txs[t].inputs|);
      jobs := jobs + moreResult.value;
    }
    r := Success(jobs);
  }

  /** Every job of the year: numbered from zero without gaps, over exactly the inputs that are not
      connectors, each with the digest of its own transaction and input. */
  lemma {:induction false} YearJobsAreExact(h: Hasher, c: Config, txs: seq<Transaction>, n: nat)
    requires n <= |txs|
    ensures var jobs := YearJobs(h, c, txs, n);
            && (forall k :: 0 <= k < |jobs| ==> IsYearJob(h, c, txs, n, jobs[k], k))
            && (forall t, i :: 0 <= t < n && 0 <= i < |txs[t].inputs| && !txs[t].inputs[i].controller ==> HasJob(jobs, t, i))
  {
    hide Sighash;
    if n > 0 {
      YearJobsAreExact(h, c, txs, n - 1);
      var before, jobs := YearJobs(h, c, txs, n - 1), YearJobs(h, c, txs, n);
      var more := Jobs(h, txs[n - 1], YearContext(c), n - 1, |before|, |txs[n - 1].inputs|);
      JobsAreContiguous(h, txs[n - 1], YearContext(c), n - 1, |before|, |txs[n - 1].inputs|);
      assert jobs == before + more;
      hide Jobs, YearJobs;
      forall k | 0 <= k < |jobs|
        ensures IsYearJob(h, c, txs, n, jobs[k], k)
      {
        if k < |before| {
          assert IsYearJob(h, c, txs, n - 1, before[k], k);
        } else {
          assert jobs[k] == more[k - |before|];
        }
      }
      hide IsYearJob;
      forall t, i | 0 <= t < n && 0 <= i < |txs[t].inputs| && !txs[t].inputs[i].controller
        ensures HasJob(jobs, t, i)
      {
        if t < n - 1 {
          var k: nat :| k < |before| && before[k].transactionIndex == t && before[k].inputIndex == i;
          assert jobs[k] == before[k];
        } else {
          var k :| 0 <= k < |more| && more[k].inputIndex == i;
          assert jobs[|before| + k] == more[k];
        }
      }
    }
  }

  /** Job k of the year: an input that is not a connector, with its own transaction's digest. */
  ghost predicate IsYearJob(h: Hasher, c: Config, txs: seq<Transaction>, n: nat, job: Job, k: nat)
    requires n <= |txs|
  {
    && job.signatureIndex == k && job.transactionIndex < n
    && var tx := txs[job.transactionIndex];
    && job.inputIndex < |tx.inputs| && !tx.inputs[job.inputIndex].controller
    && job.sighash == Sighash(h, tx, YearContext(c), job.inputIndex)
  }

  predicate HasJob(jobs: seq<Job>, t: nat, i: nat) {
    exists k: nat :: k < |jobs| && jobs[k].transactionIndex == t && jobs[k].inputIndex == i
  }

  lemma {:induction false} WalkLength(h: Hasher, c: Config, txs: seq<Transaction>)
    requires ValidConfig(c) && IsWalk(h, c, txs)
    ensures |txs| == TRANSACTION_COUNT
  {
  }

  function Inflow(inputs: seq<Input>): nat {
    if inputs == [] then 0 else inputs[0].amount + Inflow(inputs[1..])
  }

  /** The benchmark's fake deposits: an equal split, with what is left over on the first. */
  function DepositAmount(n: nat, i: nat): U64
    requires 1 <= n <= MAX_ROLLOVER_INPUTS && i < n
  {
    VAULT_BALANCE_SATS / n + if i == 0 then VAULT_BALANCE_SATS % n else 0
  }

  lemma {:induction false} SplitSum(inputs: seq<Input>, share: U64)
    requires forall i :: 0 <= i < |inputs| ==> inputs[i].amount == share
    ensures Inflow(inputs) == share * |inputs|
  {
    if inputs != [] {
      SplitSum(inputs[1..], share);
      assert share * |inputs| == share * (|inputs| - 1) + share;
    }
  }

  /** The split adds up to the balance. */
  lemma {:induction false} DepositsAddUp(inputs: seq<Input>)
    requires 1 <= |inputs| <= MAX_ROLLOVER_INPUTS
    requires forall i :: 0 <= i < |inputs| ==> inputs[i].amount == DepositAmount(|inputs|, i)
    ensures Inflow(inputs) == VAULT_BALANCE_SATS
  {
    var share: U64 := VAULT_BALANCE_SATS / |inputs|;
    SplitSum(inputs[1..], share);
    QuotientAndRemainder(VAULT_BALANCE_SATS, |inputs|);
    assert inputs[0].amount == share + VAULT_BALANCE_SATS % |inputs|;
    assert Inflow(inputs) == inputs[0].amount + Inflow(inputs[1..]);
  }

  /** The year spends exactly the balance: the allowances, the emergency amount, the vault change and
      every fee. */
  lemma {:induction false} WalkConserves(c: Config, parent: Hash)
    requires ValidConfig(c)
    ensures VAULT_BALANCE_SATS == MONTHLY_STEPS * MONTHLY_ALLOWANCE_SATS + EMERGENCY_ACCESS_SATS
                                  + TriggerTx(c, parent).outputs[1].amount
                                  + P2trVsize(|c.rolloverInputs|, 0, 4) + 12 * CONTINUING_FEE + 2 * FINAL_FEE
  {
    var n := |c.rolloverInputs|;
    WalkAmounts(n, 12);
    hide ChainTotal, P2trVsize;
    assert TriggerTx(c, parent).outputs[1].amount == RemainderValue(n) - STAGING - CONTINUING_FEE;
  }

  lemma {:induction false} QuotientAndRemainder(a: nat, n: nat)
    requires n >= 1
    ensures a / n + a % n + (a / n) * (n - 1) == a
  {
    assert (a / n) * (n - 1) == (a / n) * n - a / n;
  }
}
