/** The signer's walk and the policy builder's graph are the same transactions
    (cold-signer/src/benchmark.rs, src/core/ceremony.rs). */
module SignerGraph {
  import opened Wrappers
  import opened Bytes
  import opened Bitcoin
  import opened Fees
  import opened Ceremony
  import opened Selection
  import opened Proposal
  import opened Graph
  import opened SignerTransactions
  import opened SignerWalk
  import Renewal
  import Collision

  // ----- The walk on its own: who spends what -----

  /** The transaction whose outputs transaction i spends. */
  function ParentIndex(i: nat): nat
    requires 0 < i < TRANSACTION_COUNT
  {
    if i <= MONTHLY_STEPS then i - 1 else if i == 13 then 0 else 13
  }

  /** The input spends this output of that transaction: it names its txid and its place, carries its amount,
      and is a controller input exactly when the output pays the controller script. */
  predicate SpendsOutput(h: Hasher, c: Config, t: Input, parent: Transaction)
    requires Accepted(parent)
  {
    && t.txid == TxidBytes(h, parent) && t.vout < |parent.outputs|
    && t.amount == parent.outputs[t.vout].amount
    && parent.outputs[t.vout].script == (if t.controller then c.controllerScript else c.vaultScript)
  }

  /** Every input after the rollover spends an output that exists, and no output is spent twice. */
  lemma {:induction false} WalkSpends(h: Hasher, c: Config, txs: seq<Transaction>, i: nat, j: nat)
    requires ValidConfig(c) && IsWalk(h, c, txs) && 0 < i < TRANSACTION_COUNT && j < |txs[i].inputs|
    ensures ParentIndex(i) < i && Accepted(txs[ParentIndex(i)]) && SpendsOutput(h, c, txs[i].inputs[j], txs[ParentIndex(i)])
    ensures txs[i].inputs[j].vout == (if j == 0 then (if i == 1 || i == 14 then 0 else 1) else if i == 13 then 3 else 2)
    ensures |txs[i].inputs| == 2
  {
    hide TxidBytes, ChainTotal, RemainderValue;
    if i <= MONTHLY_STEPS {
      assert txs[i - 1 + 1] == AuthorizationTx(c, i - 1, TxidBytes(h, txs[i - 1]));
      if i > 1 {
        assert txs[i - 2 + 1] == AuthorizationTx(c, i - 2, TxidBytes(h, txs[i - 2]));
      }
    }
  }

  lemma {:induction false} WalkSpendsOnce(h: Hasher, c: Config, txs: seq<Transaction>, i: nat, j: nat, k: nat, l: nat)
    requires ValidConfig(c) && IsWalk(h, c, txs) && 0 < i < TRANSACTION_COUNT && 0 < k < TRANSACTION_COUNT
    requires j < |txs[i].inputs| && l < |txs[k].inputs| && (i != k || j != l)
    ensures ParentIndex(i) != ParentIndex(k) || txs[i].inputs[j].vout != txs[k].inputs[l].vout
  {
    WalkSpends(h, c, txs, i, j);
    WalkSpends(h, c, txs, k, l);
    hide IsWalk;
  }

  /** The signature message of a walk's input records the script that the spent output pays. */
  lemma {:induction false} JobsCommitToSpentScripts(h: Hasher, c: Config, txs: seq<Transaction>, i: nat, j: nat)
    requires ValidConfig(c) && IsWalk(h, c, txs) && 0 < i < TRANSACTION_COUNT && j < |txs[i].inputs|
    ensures txs[i].inputs[j].vout < |txs[ParentIndex(i)].outputs|
    ensures ScriptChunks(txs[i], YearContext(c))[j] == [34] + txs[ParentIndex(i)].outputs[txs[i].inputs[j].vout].script
    ensures YearContext(c).leaf == c.leaf
  {
    WalkSpends(h, c, txs, i, j);
    hide IsWalk;
  }

  // ----- Rendering -----

  /** How symbolic scripts and txids are written as bytes. */
  datatype Rendering = Rendering(script: Script -> ScriptBytes, txid: Txid -> Hash)

  predicate RendersInput(r: Rendering, controller: Script, i: TxIn, spent: TxOut, t: Input) {
    && t.txid == r.txid(i.prevout.txid) && t.vout == i.prevout.vout && t.sequence == i.sequence
    && t.amount == spent.value && (t.controller <==> spent.script == controller)
  }

  predicate RendersOutput(r: Rendering, o: TxOut, t: Output) {
    t.amount == o.value && t.script == r.script(o.script)
  }

  /** The signer's transaction is this transaction, spending these outputs. */
  ghost predicate Renders(r: Rendering, controller: Script, tx: Tx, spent: seq<TxOut>, t: Transaction) {
    && tx.version == 2 && tx.lockTime == 0
    && |t.inputs| == |tx.inputs| == |spent| && |t.outputs| == |tx.outputs|
    && (forall i :: 0 <= i < |t.inputs| ==> RendersInput(r, controller, tx.inputs[i], spent[i], t.inputs[i]))
    && (forall i :: 0 <= i < |t.outputs| ==> RendersOutput(r, tx.outputs[i], t.outputs[i]))
  }

  /** A txid is written as the double hash of the rendered transaction. */
  ghost predicate TxidsAgree(r: Rendering, h: Hasher) {
    forall controller, tx, spent, t :: Accepted(t) && Renders(r, controller, tx, spent, t) ==> r.txid(TxidOf(tx)) == TxidBytes(h, t)
  }

  // ----- Such a rendering exists -----

  function WrittenOutputs(script: Script -> ScriptBytes, outputs: seq<TxOut>): seq<Output> {
    seq(|outputs|, i requires 0 <= i < |outputs| => Output(outputs[i].value, script(outputs[i].script)))
  }

  /** The hash of a transaction's bytes, given how scripts and outside txids are written. */
  function WrittenTxid(h: Hasher, script: Script -> ScriptBytes, outside: nat -> Hash, txid: Txid): Hash
    decreases txid
  {
    match txid
    case External(id) => outside(id)
    case TxidOf(tx) =>
      var inputs := seq(|tx.inputs|, i requires 0 <= i < |tx.inputs| =>
        Input(WrittenTxid(h, script, outside, tx.inputs[i].prevout.txid), tx.inputs[i].prevout.vout, 0, tx.inputs[i].sequence, false));
      var t := Transaction(inputs, WrittenOutputs(script, tx.outputs));
      if Accepted(t) then TxidBytes(h, t) else outside(0)
  }

  // A transaction's bytes do not record what its inputs are worth or whose they are.
  lemma {:induction false} BytesIgnoreAmounts(a: Transaction, b: Transaction)
    requires Accepted(a) && a.outputs == b.outputs && |a.inputs| == |b.inputs|
    requires forall i :: 0 <= i < |a.inputs| ==>
               && a.inputs[i].txid == b.inputs[i].txid && a.inputs[i].vout == b.inputs[i].vout
               && a.inputs[i].sequence == b.inputs[i].sequence
    ensures TxBytes(a) == TxBytes(b)
  {
    assert InputChunks(a.inputs) == InputChunks(b.inputs);
    hide LittleEndian, Concat;
  }

  lemma {:induction false} RenderingExists(h: Hasher, script: Script -> ScriptBytes, outside: nat -> Hash)
    ensures TxidsAgree(Rendering(script, txid => WrittenTxid(h, script, outside, txid)), h)
  {
    var r := Rendering(script, txid => WrittenTxid(h, script, outside, txid));
    forall controller, tx, spent, t | Accepted(t) && Renders(r, controller, tx, spent, t)
      ensures r.txid(TxidOf(tx)) == TxidBytes(h, t)
    {
      var inputs := seq(|tx.inputs|, i requires 0 <= i < |tx.inputs| =>
        Input(WrittenTxid(h, script, outside, tx.inputs[i].prevout.txid), tx.inputs[i].prevout.vout, 0, tx.inputs[i].sequence, false));
      var u := Transaction(inputs, WrittenOutputs(script, tx.outputs));
      forall i | 0 <= i < |t.inputs|
        ensures t.inputs[i].txid == u.inputs[i].txid && t.inputs[i].vout == u.inputs[i].vout && t.inputs[i].sequence == u.inputs[i].sequence
      {
        assert RendersInput(r, controller, tx.inputs[i], spent[i], t.inputs[i]);
      }
      assert t.outputs == u.outputs by {
        forall i | 0 <= i < |t.outputs|
          ensures t.outputs[i] == u.outputs[i]
        {
          assert RendersOutput(r, tx.outputs[i], t.outputs[i]);
        }
      }
      BytesIgnoreAmounts(t, u);
      hide TxBytes;
    }
  }

  /** What a transaction below the rollover spends. */
  function SpentBy(tx: Tx): seq<TxOut> {
    seq(|tx.inputs|, i requires 0 <= i < |tx.inputs| =>
      var o := tx.inputs[i].prevout;
      if o.txid.TxidOf? && o.vout < |o.txid.tx.outputs| then o.txid.tx.outputs[o.vout] else TxOut(0, HotScript(P2tr, Foreign(0))))
  }

  /** The graph's transactions in the order of the walk. */
  function Member(g: Graph, i: nat): Tx
    requires i < TRANSACTION_COUNT && |g.authorizations| == MONTHLY_STEPS && g.emergency.Some?
  {
    if i == 0 then g.rollover else if i <= MONTHLY_STEPS then g.authorizations[i - 1]
    else if i == 13 then g.emergency.value.0 else g.emergency.value.1
  }

  function SpentByMember(g: Graph, vaults: seq<Utxo>, i: nat): seq<TxOut>
    requires i < TRANSACTION_COUNT && |g.authorizations| == MONTHLY_STEPS && g.emergency.Some?
  {
    if i == 0 then Outputs(vaults) else SpentBy(Member(g, i))
  }

  // ----- The builder's graph for the signer's year -----

  /** What the builder returns for the signer's balance and limits. */
  ghost predicate YearBatch(config: VaultConfig, vaults: seq<Utxo>, first: nat, batch: Batch) {
    && 1 <= |vaults| <= MAX_ROLLOVER_INPUTS && UtxoSum(vaults) == VAULT_BALANCE_SATS
    && ValidBatch(config, batch)
    && ProposalFor(config, vaults, [], MONTHLY_ALLOWANCE_SATS, EMERGENCY_ACCESS_SATS, first, batch)
  }

  lemma {:induction false} YearCount(n: nat)
    requires 1 <= n <= MAX_ROLLOVER_INPUTS
    ensures SelectedCount(n, 0, VAULT_BALANCE_SATS, MONTHLY_ALLOWANCE_SATS, EMERGENCY_ACCESS_SATS) == MONTHLY_STEPS
    ensures PlannedRemainder(n, 0, VAULT_BALANCE_SATS, MONTHLY_ALLOWANCE_SATS, EMERGENCY_ACCESS_SATS) == RemainderValue(n)
    ensures !SearchFails(n, 0, VAULT_BALANCE_SATS, MONTHLY_ALLOWANCE_SATS, EMERGENCY_ACCESS_SATS)
  {
    WalkAmounts(n, 1);
    FullYear(n, 0, VAULT_BALANCE_SATS, MONTHLY_ALLOWANCE_SATS, EMERGENCY_ACCESS_SATS);
    hide SelectedCount, ChainTotal, P2trVsize;
  }

  /** The builder accepts the signer's balance and limits for every number of rollover inputs. */
  lemma {:induction false} YearIsBuildable(config: VaultConfig, vaults: seq<Utxo>)
    requires 1 <= |vaults| <= MAX_ROLLOVER_INPUTS && UtxoSum(vaults) == VAULT_BALANCE_SATS && AllUnder(vaults, config.Vault())
    ensures Buildable(config, vaults, [], MONTHLY_ALLOWANCE_SATS, EMERGENCY_ACCESS_SATS, config.phone)
  {
    YearCount(|vaults|);
    assert UtxoSum([]) == 0;
    hide SelectedCount, ChainTotal, P2trVsize;
  }

  ghost predicate YearRollover(config: VaultConfig, vaults: seq<Utxo>, g: Graph) {
    && |g.authorizations| == MONTHLY_STEPS && g.emergency.Some? && g.remainderVout == 1 && g.emergencyVout == 3
    && 0 <= RemainderOf(vaults) <= MAX_U64
    && g.rollover == Tx(2, 0, SpendAll(vaults, SEQUENCE_MAX),
                        [TxOut(120_002_886, config.Vault()), TxOut(RemainderOf(vaults), config.Vault()),
                         ConnectorOutput(config.Controller()), ConnectorOutput(config.Controller())])
  }

  function RemainderOf(vaults: seq<Utxo>): int {
    if |vaults| <= MAX_ROLLOVER_INPUTS then RemainderValue(|vaults|) else -1
  }

  lemma {:induction false} YearOutputs(config: VaultConfig, vaults: seq<Utxo>)
    requires 1 <= |vaults| <= MAX_ROLLOVER_INPUTS && UtxoSum(vaults) == VAULT_BALANCE_SATS
    ensures 0 <= RemainderOf(vaults) <= MAX_U64
    ensures Renewal.PlannedOutputs(config, vaults, [], MONTHLY_ALLOWANCE_SATS, EMERGENCY_ACCESS_SATS)
         == Some([TxOut(120_002_886, config.Vault()), TxOut(RemainderOf(vaults), config.Vault()),
                  ConnectorOutput(config.Controller()), ConnectorOutput(config.Controller())])
  {
    YearCount(|vaults|);
    WalkAmounts(|vaults|, 1);
    assert UtxoSum([]) == 0;
    hide SelectedCount, ChainTotal, PlannedRemainder, RemainderValue, UtxoSum;
    FourOutputs(120_002_886, RemainderOf(vaults), config.Vault(), config.Controller());
  }

  lemma {:induction false} FourOutputs(chain: U64, remainder: U64, vault: Script, controller: Script)
    ensures RolloverOutputs(Some(chain), remainder, vault, controller, true)
         == [TxOut(chain, vault), TxOut(remainder, vault), ConnectorOutput(controller), ConnectorOutput(controller)]
  {
  }

  lemma {:induction false} YearRolloverIs(config: VaultConfig, vaults: seq<Utxo>, first: nat, batch: Batch)
    requires YearBatch(config, vaults, first, batch)
    ensures YearRollover(config, vaults, GraphOf(config, batch)) && batch.manifest.emergency.Some?
  {
    YearParts(config, vaults, first, batch);
    YearOutputs(config, vaults);
    Renewal.RenewedRollover(config, vaults, [], MONTHLY_ALLOWANCE_SATS, EMERGENCY_ACCESS_SATS, first, batch);
    hide ValidBatch, ProposalFor, GraphOf, UtxoSum, RemainderValue, Renewal.PlannedOutputs;
    assert RolloverInputs(vaults, []) == SpendAll(vaults, SEQUENCE_MAX);
  }

  lemma {:induction false} YearParts(config: VaultConfig, vaults: seq<Utxo>, first: nat, batch: Batch)
    requires YearBatch(config, vaults, first, batch)
    ensures var g := GraphOf(config, batch);
            |g.authorizations| == MONTHLY_STEPS && g.emergency.Some? && g.remainderVout == 1 && g.emergencyVout == 3
    ensures batch.manifest.emergency.Some?
  {
    YearChain(config, vaults, first, batch, 0);
    GraphIsWellFormed(config, batch);
    Renewal.EmergencyBoth(config, batch);
    Renewal.RenewedLimit(config, vaults, [], MONTHLY_ALLOWANCE_SATS, EMERGENCY_ACCESS_SATS, first, batch);
    hide ValidBatch, ProposalFor, GraphOf, WellFormed, UtxoSum;
    GraphVouts(config, batch);
  }

  lemma {:induction false} GraphVouts(config: VaultConfig, batch: Batch)
    requires ValidBatch(config, batch)
    ensures GraphOf(config, batch).remainderVout == RemainderVout(batch.manifest)
    ensures GraphOf(config, batch).emergencyVout == EmergencyVout(batch.manifest)
  {
    hide ValidBatch;
  }

  /** Authorization k of the batch, for the signer's constants. */
  function YearStep(config: VaultConfig, g: Graph, hot: Script, k: nat): Tx
    requires k < |g.authorizations| == MONTHLY_STEPS
  {
    AuthorizationTemplate(g.ChainOutput(k), g.Connector(k), MONTHLY_ALLOWANCE_SATS, hot,
                          if k + 1 < MONTHLY_STEPS then Some(TxOut(ChainAt(k + 1), config.Vault())) else None, config.Controller())
  }

  lemma {:induction false} StepTemplate(config: VaultConfig, limit: U64, count: nat, files: Files, rollover: Tx, allowances: seq<AllowanceStep>,
                                        k: nat)
    requires |allowances| == count && k < count && ValidStep(config, limit, count, files, rollover, allowances, k)
    ensures allowances[k].authorization.file in files
    ensures var tx, parent := files[allowances[k].authorization.file].tx, ParentTx(files, rollover, allowances, k);
            && parent.Some?
            && |tx.outputs| == (if k + 1 < count then 3 else 1)
            && tx == AuthorizationTemplate(OutPoint(TxidOf(parent.value), ChainVout(k)), OutPoint(TxidOf(parent.value), 2), limit,
                                           allowances[k].hotAddress.script, if k + 1 < count then Some(tx.outputs[1]) else None,
                                           config.Controller())
            && (k + 1 < count ==> tx.outputs[1].script == config.Vault())
  {
    hide PolicyVsize, MinimalNonDust, ValidChild;
  }

  lemma {:induction false} YearStepIs(config: VaultConfig, vaults: seq<Utxo>, first: nat, batch: Batch, k: nat)
    requires YearBatch(config, vaults, first, batch) && k < MONTHLY_STEPS
    ensures var g := GraphOf(config, batch);
            && |g.authorizations| == |batch.manifest.allowances| == MONTHLY_STEPS
            && g.authorizations[k] == YearStep(config, g, batch.manifest.allowances[k].hotAddress.script, k)
            && ChainVout(k) < |g.Parent(k).outputs| && g.Parent(k).outputs[ChainVout(k)] == TxOut(ChainAt(k), config.Vault())
            && 2 < |g.Parent(k).outputs| && g.Parent(k).outputs[2] == ConnectorOutput(config.Controller())
  {
    hide ProposalFor, AuthorizationTemplate, ChainAt, UtxoSum;
    var m, files, g := batch.manifest, batch.files, GraphOf(config, batch);
    GraphIsWellFormed(config, batch);
    YearRolloverIs(config, vaults, first, batch);
    StepAt(config, batch, k);
    StepTemplate(config, m.monthlyLimit, m.allowanceCount, files, files[m.rollover.file].tx, m.allowances, k);
    YearChain(config, vaults, first, batch, k);
    ChainOutputValue(config, batch, k);
    if k + 1 < MONTHLY_STEPS {
      YearChain(config, vaults, first, batch, k + 1);
      ChainOutputValue(config, batch, k + 1);
    }
    EntriesPresent(config, batch);
    Renewal.RenewedLimit(config, vaults, [], MONTHLY_ALLOWANCE_SATS, EMERGENCY_ACCESS_SATS, first, batch);
    VaultAndController(config, batch);
    assert g.authorizations[k] == files[m.allowances[k].authorization.file].tx;
    assert ParentTx(files, files[m.rollover.file].tx, m.allowances, k) == Some(g.Parent(k));
    assert WellFormedStep(g, k);
    hide ValidBatch, ValidStep, GraphOf, WellFormed, YearRollover;
    assert k + 1 < MONTHLY_STEPS ==> g.Parent(k + 1) == g.authorizations[k];
  }

  lemma {:induction false} VaultAndController(config: VaultConfig, batch: Batch)
    requires ValidBatch(config, batch)
    ensures GraphOf(config, batch).vault == config.Vault() && GraphOf(config, batch).controller == config.Controller()
  {
    hide ValidBatch;
  }

  lemma {:induction false} ProposedChain(config: VaultConfig, vaults: seq<Utxo>, first: nat, batch: Batch, k: nat)
    requires YearBatch(config, vaults, first, batch) && k < |batch.manifest.allowances| == batch.manifest.allowanceCount
    ensures batch.manifest.allowances[k].chainValue
         == ChainTotal(batch.manifest.allowanceCount - k, MONTHLY_ALLOWANCE_SATS)
  {
    hide ValidBatch, PhoneSigned, RolloverShape, AddressesReplay, IndexRange, SelectedCount, ChainTotal, UtxoSum;
  }

  lemma {:induction false} ProposedCount(config: VaultConfig, vaults: seq<Utxo>, first: nat, batch: Batch)
    requires YearBatch(config, vaults, first, batch)
    ensures batch.manifest.allowanceCount
         == SelectedCount(|vaults|, 0, VAULT_BALANCE_SATS, MONTHLY_ALLOWANCE_SATS, EMERGENCY_ACCESS_SATS)
  {
    hide ValidBatch, PhoneSigned, RolloverShape, AddressesReplay, IndexRange, SelectedCount, ChainTotal;
    assert UtxoSum([]) == 0;
  }

  // The chain values of the batch are those of the walk.
  lemma {:induction false} YearChain(config: VaultConfig, vaults: seq<Utxo>, first: nat, batch: Batch, k: nat)
    requires YearBatch(config, vaults, first, batch) && k < MONTHLY_STEPS
    ensures batch.manifest.allowanceCount == |batch.manifest.allowances| == MONTHLY_STEPS
    ensures batch.manifest.allowances[k].chainValue == ChainAt(k)
  {
    hide ValidBatch, ProposalFor, UtxoSum, SelectedCount, ChainTotal, PlannedRemainder, RemainderValue;
    YearCount(|vaults|);
    AllowanceLength(config, batch);
    ProposedCount(config, vaults, first, batch);
    ProposedChain(config, vaults, first, batch, k);
    WalkAmounts(|vaults|, MONTHLY_STEPS - k);
  }

  lemma {:induction false} YearEmergencyIs(config: VaultConfig, vaults: seq<Utxo>, first: nat, batch: Batch)
    requires YearBatch(config, vaults, first, batch)
    ensures YearRollover(config, vaults, GraphOf(config, batch)) && batch.manifest.emergency.Some?
    ensures var g, e := GraphOf(config, batch), batch.manifest.emergency.value;
            var change := RemainderOf(vaults) - STAGING - 331;
            && 0 <= change <= MAX_U64
            && g.emergency.value.0 == TriggerTemplate(g.Remainder(), g.TriggerConnector(), STAGING, change, config.Vault(), config.Controller())
            && g.emergency.value.1 == WithdrawalTemplate(g.Staging(), g.WithdrawalConnector(), EMERGENCY_ACCESS_SATS, e.hotAddress.script)
  {
    hide ProposalFor, TriggerTemplate, WithdrawalTemplate, RemainderValue, UtxoSum;
    YearRolloverIs(config, vaults, first, batch);
    Renewal.EarlierTrigger(config, batch);
    EmergencyPaysP2tr(config, vaults, first, batch);
    Collision.EarlierStaging(config, batch);
    Renewal.RenewedLimit(config, vaults, [], MONTHLY_ALLOWANCE_SATS, EMERGENCY_ACCESS_SATS, first, batch);
    WithdrawalIs(config, batch);
    WalkAmounts(|vaults|, 1);
    hide ValidBatch, GraphOf;
  }

  lemma {:induction false} EmergencyPaysP2tr(config: VaultConfig, vaults: seq<Utxo>, first: nat, batch: Batch)
    requires YearBatch(config, vaults, first, batch)
    ensures Collision.WithdrawsToP2tr(batch.manifest)
  {
    Replays(config, vaults, [], MONTHLY_ALLOWANCE_SATS, EMERGENCY_ACCESS_SATS, first, batch);
    hide ValidBatch, ProposalFor;
  }

  lemma {:induction false} WithdrawalIs(config: VaultConfig, batch: Batch)
    requires ValidBatch(config, batch) && batch.manifest.emergency.Some?
    ensures var g, m := GraphOf(config, batch), batch.manifest;
            && g.emergency.Some?
            && g.emergency.value.1 == WithdrawalTemplate(g.Staging(), g.WithdrawalConnector(), m.emergencyLimit, m.emergency.value.hotAddress.script)
  {
    var m, files := batch.manifest, batch.files;
    BatchParts(config, batch);
    hide ValidBatch, ValidStep, ValidRollover, ValidEmergency, ManifestTransactions, ValidHeader;
    EmergencyShape(config, m.emergencyLimit, RemainderVout(m), EmergencyVout(m), files, files[m.rollover.file].tx, m.emergency.value);
  }

  // ----- The walk renders the graph -----

  /** The signer's configuration says in bytes what the batch and its scan say. */
  ghost predicate SameYear(config: VaultConfig, c: Config, r: Rendering, vaults: seq<Utxo>, batch: Batch) {
    var m := batch.manifest;
    && ValidConfig(c) && |c.rolloverInputs| == |vaults|
    && c.vaultScript == r.script(config.Vault()) && c.controllerScript == r.script(config.Controller())
    && (forall i :: 0 <= i < |vaults| ==>
          && vaults[i].txout.script == config.Vault()
          && c.rolloverInputs[i] == Input(r.txid(vaults[i].outpoint.txid), vaults[i].outpoint.vout, vaults[i].txout.value, SEQUENCE_MAX, false))
    && |m.allowances| == MONTHLY_STEPS
    && (forall k :: 0 <= k < MONTHLY_STEPS ==> c.monthlyScripts[k] == r.script(m.allowances[k].hotAddress.script))
    && (m.emergency.Some? ==> c.emergencyScript == r.script(m.emergency.value.hotAddress.script))
  }

  ghost predicate RendersMember(config: VaultConfig, r: Rendering, vaults: seq<Utxo>, g: Graph, t: Transaction, i: nat)
    requires i < TRANSACTION_COUNT && |g.authorizations| == MONTHLY_STEPS && g.emergency.Some?
  {
    Renders(r, config.Controller(), Member(g, i), SpentByMember(g, vaults, i), t)
  }

  lemma {:induction false} RolloverRenders(config: VaultConfig, c: Config, r: Rendering, vaults: seq<Utxo>, first: nat, batch: Batch)
    requires YearBatch(config, vaults, first, batch) && SameYear(config, c, r, vaults, batch)
    ensures YearRollover(config, vaults, GraphOf(config, batch))
    ensures RendersMember(config, r, vaults, GraphOf(config, batch), RolloverTx(c), 0)
  {
    YearRolloverIs(config, vaults, first, batch);
    hide ValidBatch, ProposalFor, GraphOf, YearRollover, UtxoSum, RolloverTx, Renders;
    RolloverRendersPlain(config, c, r, vaults, GraphOf(config, batch));
  }

  lemma {:induction false} RolloverRendersPlain(config: VaultConfig, c: Config, r: Rendering, vaults: seq<Utxo>, g: Graph)
    requires ValidConfig(c) && |c.rolloverInputs| == |vaults| && YearRollover(config, vaults, g)
    requires c.vaultScript == r.script(config.Vault()) && c.controllerScript == r.script(config.Controller())
    requires forall i :: 0 <= i < |vaults| ==>
               && vaults[i].txout.script == config.Vault()
               && c.rolloverInputs[i] == Input(r.txid(vaults[i].outpoint.txid), vaults[i].outpoint.vout, vaults[i].txout.value, SEQUENCE_MAX, false)
    ensures Renders(r, config.Controller(), g.rollover, Outputs(vaults), RolloverTx(c))
  {
    WalkAmounts(|vaults|, 1);
    hide ChainTotal, RemainderValue;
    assert |Outputs(vaults)| == |vaults| && forall i :: 0 <= i < |vaults| ==> Outputs(vaults)[i] == vaults[i].txout;
  }

  lemma {:induction false} StepRenders(config: VaultConfig, c: Config, r: Rendering, vaults: seq<Utxo>, first: nat, batch: Batch, k: nat,
                                       parent: Hash)
    requires YearBatch(config, vaults, first, batch) && SameYear(config, c, r, vaults, batch) && k < MONTHLY_STEPS
    requires |GraphOf(config, batch).authorizations| == MONTHLY_STEPS && GraphOf(config, batch).emergency.Some?
    requires parent == r.txid(TxidOf(GraphOf(config, batch).Parent(k)))
    ensures RendersMember(config, r, vaults, GraphOf(config, batch), AuthorizationTx(c, k, parent), k + 1)
  {
    YearStepIs(config, vaults, first, batch, k);
    hide ValidBatch, ProposalFor, GraphOf, ChainTotal, UtxoSum, YearStep, AuthorizationTx, Renders, ChainAt;
    StepRendersPlain(config, c, r, GraphOf(config, batch), k, parent, batch.manifest.allowances[k].hotAddress.script);
  }

  lemma {:induction false} StepRendersPlain(config: VaultConfig, c: Config, r: Rendering, g: Graph, k: nat, parent: Hash, hot: Script)
    requires ValidConfig(c) && k < MONTHLY_STEPS == |g.authorizations| && g.authorizations[k] == YearStep(config, g, hot, k)
    requires c.vaultScript == r.script(config.Vault()) && c.controllerScript == r.script(config.Controller())
    requires c.monthlyScripts[k] == r.script(hot) && parent == r.txid(TxidOf(g.Parent(k)))
    requires ChainVout(k) < |g.Parent(k).outputs| && g.Parent(k).outputs[ChainVout(k)] == TxOut(ChainAt(k), config.Vault())
    requires 2 < |g.Parent(k).outputs| && g.Parent(k).outputs[2] == ConnectorOutput(config.Controller())
    ensures Renders(r, config.Controller(), g.authorizations[k], SpentBy(g.authorizations[k]), AuthorizationTx(c, k, parent))
  {
    WalkAmounts(1, MONTHLY_STEPS - k);
    if k + 1 < MONTHLY_STEPS {
      WalkAmounts(1, MONTHLY_STEPS - k - 1);
    }
    hide ChainTotal;
    var spent := SpentBy(g.authorizations[k]);
    assert |spent| == 2 && spent[0] == TxOut(ChainAt(k), config.Vault()) && spent[1] == ConnectorOutput(config.Controller());
  }

  lemma {:induction false} TriggerRenders(config: VaultConfig, c: Config, r: Rendering, vaults: seq<Utxo>, first: nat, batch: Batch, parent: Hash)
    requires YearBatch(config, vaults, first, batch) && SameYear(config, c, r, vaults, batch)
    requires |GraphOf(config, batch).authorizations| == MONTHLY_STEPS && GraphOf(config, batch).emergency.Some?
    requires parent == r.txid(TxidOf(GraphOf(config, batch).rollover))
    ensures RendersMember(config, r, vaults, GraphOf(config, batch), TriggerTx(c, parent), 13)
  {
    YearEmergencyIs(config, vaults, first, batch);
    hide ValidBatch, ProposalFor, GraphOf, UtxoSum, TriggerTemplate, TriggerTx, YearRollover, Renders, RemainderOf, SpentBy;
    TriggerRendersPlain(config, c, r, vaults, GraphOf(config, batch), parent);
  }

  lemma {:induction false} TriggerRendersPlain(config: VaultConfig, c: Config, r: Rendering, vaults: seq<Utxo>, g: Graph, parent: Hash)
    requires ValidConfig(c) && |c.rolloverInputs| == |vaults| && YearRollover(config, vaults, g)
    requires c.vaultScript == r.script(config.Vault()) && c.controllerScript == r.script(config.Controller())
    requires parent == r.txid(TxidOf(g.rollover))
    requires var change := RemainderOf(vaults) - STAGING - 331;
             && 0 <= change <= MAX_U64
             && g.emergency.value.0 == TriggerTemplate(g.Remainder(), g.TriggerConnector(), STAGING, change, config.Vault(), config.Controller())
    ensures Renders(r, config.Controller(), g.emergency.value.0, SpentBy(g.emergency.value.0), TriggerTx(c, parent))
  {
    WalkAmounts(|vaults|, 1);
    hide ChainTotal, RemainderValue;
    var spent := SpentBy(g.emergency.value.0);
    assert |spent| == 2 && spent[0] == TxOut(RemainderOf(vaults), config.Vault()) && spent[1] == ConnectorOutput(config.Controller());
  }

  lemma {:induction false} WithdrawalRenders(config: VaultConfig, c: Config, r: Rendering, vaults: seq<Utxo>, first: nat, batch: Batch, parent: Hash)
    requires YearBatch(config, vaults, first, batch) && SameYear(config, c, r, vaults, batch)
    requires |GraphOf(config, batch).authorizations| == MONTHLY_STEPS && GraphOf(config, batch).emergency.Some?
    requires parent == r.txid(TxidOf(GraphOf(config, batch).emergency.value.0))
    ensures RendersMember(config, r, vaults, GraphOf(config, batch), WithdrawalTx(c, parent), 14)
  {
    hide ProposalFor, UtxoSum, YearRollover, RemainderOf, Renders, SpentBy, WithdrawalTx;
    YearEmergencyIs(config, vaults, first, batch);
    hide ValidBatch, GraphOf;
    WithdrawalRendersPlain(config, c, r, GraphOf(config, batch), batch.manifest.emergency.value.hotAddress.script, parent);
  }

  lemma {:induction false} WithdrawalRendersPlain(config: VaultConfig, c: Config, r: Rendering, g: Graph, hot: Script, parent: Hash)
    requires c.vaultScript == r.script(config.Vault()) && c.controllerScript == r.script(config.Controller()) && c.emergencyScript == r.script(hot)
    requires g.emergency.Some? && parent == r.txid(TxidOf(g.emergency.value.0))
    requires |g.emergency.value.0.outputs| == 3 && g.emergency.value.0.outputs[0] == TxOut(STAGING, config.Vault())
             && g.emergency.value.0.outputs[2] == ConnectorOutput(config.Controller())
    requires g.emergency.value.1 == WithdrawalTemplate(g.Staging(), g.WithdrawalConnector(), EMERGENCY_ACCESS_SATS, hot)
    ensures Renders(r, config.Controller(), g.emergency.value.1, SpentBy(g.emergency.value.1), WithdrawalTx(c, parent))
  {
    var spent := SpentBy(g.emergency.value.1);
    assert |spent| == 2 && spent[0] == TxOut(STAGING, config.Vault()) && spent[1] == ConnectorOutput(config.Controller());
  }

  /** Every transaction of the walk is the builder's transaction at the same place, written as bytes: the
      rollover, the twelve authorizations, the trigger and the withdrawal of any batch that the builder makes
      from this balance and these limits. */
  lemma {:induction false} WalkRendersGraph(h: Hasher, config: VaultConfig, c: Config, r: Rendering, vaults: seq<Utxo>, first: nat,
                                            batch: Batch, txs: seq<Transaction>, i: nat)
    requires YearBatch(config, vaults, first, batch) && SameYear(config, c, r, vaults, batch) && TxidsAgree(r, h)
    requires IsWalk(h, c, txs) && i < TRANSACTION_COUNT
    ensures WellFormed(GraphOf(config, batch))
    ensures |GraphOf(config, batch).authorizations| == MONTHLY_STEPS && GraphOf(config, batch).emergency.Some?
    ensures RendersMember(config, r, vaults, GraphOf(config, batch), txs[i], i)
  {
    var g := GraphOf(config, batch);
    GraphIsWellFormed(config, batch);
    YearParts(config, vaults, first, batch);
    hide ValidBatch, ProposalFor, GraphOf, WellFormed, TxidBytes, RolloverTx, AuthorizationTx, TriggerTx, WithdrawalTx, Renders, YearBatch,
         SameYear, TxidsAgree;
    if i == 0 {
      RolloverRenders(config, c, r, vaults, first, batch);
    } else {
      var p := ParentIndex(i);
      WalkRendersGraph(h, config, c, r, vaults, first, batch, txs, p);
      TxidOfMember(r, h, config.Controller(), Member(g, p), SpentByMember(g, vaults, p), txs[p]);
      if i <= MONTHLY_STEPS {
        assert Member(g, p) == g.Parent(p);
        assert txs[p + 1] == AuthorizationTx(c, p, TxidBytes(h, txs[p]));
        StepRenders(config, c, r, vaults, first, batch, p, TxidBytes(h, txs[p]));
      } else if i == 13 {
        TriggerRenders(config, c, r, vaults, first, batch, TxidBytes(h, txs[0]));
      } else {
        WithdrawalRenders(config, c, r, vaults, first, batch, TxidBytes(h, txs[13]));
      }
    }
  }

  lemma {:induction false} TxidOfMember(r: Rendering, h: Hasher, controller: Script, tx: Tx, spent: seq<TxOut>, t: Transaction)
    requires TxidsAgree(r, h) && Accepted(t) && Renders(r, controller, tx, spent, t)
    ensures r.txid(TxidOf(tx)) == TxidBytes(h, t)
  {
    hide Renders, TxidBytes;
  }
}
