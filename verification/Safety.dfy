/** What a batch can and cannot do once it is on the chain, over every run of the ledger. */
module Safety {
  import opened Wrappers
  import opened Bitcoin
  import opened Ceremony
  import opened Graph
  import opened Ledger

  // ----- Order and delay -----

  lemma {:induction false} Delays()
    ensures RelativeSeconds(2, MONTHLY_SEQUENCE) == MONTHLY_DELAY_SECONDS == 2_592_256
    ensures RelativeSeconds(2, EMERGENCY_SEQUENCE) == EMERGENCY_DELAY_SECONDS == 605_184
  {
  }

  /** A confirmed authorization has all its predecessors before it, each at least one month apart. */
  lemma {:induction false} ChainOrder(g: Graph, s: State, k: nat)
    requires WellFormed(g) && Consistent(s)
    requires k < |g.authorizations| && g.authorizations[k] in s.confirmed
    ensures g.rollover in s.confirmed
    ensures s.confirmed[g.authorizations[k]] >= s.confirmed[g.rollover] + (k + 1) * MONTHLY_DELAY_SECONDS
    ensures forall j :: 0 <= j <= k ==> g.authorizations[j] in s.confirmed
  {
    Delays();
    assert WellFormedStep(g, k);
    var tx := g.authorizations[k];
    assert tx.inputs[0] == TxIn(g.ChainOutput(k), MONTHLY_SEQUENCE);
    ParentFirst(s, tx, 0);
    hide WellFormed, Consistent;
    if k > 0 {
      ChainOrder(g, s, k - 1);
    }
  }

  lemma {:induction false} WithdrawalOrder(g: Graph, s: State)
    requires WellFormed(g) && Consistent(s) && g.emergency.Some?
    ensures g.emergency.value.1 in s.confirmed ==>
              && g.emergency.value.0 in s.confirmed
              && s.confirmed[g.emergency.value.1] >= s.confirmed[g.emergency.value.0] + EMERGENCY_DELAY_SECONDS
    ensures g.emergency.value.0 in s.confirmed ==>
              g.rollover in s.confirmed && s.confirmed[g.emergency.value.0] >= s.confirmed[g.rollover]
  {
    Delays();
    var (trigger, withdrawal) := g.emergency.value;
    assert withdrawal.inputs[0] == TxIn(g.Staging(), EMERGENCY_SEQUENCE);
    assert trigger.inputs[0] == TxIn(g.Remainder(), SEQUENCE_MAX);
    if withdrawal in s.confirmed {
      ParentFirst(s, withdrawal, 0);
    }
    if trigger in s.confirmed {
      ParentFirst(s, trigger, 0);
    }
    hide Consistent;
  }

  // ----- The spending bound -----

  predicate ConfirmedBy(s: State, tx: Tx, time: int) {
    tx in s.confirmed && s.confirmed[tx] <= time
  }

  /** How many of the first n authorizations have confirmed by `time`. */
  function Released(g: Graph, s: State, time: int, n: nat): nat
    requires n <= |g.authorizations|
  {
    if n == 0 then 0
    else Released(g, s, time, n - 1) + if ConfirmedBy(s, g.authorizations[n - 1], time) then 1 else 0
  }

  lemma {:induction false} ReleasedAtMost(g: Graph, s: State, time: int, n: nat)
    requires n <= |g.authorizations|
    ensures Released(g, s, time, n) <= n
  {
    if n > 0 {
      ReleasedAtMost(g, s, time, n - 1);
    }
  }

  lemma {:induction false} ReleasedInTime(g: Graph, s: State, n: nat, T: nat)
    requires WellFormed(g) && Consistent(s) && g.rollover in s.confirmed && n <= |g.authorizations|
    ensures Released(g, s, s.confirmed[g.rollover] + T, n) * MONTHLY_DELAY_SECONDS <= T
  {
    var time := s.confirmed[g.rollover] + T;
    if n > 0 {
      if ConfirmedBy(s, g.authorizations[n - 1], time) {
        ChainOrder(g, s, n - 1);
        ReleasedAtMost(g, s, time, n);
        assert Released(g, s, time, n) * MONTHLY_DELAY_SECONDS <= n * MONTHLY_DELAY_SECONDS;
      } else {
        ReleasedInTime(g, s, n - 1, T);
      }
    }
  }

  /** What a transaction pays outside the two policy scripts. */
  function Outflow(g: Graph, outputs: seq<TxOut>): nat {
    if outputs == [] then 0
    else (if outputs[0].script in {g.vault, g.controller} then 0 else outputs[0].value) + Outflow(g, outputs[1..])
  }

  /** What the batch's transactions confirmed by `time` pay outside the two policy scripts. */
  function TotalOutflow(g: Graph, s: State, time: int): nat {
    OutflowBy(g, s, g.rollover, time) + ChainOutflow(g, s, time, |g.authorizations|)
    + if g.emergency.Some? then OutflowBy(g, s, g.emergency.value.0, time) + OutflowBy(g, s, g.emergency.value.1, time) else 0
  }

  function OutflowBy(g: Graph, s: State, tx: Tx, time: int): nat {
    if ConfirmedBy(s, tx, time) then Outflow(g, tx.outputs) else 0
  }

  function ChainOutflow(g: Graph, s: State, time: int, n: nat): nat
    requires n <= |g.authorizations|
  {
    if n == 0 then 0 else ChainOutflow(g, s, time, n - 1) + OutflowBy(g, s, g.authorizations[n - 1], time)
  }

  lemma {:induction false} NoOutflow(g: Graph, outputs: seq<TxOut>)
    requires forall i :: 0 <= i < |outputs| ==> outputs[i].script in {g.vault, g.controller}
    ensures Outflow(g, outputs) == 0
  {
    if outputs != [] {
      NoOutflow(g, outputs[1..]);
    }
  }

  // An authorization pays out its limit and nothing else.
  lemma {:induction false} StepOutflow(g: Graph, k: nat)
    requires WellFormed(g) && k < |g.authorizations|
    ensures Outflow(g, g.authorizations[k].outputs) <= g.limit
  {
    assert WellFormedStep(g, k);
    var outputs := g.authorizations[k].outputs;
    forall i | 0 <= i < |outputs[1..]|
      ensures outputs[1..][i].script in {g.vault, g.controller}
    {
      assert WellFormedStep(g, k + 1);
    }
    NoOutflow(g, outputs[1..]);
  }

  lemma {:induction false} ChainOutflowBound(g: Graph, s: State, time: int, n: nat)
    requires WellFormed(g) && n <= |g.authorizations|
    ensures ChainOutflow(g, s, time, n) <= Released(g, s, time, n) * g.limit
  {
    if n > 0 {
      ChainOutflowBound(g, s, time, n - 1);
      StepOutflow(g, n - 1);
      hide WellFormed, Outflow;
      OneMore(Released(g, s, time, n - 1), g.limit);
    }
  }

  lemma {:induction false} OneMore(r: nat, limit: nat)
    ensures (r + 1) * limit == r * limit + limit
  {
  }

  lemma {:induction false} EmergencyOutflow(g: Graph)
    requires WellFormed(g) && g.emergency.Some?
    ensures Outflow(g, g.emergency.value.0.outputs) == 0
    ensures Outflow(g, g.emergency.value.1.outputs) <= g.amount
  {
    var (trigger, withdrawal) := g.emergency.value;
    forall i | 0 <= i < |trigger.outputs|
      ensures trigger.outputs[i].script in {g.vault, g.controller}
    {
    }
    NoOutflow(g, trigger.outputs);
    assert withdrawal.outputs[1..] == [];
  }

  /** Whether the emergency amount has left by `time`. */
  predicate EmergencyPaid(g: Graph, s: State, time: int) {
    g.emergency.Some? && ConfirmedBy(s, g.emergency.value.1, time)
  }

  /** The spending bound. Within T seconds of the rollover at most one allowance per full month of
      T confirms; all that the batch pays outside the policy scripts is at most the limit for each,
      and one emergency amount, which leaves no earlier than its delay after its trigger. */
  lemma {:induction false} SpendingBound(rules: Rules, states: seq<State>, events: seq<Event>, n: nat, g: Graph, T: nat)
    requires Run(rules, states, events) && n < |states| && WellFormed(g)
    requires g.rollover in states[n].confirmed
    ensures var s := states[n];
            var start := s.confirmed[g.rollover];
            var months := T / 2_592_256;
            && Released(g, s, start + T, |g.authorizations|) <= months
            && TotalOutflow(g, s, start + T) <= months * g.limit + (if EmergencyPaid(g, s, start + T) then g.amount else 0)
            && (EmergencyPaid(g, s, start + T) ==>
                  && g.emergency.value.0 in s.confirmed && g.emergency.value.1 in s.confirmed
                  && start <= s.confirmed[g.emergency.value.0] <= start + T - 605_184
                  && s.confirmed[g.emergency.value.1] >= s.confirmed[g.emergency.value.0] + 605_184)
  {
    var s := states[n];
    RunIsConsistent(rules, states, events, n);
    var time := s.confirmed[g.rollover] + T;
    var N := |g.authorizations|;
    var released, months := Released(g, s, time, N), T / 2_592_256;
    ReleasedInTime(g, s, N, T);
    Delays();
    assert released <= months by { QuotientBound(released, T); }
    ChainOutflowBound(g, s, time, N);
    assert released * g.limit <= months * g.limit by { MulMonotone(released, months, g.limit); }
    NoOutflow(g, g.rollover.outputs);
    if g.emergency.Some? {
      EmergencyOutflow(g);
      WithdrawalOrder(g, s);
    }
  }

  lemma {:induction false} QuotientBound(a: nat, T: nat)
    requires a * 2_592_256 <= T
    ensures a <= T / 2_592_256
  {
  }

  lemma {:induction false} MulMonotone(a: nat, b: nat, c: nat)
    requires a <= b
    ensures a * c <= b * c
  {
  }

  // ----- Revocation -----

  lemma {:induction false} ConnectorSpender(g: Graph, s: State, k: nat)
    requires WellFormed(g) && Consistent(s) && k < |g.authorizations|
    requires g.authorizations[k] in s.confirmed
    ensures g.Connector(k) in s.spent && s.spent[g.Connector(k)] == g.authorizations[k]
    ensures g.ChainOutput(k) in s.spent && s.spent[g.ChainOutput(k)] == g.authorizations[k]
  {
    assert WellFormedStep(g, k);
    var tx := g.authorizations[k];
    assert tx.inputs[1].prevout == g.Connector(k) && tx.inputs[0].prevout == g.ChainOutput(k);
    ConfirmedSpends(s, tx, 0);
    ConfirmedSpends(s, tx, 1);
    hide Consistent;
  }

  /** Someone else's transaction has spent connector i. */
  predicate Revoked(g: Graph, s: State, i: nat)
    requires i < |g.authorizations|
  {
    g.Connector(i) in s.spent && s.spent[g.Connector(i)] != g.authorizations[i]
  }

  /** Revocation is permanent and reaches the rest of the chain. */
  lemma {:induction false} RevocationIsPermanent(rules: Rules, states: seq<State>, events: seq<Event>, n: nat, m: nat,
                                                 g: Graph, i: nat)
    requires Run(rules, states, events) && n <= m < |states| && WellFormed(g)
    requires i < |g.authorizations| && Revoked(g, states[n], i)
    ensures Revoked(g, states[m], i)
    ensures forall j :: i <= j < |g.authorizations| ==> g.authorizations[j] !in states[m].confirmed
  {
    RunIsConsistent(rules, states, events, m);
    RunExtends(rules, states, events, n, m);
    hide Run, Consistent, WellFormed;
    forall j | i <= j < |g.authorizations|
      ensures g.authorizations[j] !in states[m].confirmed
    {
      if g.authorizations[j] in states[m].confirmed {
        ChainOrder(g, states[m], j);
        ConnectorSpender(g, states[m], i);
        assert false;
      }
    }
  }

  /** No cosigned transaction outside the batch touches the batch's own outputs. */
  ghost predicate Independent(rules: Rules, g: Graph) {
    && rules.vault == g.vault
    && forall tx, o :: tx in rules.cosigned && o in Prevouts(tx) && o.txid.TxidOf? && o.txid.tx in g.Transactions() ==>
         tx in g.Transactions()
  }

  lemma {:induction false} AuthorizationDepth(g: Graph, k: nat)
    requires WellFormed(g) && k <= |g.authorizations|
    ensures Depth(g.Parent(k)) == Depth(g.rollover) + k
  {
    if k > 0 {
      AuthorizationDepth(g, k - 1);
      assert WellFormedStep(g, k - 1);
      assert g.authorizations[k - 1].inputs[0].prevout == g.ChainOutput(k - 1);
      hide WellFormed;
    }
  }

  /** Within the batch, only authorization k spends chain output k. */
  lemma {:induction false} ChainSpenderInBatch(g: Graph, s: State, k: nat)
    requires WellFormed(g) && Consistent(s) && k < |g.authorizations|
    requires g.ChainOutput(k) in s.spent && s.spent[g.ChainOutput(k)] in g.Transactions()
    ensures s.spent[g.ChainOutput(k)] == g.authorizations[k]
  {
    var o := g.ChainOutput(k);
    var tx := s.spent[o];
    CreatedByParent(s, o);
    if tx == g.rollover {
      RolloverSpendsNoChild(g, s, k);
    } else if j :| 0 <= j < |g.authorizations| && g.authorizations[j] == tx {
      OneChainEach(g, j, k);
    } else {
      EmergencySpendsNoChain(g, k);
    }
    hide WellFormed, Consistent;
  }

  lemma {:induction false} OneChainEach(g: Graph, j: nat, k: nat)
    requires WellFormed(g) && j < |g.authorizations| && k < |g.authorizations|
    ensures g.ChainOutput(k) in Prevouts(g.authorizations[j]) ==> j == k
    ensures g.Connector(k) in Prevouts(g.authorizations[j]) ==> j == k
  {
    AuthorizationInputs(g, j);
    AuthorizationDepth(g, j);
    AuthorizationDepth(g, k);
    hide WellFormed;
  }

  lemma {:induction false} EmergencySpendsNoChain(g: Graph, k: nat)
    requires WellFormed(g) && g.emergency.Some? && k < |g.authorizations|
    ensures g.ChainOutput(k) !in Prevouts(g.emergency.value.0) + Prevouts(g.emergency.value.1)
  {
    EmergencyInputs(g);
    AuthorizationDepth(g, k);
    assert g.Remainder().vout == 1 && g.TriggerConnector().vout == 3;
    hide WellFormed;
  }

  lemma {:induction false} AuthorizationInputs(g: Graph, k: nat)
    requires WellFormed(g) && k < |g.authorizations|
    ensures Prevouts(g.authorizations[k]) == {g.ChainOutput(k), g.Connector(k)}
  {
    assert WellFormedStep(g, k);
    var tx := g.authorizations[k];
    assert tx.inputs[0].prevout == g.ChainOutput(k) && tx.inputs[1].prevout == g.Connector(k);
    hide WellFormed;
  }

  lemma {:induction false} EmergencyInputs(g: Graph)
    requires WellFormed(g) && g.emergency.Some?
    ensures Prevouts(g.emergency.value.0) == {g.Remainder(), g.TriggerConnector()}
    ensures Prevouts(g.emergency.value.1) == {g.Staging(), g.WithdrawalConnector()}
    ensures Depth(g.emergency.value.0) == Depth(g.rollover) + 1
    ensures g.Remainder() != g.TriggerConnector()
  {
    var (trigger, withdrawal) := g.emergency.value;
    assert trigger.inputs[0].prevout == g.Remainder() && trigger.inputs[1].prevout == g.TriggerConnector();
    assert withdrawal.inputs[0].prevout == g.Staging() && withdrawal.inputs[1].prevout == g.WithdrawalConnector();
  }

  // A confirmed rollover cannot spend an output of its own chain: the chain came later.
  lemma {:induction false} RolloverSpendsNoChild(g: Graph, s: State, k: nat)
    requires WellFormed(g) && Consistent(s) && k < |g.authorizations|
    requires g.rollover in s.confirmed
    ensures g.ChainOutput(k) !in Prevouts(g.rollover)
  {
    if i :| 0 <= i < |g.rollover.inputs| && g.rollover.inputs[i].prevout == g.ChainOutput(k) {
      ParentFirst(s, g.rollover, i);
      hide Consistent;
      if k > 0 {
        ChainOrder(g, s, k - 1);
      }
    }
  }

  /** Txids are injective, so two transactions cannot spend each other. */
  lemma {:induction false} NoCycle(a: Tx, i: nat, b: Tx, j: nat)
    requires i < |a.inputs| && j < |b.inputs| && a.inputs[i].prevout.txid == TxidOf(b)
    ensures b.inputs[j].prevout.txid != TxidOf(a)
    decreases a
  {
    if b.inputs[j].prevout.txid == TxidOf(a) {
      NoCycle(b, j, a, i);
    }
  }

  /** In a run where the batch is independent, only authorization k ever spends chain output k. */
  lemma {:induction false} ChainSpender(rules: Rules, states: seq<State>, events: seq<Event>, n: nat, g: Graph, k: nat)
    requires Run(rules, states, events) && n < |states| && WellFormed(g) && Independent(rules, g)
    requires k < |g.authorizations| && g.ChainOutput(k) in states[n].spent
    ensures states[n].spent[g.ChainOutput(k)] == g.authorizations[k]
  {
    var s, o := states[n], g.ChainOutput(k);
    RunIsConsistent(rules, states, events, n);
    RunSpendsCosigned(rules, states, events, n);
    CreatedByParent(s, o);
    assert WellFormedStep(g, k);
    assert PaysScript(o, rules.vault);
    assert g.Parent(k) in g.Transactions() by {
      if k > 0 { assert g.Parent(k) == g.authorizations[k - 1]; }
    }
    hide Run, Consistent, WellFormed;
    ChainSpenderInBatch(g, s, k);
  }

  /** A revoked step leaves its vault output unspent for good. */
  lemma {:induction false} RevocationKeepsVault(rules: Rules, states: seq<State>, events: seq<Event>, n: nat, m: nat,
                                                g: Graph, i: nat)
    requires Run(rules, states, events) && n <= m < |states| && WellFormed(g) && Independent(rules, g)
    requires i < |g.authorizations| && Revoked(g, states[n], i)
    ensures g.ChainOutput(i) in states[m].coins && ChainVout(i) < |g.Parent(i).outputs|
    ensures states[m].coins[g.ChainOutput(i)].out == g.Parent(i).outputs[ChainVout(i)]
  {
    var s, o := states[m], g.ChainOutput(i);
    RevocationIsPermanent(rules, states, events, n, m, g, i);
    RunIsConsistent(rules, states, events, m);
    if o in s.spent {
      ChainSpender(rules, states, events, m, g, i);
      CreatedByParent(s, o);
    }
    CreatedByParent(s, g.Connector(i));
    CreatedByParent(s, o);
    assert WellFormedStep(g, i);
    hide Run, Consistent, Independent;
  }

  // ----- Everything that descends from the rollover -----

  /** The transaction descends from the rollover through vault outputs. */
  ghost predicate Descends(g: Graph, tx: Tx) {
    || tx == g.rollover
    || exists i: nat :: i < |tx.inputs| && PaysScript(tx.inputs[i].prevout, g.vault) && Descends(g, tx.inputs[i].prevout.txid.tx)
  }

  /** In a run where the batch is independent, whatever descends from its rollover belongs to it. */
  lemma {:induction false} DescendantsAreMembers(rules: Rules, states: seq<State>, events: seq<Event>, n: nat, g: Graph, tx: Tx)
    requires Run(rules, states, events) && n < |states| && Independent(rules, g)
    requires tx in states[n].confirmed && Descends(g, tx)
    ensures tx in g.Transactions()
    decreases tx
  {
    if tx != g.rollover {
      var i: nat :| i < |tx.inputs| && PaysScript(tx.inputs[i].prevout, g.vault) && Descends(g, tx.inputs[i].prevout.txid.tx);
      var o, s := tx.inputs[i].prevout, states[n];
      RunIsConsistent(rules, states, events, n);
      RunSpendsCosigned(rules, states, events, n);
      ParentFirst(s, tx, i);
      ConfirmedSpends(s, tx, i);
      DescendantsAreMembers(rules, states, events, n, g, o.txid.tx);
      assert o in Prevouts(tx);
      hide Run, Consistent;
    }
  }

  /** What these transactions, confirmed by `time`, pay outside the two policy scripts. */
  function OutflowOf(g: Graph, s: State, time: int, txs: seq<Tx>): nat {
    if txs == [] then 0 else OutflowBy(g, s, txs[0], time) + OutflowOf(g, s, time, txs[1..])
  }

  predicate AllDistinct(txs: seq<Tx>) {
    forall i, j :: 0 <= i < j < |txs| ==> txs[i] != txs[j]
  }

  lemma {:induction false} OutflowAppend(g: Graph, s: State, time: int, a: seq<Tx>, b: seq<Tx>)
    ensures OutflowOf(g, s, time, a + b) == OutflowOf(g, s, time, a) + OutflowOf(g, s, time, b)
  {
    if a == [] {
      assert a + b == b;
    } else {
      assert (a + b)[1..] == a[1..] + b;
      OutflowAppend(g, s, time, a[1..], b);
    }
  }

  lemma {:induction false} WithoutOne(txs: seq<Tx>, i: nat)
    requires AllDistinct(txs) && i < |txs|
    ensures var rest := txs[..i] + txs[i + 1..];
            AllDistinct(rest) && forall tx :: tx in rest ==> tx in txs && tx != txs[i]
  {
    var rest := txs[..i] + txs[i + 1..];
    assert forall k :: 0 <= k < |rest| ==> rest[k] == if k < i then txs[k] else txs[k + 1];
  }

  lemma {:induction false} OutflowSplit(g: Graph, s: State, time: int, txs: seq<Tx>, i: nat)
    requires i < |txs|
    ensures OutflowOf(g, s, time, txs)
         == OutflowBy(g, s, txs[i], time) + OutflowOf(g, s, time, txs[..i] + txs[i + 1..])
  {
    hide OutflowBy;
    if i == 0 {
      assert txs[..0] + txs[1..] == txs[1..];
    } else {
      OutflowSplit(g, s, time, txs[1..], i - 1);
      var rest := txs[..i] + txs[i + 1..];
      assert rest[0] == txs[0] && rest[1..] == txs[1..][..i - 1] + txs[1..][i..];
    }
  }

  // Distinct transactions out of a list pay no more than the list.
  lemma {:induction false} OutflowOfSome(g: Graph, s: State, time: int, txs: seq<Tx>, all: seq<Tx>)
    requires AllDistinct(txs) && forall tx :: tx in txs ==> tx in all
    ensures OutflowOf(g, s, time, txs) <= OutflowOf(g, s, time, all)
  {
    hide OutflowBy, AllDistinct;
    if txs != [] {
      assert txs[0] in all;
      if all[0] in txs {
        var i :| 0 <= i < |txs| && txs[i] == all[0];
        OutflowSplit(g, s, time, txs, i);
        WithoutOne(txs, i);
        assert all == [all[0]] + all[1..];
        OutflowOfSome(g, s, time, txs[..i] + txs[i + 1..], all[1..]);
      } else {
        OutflowOfSome(g, s, time, txs, all[1..]);
      }
    }
  }

  function Members(g: Graph): seq<Tx> {
    [g.rollover] + g.authorizations + if g.emergency.Some? then [g.emergency.value.0, g.emergency.value.1] else []
  }

  lemma {:induction false} ChainOutflowOf(g: Graph, s: State, time: int, n: nat)
    requires n <= |g.authorizations|
    ensures OutflowOf(g, s, time, g.authorizations[..n]) == ChainOutflow(g, s, time, n)
  {
    if n > 0 {
      ChainOutflowOf(g, s, time, n - 1);
      var last := [g.authorizations[n - 1]];
      assert g.authorizations[..n] == g.authorizations[..n - 1] + last;
      OutflowAppend(g, s, time, g.authorizations[..n - 1], last);
      assert OutflowOf(g, s, time, last) == OutflowBy(g, s, last[0], time) + OutflowOf(g, s, time, last[1..]);
    }
  }

  lemma {:induction false} MembersOutflow(g: Graph, s: State, time: int)
    ensures OutflowOf(g, s, time, Members(g)) == TotalOutflow(g, s, time)
    ensures forall tx :: tx in g.Transactions() ==> tx in Members(g)
  {
    var tail := if g.emergency.Some? then [g.emergency.value.0, g.emergency.value.1] else [];
    OutflowAppend(g, s, time, [g.rollover] + g.authorizations, tail);
    OutflowAppend(g, s, time, [g.rollover], g.authorizations);
    ChainOutflowOf(g, s, time, |g.authorizations|);
    assert g.authorizations[..|g.authorizations|] == g.authorizations;
    assert OutflowOf(g, s, time, [g.rollover]) == OutflowBy(g, s, g.rollover, time) + OutflowOf(g, s, time, [g.rollover][1..]);
    if g.emergency.Some? {
      assert tail[1..] == [g.emergency.value.1] && tail[1..][1..] == [];
      assert OutflowOf(g, s, time, tail[1..]) == OutflowBy(g, s, tail[1], time) + OutflowOf(g, s, time, tail[1..][1..]);
    }
  }

  /** The spending bound for everything that descends from the rollover through vault outputs, whoever
      made it: any distinct confirmed transactions of this kind together stay within the bound. */
  lemma {:induction false} DescendantsAreBounded(rules: Rules, states: seq<State>, events: seq<Event>, n: nat, g: Graph, T: nat,
                                                 txs: seq<Tx>)
    requires Run(rules, states, events) && n < |states| && WellFormed(g) && Independent(rules, g)
    requires g.rollover in states[n].confirmed && AllDistinct(txs)
    requires forall tx :: tx in txs ==> tx in states[n].confirmed && Descends(g, tx)
    ensures var time := states[n].confirmed[g.rollover] + T;
            OutflowOf(g, states[n], time, txs)
            <= (T / 2_592_256) * g.limit + (if EmergencyPaid(g, states[n], time) then g.amount else 0)
  {
    var s := states[n];
    var time := s.confirmed[g.rollover] + T;
    forall tx | tx in txs
      ensures tx in g.Transactions()
    {
      DescendantsAreMembers(rules, states, events, n, g, tx);
    }
    MembersOutflow(g, s, time);
    hide Run, WellFormed, Independent, Descends, TotalOutflow, OutflowOf, Members;
    OutflowOfSome(g, s, time, txs, Members(g));
    SpendingBound(rules, states, events, n, g, T);
  }

  // ----- Emergency cancellation -----

  /** Cancelling before the trigger stops both emergency transactions; cancelling between the trigger
      and the withdrawal stops the withdrawal. Either way for good, and the vault output that was
      about to be spent stays where it is. */
  lemma {:induction false} CancellationIsPermanent(rules: Rules, states: seq<State>, events: seq<Event>, n: nat, m: nat, g: Graph)
    requires Run(rules, states, events) && n <= m < |states| && WellFormed(g) && g.emergency.Some?
    ensures g.TriggerConnector() in states[n].spent && states[n].spent[g.TriggerConnector()] != g.emergency.value.0 ==>
              g.emergency.value.0 !in states[m].confirmed && g.emergency.value.1 !in states[m].confirmed
    ensures g.WithdrawalConnector() in states[n].spent && states[n].spent[g.WithdrawalConnector()] != g.emergency.value.1 ==>
              g.emergency.value.1 !in states[m].confirmed
  {
    var (trigger, withdrawal) := g.emergency.value;
    var s := states[m];
    RunIsConsistent(rules, states, events, m);
    RunExtends(rules, states, events, n, m);
    WithdrawalOrder(g, s);
    assert trigger.inputs[1].prevout == g.TriggerConnector() && withdrawal.inputs[1].prevout == g.WithdrawalConnector();
    hide Run;
    if trigger in s.confirmed {
      ConfirmedSpends(s, trigger, 1);
    }
    if withdrawal in s.confirmed {
      ConfirmedSpends(s, withdrawal, 1);
    }
    hide Consistent;
  }

  lemma {:induction false} EmergencySpender(rules: Rules, states: seq<State>, events: seq<Event>, n: nat, g: Graph)
    requires Run(rules, states, events) && n < |states| && WellFormed(g) && Independent(rules, g) && g.emergency.Some?
    ensures g.Remainder() in states[n].spent ==> states[n].spent[g.Remainder()] == g.emergency.value.0
    ensures g.Staging() in states[n].spent ==> states[n].spent[g.Staging()] == g.emergency.value.1
  {
    var s := states[n];
    RunIsConsistent(rules, states, events, n);
    RunSpendsCosigned(rules, states, events, n);
    assert PaysScript(g.Remainder(), rules.vault) && PaysScript(g.Staging(), rules.vault);
    CreatedByParent(s, g.Remainder());
    CreatedByParent(s, g.Staging());
    hide Run;
    if g.Remainder() in s.spent {
      EmergencySpenderInBatch(g, s, g.Remainder());
    }
    if g.Staging() in s.spent {
      EmergencySpenderInBatch(g, s, g.Staging());
    }
  }

  lemma {:induction false} EmergencySpenderInBatch(g: Graph, s: State, o: OutPoint)
    requires WellFormed(g) && Consistent(s) && g.emergency.Some?
    requires o in s.spent && s.spent[o] in g.Transactions()
    requires o == g.Remainder() || o == g.Staging()
    ensures s.spent[o] == if o == g.Remainder() then g.emergency.value.0 else g.emergency.value.1
  {
    var tx := s.spent[o];
    EmergencyInputs(g);
    CreatedByParent(s, o);
    if tx == g.rollover {
      RolloverSpendsNoEmergency(g, s);
    } else if j :| 0 <= j < |g.authorizations| && g.authorizations[j] == tx {
      AuthorizationSpendsNoEmergency(g, j);
    }
    hide WellFormed, Consistent;
  }

  lemma {:induction false} AuthorizationSpendsNoEmergency(g: Graph, j: nat)
    requires WellFormed(g) && g.emergency.Some? && j < |g.authorizations|
    ensures Prevouts(g.authorizations[j]) !! {g.Remainder(), g.Staging()}
  {
    AuthorizationInputs(g, j);
    AuthorizationDepth(g, j);
    EmergencyInputs(g);
    assert g.Remainder().vout == 1 && g.Staging().vout == 0;
  }

  lemma {:induction false} RolloverSpendsNoEmergency(g: Graph, s: State)
    requires WellFormed(g) && Consistent(s) && g.emergency.Some? && g.rollover in s.confirmed
    ensures Prevouts(g.rollover) !! {g.Remainder(), g.Staging()}
  {
    var trigger := g.emergency.value.0;
    assert trigger.inputs[0].prevout == g.Remainder();
    forall i: nat | i < |g.rollover.inputs|
      ensures g.rollover.inputs[i].prevout != g.Remainder() && g.rollover.inputs[i].prevout != g.Staging()
    {
      var o := g.rollover.inputs[i].prevout;
      NoCycle(trigger, 0, g.rollover, i);
      if o == g.Remainder() {
        ParentFirst(s, g.rollover, i);
      }
    }
    hide Consistent;
  }

  /** A cancelled emergency leaves its vault output unspent for good: the remainder when the trigger
      was cancelled, the staged amount when the withdrawal was. */
  lemma {:induction false} CancellationKeepsVault(rules: Rules, states: seq<State>, events: seq<Event>, n: nat, m: nat, g: Graph)
    requires Run(rules, states, events) && n <= m < |states| && WellFormed(g) && Independent(rules, g) && g.emergency.Some?
    ensures g.TriggerConnector() in states[n].spent && states[n].spent[g.TriggerConnector()] != g.emergency.value.0 ==>
              g.Remainder() in states[m].coins
    ensures g.WithdrawalConnector() in states[n].spent && states[n].spent[g.WithdrawalConnector()] != g.emergency.value.1 ==>
              g.Staging() in states[m].coins
  {
    CancellationIsPermanent(rules, states, events, n, m, g);
    EmergencySpender(rules, states, events, m, g);
    RunIsConsistent(rules, states, events, m);
    RunIsConsistent(rules, states, events, n);
    RunExtends(rules, states, events, n, m);
    CreatedByParent(states[n], g.TriggerConnector());
    CreatedByParent(states[n], g.WithdrawalConnector());
    CreatedByParent(states[m], g.Remainder());
    CreatedByParent(states[m], g.Staging());
    hide Run, Consistent, Independent;
  }

  // ----- Linear tokens -----

  /** At most one vault output and at most one connector of the chain are live, and they come from
      the same transaction. A live connector always has its vault output beside it. */
  lemma {:induction false} TokensAreLinear(rules: Rules, states: seq<State>, events: seq<Event>, n: nat, g: Graph, j: nat, k: nat)
    requires Run(rules, states, events) && n < |states| && WellFormed(g)
    requires j < |g.authorizations| && k < |g.authorizations|
    ensures var s := states[n];
            && (g.ChainOutput(j) in s.coins && g.ChainOutput(k) in s.coins ==> j == k)
            && (g.Connector(j) in s.coins && g.Connector(k) in s.coins ==> j == k)
            && (g.Connector(j) in s.coins && g.ChainOutput(k) in s.coins ==> j == k)
            && (Independent(rules, g) && g.Connector(j) in s.coins ==> g.ChainOutput(j) in s.coins)
  {
    var s := states[n];
    RunIsConsistent(rules, states, events, n);
    LiveTokenIsNext(g, s, j);
    LiveTokenIsNext(g, s, k);
    if Independent(rules, g) && g.Connector(j) in s.coins {
      CreatedByParent(s, g.Connector(j));
      CreatedByParent(s, g.ChainOutput(j));
      assert WellFormedStep(g, j);
      if g.ChainOutput(j) in s.spent {
        ChainSpender(rules, states, events, n, g, j);
        ConnectorSpender(g, s, j);
      }
    }
    hide Run, Consistent, WellFormed, Independent;
  }

  // A live token of step k means that exactly the first k authorizations have confirmed.
  lemma {:induction false} LiveTokenIsNext(g: Graph, s: State, k: nat)
    requires WellFormed(g) && Consistent(s) && k < |g.authorizations|
    ensures g.ChainOutput(k) in s.coins || g.Connector(k) in s.coins ==>
              && (forall j :: 0 <= j < k ==> g.authorizations[j] in s.confirmed)
              && (forall j :: k <= j < |g.authorizations| ==> g.authorizations[j] !in s.confirmed)
    ensures g.ChainOutput(k) in s.coins || g.Connector(k) in s.coins ==>
              forall j :: 0 <= j < |g.authorizations| && j != k ==>
                g.ChainOutput(j) !in s.coins && g.Connector(j) !in s.coins
  {
    TokenMeansProgress(g, s, k);
    forall j | 0 <= j < |g.authorizations| && j != k && (g.ChainOutput(k) in s.coins || g.Connector(k) in s.coins)
      ensures g.ChainOutput(j) !in s.coins && g.Connector(j) !in s.coins
    {
      TokenMeansProgress(g, s, j);
    }
    hide WellFormed, Consistent;
  }

  lemma {:induction false} TokenMeansProgress(g: Graph, s: State, k: nat)
    requires WellFormed(g) && Consistent(s) && k < |g.authorizations|
    ensures g.ChainOutput(k) in s.coins || g.Connector(k) in s.coins ==>
              && (forall j :: 0 <= j < k ==> g.authorizations[j] in s.confirmed)
              && (forall j :: k <= j < |g.authorizations| ==> g.authorizations[j] !in s.confirmed)
  {
    CreatedByParent(s, g.ChainOutput(k));
    CreatedByParent(s, g.Connector(k));
    ChainIsPrefix(g, s, k);
    if g.authorizations[k] in s.confirmed {
      ConnectorSpender(g, s, k);
    }
    hide WellFormed, Consistent;
  }

  // Confirmed authorizations are a prefix, so one that is missing cuts off all later ones.
  lemma {:induction false} ChainIsPrefix(g: Graph, s: State, k: nat)
    requires WellFormed(g) && Consistent(s) && k < |g.authorizations|
    ensures g.authorizations[k] !in s.confirmed ==>
              forall j :: k <= j < |g.authorizations| ==> g.authorizations[j] !in s.confirmed
    ensures g.Parent(k) in s.confirmed ==> forall j :: 0 <= j < k ==> g.authorizations[j] in s.confirmed
  {
    forall j | k <= j < |g.authorizations|
      ensures g.authorizations[j] in s.confirmed ==> g.authorizations[k] in s.confirmed
    {
      if g.authorizations[j] in s.confirmed {
        ChainOrder(g, s, j);
      }
    }
    if k > 0 && g.Parent(k) in s.confirmed {
      ChainOrder(g, s, k - 1);
    }
    hide WellFormed, Consistent;
  }

  // ----- The principal -----

  /** The number of confirmed authorizations: they are always a prefix. */
  function Progress(g: Graph, s: State, n: nat): nat
    requires n <= |g.authorizations|
  {
    if n == 0 then 0 else if g.authorizations[n - 1] in s.confirmed then n else Progress(g, s, n - 1)
  }

  lemma {:induction false} ProgressIsPrefix(g: Graph, s: State, n: nat)
    requires WellFormed(g) && Consistent(s) && n <= |g.authorizations|
    ensures Progress(g, s, n) <= n
    ensures forall j :: 0 <= j < Progress(g, s, n) ==> g.authorizations[j] in s.confirmed
    ensures forall j :: Progress(g, s, n) <= j < n ==> g.authorizations[j] !in s.confirmed
  {
    if n > 0 {
      if g.authorizations[n - 1] in s.confirmed {
        ChainOrder(g, s, n - 1);
      } else {
        ProgressIsPrefix(g, s, n - 1);
      }
    }
  }

  /** What the vault still holds of a confirmed batch, in every reachable ledger: the chain output
      of the next allowance, and the remainder, or after the trigger its change and, until the
      withdrawal, the staged amount. */
  lemma {:induction false} PrincipalStaysInVault(rules: Rules, states: seq<State>, events: seq<Event>, n: nat, g: Graph)
    requires Run(rules, states, events) && n < |states| && WellFormed(g) && Independent(rules, g)
    requires g.rollover in states[n].confirmed
    ensures var s := states[n];
            var k := Progress(g, s, |g.authorizations|);
            && k <= |g.authorizations|
            && (k < |g.authorizations| ==> HeldInVault(g, s, g.ChainOutput(k)))
            && (g.emergency.Some? ==>
                  var (trigger, withdrawal) := g.emergency.value;
                  && (g.Remainder() in s.coins <==> trigger !in s.confirmed)
                  && (g.Staging() in s.coins <==> trigger in s.confirmed && withdrawal !in s.confirmed))
            && (g.emergency.Some? && g.Remainder() in s.coins ==> HeldInVault(g, s, g.Remainder()))
            && (g.emergency.Some? && g.Staging() in s.coins ==> HeldInVault(g, s, g.Staging()))
  {
    var s := states[n];
    RunIsConsistent(rules, states, events, n);
    ProgressIsPrefix(g, s, |g.authorizations|);
    var k := Progress(g, s, |g.authorizations|);
    if k < |g.authorizations| {
      var o := g.ChainOutput(k);
      CreatedByParent(s, o);
      assert WellFormedStep(g, k);
      if o in s.spent {
        ChainSpender(rules, states, events, n, g, k);
      }
    }
    if g.emergency.Some? {
      EmergencySpender(rules, states, events, n, g);
      EmergencyHeld(g, s);
    }
    hide Run, Consistent, Independent;
  }

  /** A live output under the vault script, with the value that the batch gave it. */
  predicate HeldInVault(g: Graph, s: State, o: OutPoint) {
    && o in s.coins && PaysScript(o, g.vault)
    && s.coins[o].out == o.txid.tx.outputs[o.vout]
  }

  lemma {:induction false} EmergencyHeld(g: Graph, s: State)
    requires WellFormed(g) && Consistent(s) && g.emergency.Some? && g.rollover in s.confirmed
    requires g.Remainder() in s.spent ==> s.spent[g.Remainder()] == g.emergency.value.0
    requires g.Staging() in s.spent ==> s.spent[g.Staging()] == g.emergency.value.1
    ensures var (trigger, withdrawal) := g.emergency.value;
            && (g.Remainder() in s.coins <==> trigger !in s.confirmed)
            && (g.Staging() in s.coins <==> trigger in s.confirmed && withdrawal !in s.confirmed)
            && (g.Remainder() in s.coins ==> HeldInVault(g, s, g.Remainder()))
            && (g.Staging() in s.coins ==> HeldInVault(g, s, g.Staging()))
  {
    var (trigger, withdrawal) := g.emergency.value;
    assert trigger.inputs[0].prevout == g.Remainder() && withdrawal.inputs[0].prevout == g.Staging();
    CreatedByParent(s, g.Remainder());
    CreatedByParent(s, g.Staging());
    if trigger in s.confirmed {
      ConfirmedSpends(s, trigger, 0);
    }
    if withdrawal in s.confirmed {
      ConfirmedSpends(s, withdrawal, 0);
      WithdrawalOrder(g, s);
    }
    hide Consistent;
  }

  // ----- A later rollover retires an earlier batch -----

  /** Transaction `next` spends every output that was live under the policy scripts. */
  ghost predicate SpendsAllLive(g: Graph, s: State, next: Tx) {
    forall o :: o in s.coins && s.coins[o].out.script in {g.vault, g.controller} ==> o in Prevouts(next)
  }

  // An output that `next` was to spend, or that was already spent, cannot be spent by anything new.
  lemma {:induction false} Blocked(rules: Rules, states: seq<State>, events: seq<Event>, n: nat, m: nat, q: nat, g: Graph,
                                   next: Tx, tx: Tx, o: OutPoint)
    requires Run(rules, states, events) && n <= m < |states| && n <= q < |states|
    requires SpendsAllLive(g, states[n], next) && next in states[m].confirmed && tx != next
    requires Created(states[n], o) && (o in states[n].coins ==> states[n].coins[o].out.script in {g.vault, g.controller})
    requires o in Prevouts(tx) && tx !in states[n].confirmed
    ensures tx !in states[q].confirmed
  {
    var last := if m <= q then q else m;
    RunIsConsistent(rules, states, events, n);
    RunIsConsistent(rules, states, events, last);
    RunExtends(rules, states, events, n, last);
    RunExtends(rules, states, events, m, last);
    RunExtends(rules, states, events, q, last);
    SpenderOf(states[last], tx, o);
    SpenderOf(states[last], next, o);
    SpentByConfirmed(states[n], o);
    hide Run, Consistent;
  }

  lemma {:induction false} SpenderOf(s: State, tx: Tx, o: OutPoint)
    requires Consistent(s)
    ensures tx in s.confirmed && o in Prevouts(tx) ==> o in s.spent && s.spent[o] == tx
  {
    if i: nat :| i < |tx.inputs| && tx.inputs[i].prevout == o {
      if tx in s.confirmed {
        ConfirmedSpends(s, tx, i);
      }
    }
  }

  lemma {:induction false} SpentByConfirmed(s: State, o: OutPoint)
    requires Consistent(s)
    ensures o in s.spent ==> s.spent[o] in s.confirmed
  {
  }

  /** Once a rollover built from every live vault and controller output confirms, no transaction of
      the earlier batch that had not confirmed when it was built ever does. The earlier batch's own
      rollover counts too, provided that it was to spend an output known by then. */
  lemma {:induction false} SupersededForever(rules: Rules, states: seq<State>, events: seq<Event>, n: nat, m: nat, q: nat,
                                             g: Graph, next: Tx, tx: Tx, funding: OutPoint)
    requires Run(rules, states, events) && n <= m < |states| && n <= q < |states| && WellFormed(g)
    requires SpendsAllLive(g, states[n], next) && next in states[m].confirmed && next !in g.Transactions()
    requires || g.rollover in states[n].confirmed
             || (&& funding in Prevouts(g.rollover) && Created(states[n], funding)
                 && (funding in states[n].coins ==> states[n].coins[funding].out.script in {g.vault, g.controller}))
    requires tx in g.Transactions() && tx !in states[n].confirmed
    ensures tx !in states[q].confirmed
  {
    RunIsConsistent(rules, states, events, n);
    RunIsConsistent(rules, states, events, q);
    if g.rollover !in states[n].confirmed {
      Blocked(rules, states, events, n, m, q, g, next, g.rollover, funding);
    }
    if tx == g.rollover {
    } else if k :| 0 <= k < |g.authorizations| && g.authorizations[k] == tx {
      AuthorizationSuperseded(rules, states, events, n, m, q, g, next, k);
    } else {
      EmergencySuperseded(rules, states, events, n, m, q, g, next);
    }
    hide Run, Consistent, WellFormed, SpendsAllLive;
  }

  lemma {:induction false} AuthorizationSuperseded(rules: Rules, states: seq<State>, events: seq<Event>, n: nat, m: nat, q: nat,
                                                   g: Graph, next: Tx, k: nat)
    requires Run(rules, states, events) && n <= m < |states| && n <= q < |states| && WellFormed(g)
    requires SpendsAllLive(g, states[n], next) && next in states[m].confirmed && next !in g.Transactions()
    requires g.rollover in states[n].confirmed || g.rollover !in states[q].confirmed
    requires k < |g.authorizations| && g.authorizations[k] !in states[n].confirmed
    ensures g.authorizations[k] !in states[q].confirmed
  {
    RunIsConsistent(rules, states, events, n);
    RunIsConsistent(rules, states, events, q);
    var s := states[n];
    if g.authorizations[k] in states[q].confirmed {
      ChainOrder(g, states[q], k);
      ProgressIsPrefix(g, s, |g.authorizations|);
      var p := Progress(g, s, |g.authorizations|);
      var o := g.Connector(p);
      var first := g.authorizations[p];
      assert WellFormedStep(g, p);
      CreatedByParent(s, o);
      AuthorizationInputs(g, p);
      hide WellFormed, Run, Consistent, SpendsAllLive;
      Blocked(rules, states, events, n, m, q, g, next, first, o);
    }
  }

  lemma {:induction false} EmergencySuperseded(rules: Rules, states: seq<State>, events: seq<Event>, n: nat, m: nat, q: nat,
                                               g: Graph, next: Tx)
    requires Run(rules, states, events) && n <= m < |states| && n <= q < |states| && WellFormed(g) && g.emergency.Some?
    requires SpendsAllLive(g, states[n], next) && next in states[m].confirmed && next !in g.Transactions()
    requires g.rollover in states[n].confirmed || g.rollover !in states[q].confirmed
    ensures g.emergency.value.0 !in states[n].confirmed ==> g.emergency.value.0 !in states[q].confirmed
    ensures g.emergency.value.1 !in states[n].confirmed ==> g.emergency.value.1 !in states[q].confirmed
  {
    var (trigger, withdrawal) := g.emergency.value;
    var s := states[n];
    RunIsConsistent(rules, states, events, n);
    RunIsConsistent(rules, states, events, q);
    WithdrawalOrder(g, states[q]);
    EmergencyInputs(g);
    CreatedByParent(s, g.TriggerConnector());
    CreatedByParent(s, g.WithdrawalConnector());
    assert WellFormedEmergency(g);
    hide WellFormed, Run, Consistent, SpendsAllLive;
    if trigger !in s.confirmed && trigger in states[q].confirmed {
      Blocked(rules, states, events, n, m, q, g, next, trigger, g.TriggerConnector());
    }
    if withdrawal !in s.confirmed && withdrawal in states[q].confirmed {
      Blocked(rules, states, events, n, m, q, g, next, withdrawal, g.WithdrawalConnector());
    }
  }
}
