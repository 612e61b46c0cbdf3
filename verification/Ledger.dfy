/** The chain as a state machine over a set of unspent outputs, with monotone median time and the
    relative locks of BIP 68 (section "Specification").

    Anyone may confirm any transaction over live outputs, with one exception: an output under the
    watched vault script needs both vault keys, so only a transaction that both have signed can
    spend it. Controller and hot outputs are unrestricted. */
module Ledger {
  import opened Bitcoin

  datatype Coin = Coin(out: TxOut, time: nat)

  datatype State = State(
    coins: map<OutPoint, Coin>,
    spent: map<OutPoint, Tx>,
    confirmed: map<Tx, nat>,
    now: nat)

  /** The vault script, and the transactions whose vault inputs both keys have signed. */
  datatype Rules = Rules(vault: Script, cosigned: set<Tx>)

  function Prevouts(tx: Tx): set<OutPoint> {
    set i | 0 <= i < |tx.inputs| :: tx.inputs[i].prevout
  }

  predicate IsOutput(tx: Tx, o: OutPoint) {
    o.txid == TxidOf(tx) && o.vout < |tx.outputs|
  }

  predicate Created(s: State, o: OutPoint) {
    o in s.coins || o in s.spent
  }

  function NewCoins(tx: Tx, time: nat): map<OutPoint, Coin>
    requires |tx.outputs| <= 0x1_0000_0000
  {
    map i | 0 <= i < |tx.outputs| :: OutPoint(TxidOf(tx), i) := Coin(tx.outputs[i], time)
  }

  function NewSpends(tx: Tx): map<OutPoint, Tx> {
    map o | o in Prevouts(tx) :: tx
  }

  /** Every relative lock of `tx` has expired. */
  predicate LocksExpired(s: State, tx: Tx)
    requires forall i :: 0 <= i < |tx.inputs| ==> tx.inputs[i].prevout in s.coins
  {
    forall i :: 0 <= i < |tx.inputs| ==>
      s.now >= s.coins[tx.inputs[i].prevout].time + RelativeSeconds(tx.version, tx.inputs[i].sequence)
  }

  predicate CanConfirm(rules: Rules, s: State, tx: Tx) {
    && 0 < |tx.inputs| && |tx.outputs| <= 0x1_0000_0000
    && (forall i :: 0 <= i < |tx.inputs| ==> tx.inputs[i].prevout in s.coins)
    && (forall i, j :: 0 <= i < j < |tx.inputs| ==> tx.inputs[i].prevout != tx.inputs[j].prevout)
    && LocksExpired(s, tx)
    && ((exists o :: o in Prevouts(tx) && s.coins[o].out.script == rules.vault) ==> tx in rules.cosigned)
  }

  function After(s: State, tx: Tx): State
    requires |tx.outputs| <= 0x1_0000_0000
  {
    State((s.coins - Prevouts(tx)) + NewCoins(tx, s.now), s.spent + NewSpends(tx), s.confirmed[tx := s.now], s.now)
  }

  datatype Event = Advance(seconds: nat) | Deposit(id: nat, vout: U32, out: TxOut) | Confirm(tx: Tx)

  ghost predicate Next(rules: Rules, s: State, event: Event, s': State) {
    match event
    case Advance(seconds) => s' == s.(now := s.now + seconds)
    case Deposit(id, vout, out) =>
      var o := OutPoint(External(id), vout);
      !Created(s, o) && s' == s.(coins := s.coins[o := Coin(out, s.now)])
    case Confirm(tx) => CanConfirm(rules, s, tx) && s' == After(s, tx)
  }

  predicate Initial(s: State) {
    s.coins == map[] && s.spent == map[] && s.confirmed == map[]
  }

  /** A complete history: it starts with an empty ledger and takes one step at a time. */
  ghost predicate Run(rules: Rules, states: seq<State>, events: seq<Event>) {
    && |states| == |events| + 1 && Initial(states[0])
    && forall i :: 0 <= i < |events| ==> Next(rules, states[i], events[i], states[i + 1])
  }

  // ----- What every reachable ledger satisfies -----

  ghost predicate SpentOnce(s: State) {
    forall o :: !(o in s.coins && o in s.spent)
  }

  /** An output is spent by a confirmed transaction that lists it, and by no other. */
  ghost predicate SpendersConfirmed(s: State) {
    && (forall o :: o in s.spent ==> s.spent[o] in s.confirmed && o in Prevouts(s.spent[o]))
    && (forall tx, i :: tx in s.confirmed && 0 <= i < |tx.inputs| ==>
          tx.inputs[i].prevout in s.spent && s.spent[tx.inputs[i].prevout] == tx)
  }

  /** The outputs of exactly the confirmed transactions exist. */
  ghost predicate OutputsExist(s: State) {
    && (forall o :: Created(s, o) && o.txid.TxidOf? ==> o.txid.tx in s.confirmed && IsOutput(o.txid.tx, o))
    && (forall o :: o in s.coins && o.txid.TxidOf? && o.txid.tx in s.confirmed && IsOutput(o.txid.tx, o) ==>
          s.coins[o] == Coin(o.txid.tx.outputs[o.vout], s.confirmed[o.txid.tx]))
    && (forall o: OutPoint :: o.txid.TxidOf? && o.txid.tx in s.confirmed && IsOutput(o.txid.tx, o) ==> Created(s, o))
  }

  /** Every confirmed input waited out its lock after its parent. */
  ghost predicate LocksKept(s: State) {
    forall tx, i :: tx in s.confirmed && 0 <= i < |tx.inputs| && tx.inputs[i].prevout.txid.TxidOf? ==>
      var parent := tx.inputs[i].prevout.txid.tx;
      && parent in s.confirmed && parent != tx
      && IsOutput(parent, tx.inputs[i].prevout)
      && s.confirmed[tx] >= s.confirmed[parent] + RelativeSeconds(tx.version, tx.inputs[i].sequence)
  }

  ghost predicate InThePast(s: State) {
    && (forall tx :: tx in s.confirmed ==> s.confirmed[tx] <= s.now && |tx.inputs| > 0)
    && (forall o :: o in s.coins ==> s.coins[o].time <= s.now)
  }

  ghost predicate Consistent(s: State) {
    SpentOnce(s) && SpendersConfirmed(s) && OutputsExist(s) && LocksKept(s) && InThePast(s)
  }

  lemma {:induction false} AfterAt(s: State, tx: Tx, o: OutPoint)
    requires |tx.outputs| <= 0x1_0000_0000
    ensures o in After(s, tx).coins <==> (o in s.coins && o !in Prevouts(tx)) || IsOutput(tx, o)
    ensures IsOutput(tx, o) ==> After(s, tx).coins[o] == Coin(tx.outputs[o.vout], s.now)
    ensures !IsOutput(tx, o) && o in After(s, tx).coins ==> After(s, tx).coins[o] == s.coins[o]
    ensures o in After(s, tx).spent <==> o in s.spent || o in Prevouts(tx)
    ensures o in Prevouts(tx) ==> After(s, tx).spent[o] == tx
    ensures o in s.spent && o !in Prevouts(tx) ==> After(s, tx).spent[o] == s.spent[o]
  {
    if IsOutput(tx, o) {
      assert o == OutPoint(TxidOf(tx), o.vout);
      assert o in NewCoins(tx, s.now);
    } else {
      assert o !in NewCoins(tx, s.now);
    }
  }

  // A transaction whose inputs are live is new.
  lemma {:induction false} ConfirmIsFresh(rules: Rules, s: State, tx: Tx)
    requires Consistent(s) && CanConfirm(rules, s, tx)
    ensures tx !in s.confirmed
    ensures forall o :: IsOutput(tx, o) ==> !Created(s, o) && o !in Prevouts(tx)
    ensures forall o :: o in Prevouts(tx) ==> o in s.coins && o !in s.spent
  {
    assert tx.inputs[0].prevout in s.coins;
  }

  lemma {:induction false} ConfirmKeepsSpends(rules: Rules, s: State, tx: Tx)
    requires Consistent(s) && CanConfirm(rules, s, tx)
    ensures SpentOnce(After(s, tx)) && SpendersConfirmed(After(s, tx))
  {
    ConfirmIsFresh(rules, s, tx);
    var s' := After(s, tx);
    forall o
      ensures !(o in s'.coins && o in s'.spent)
    {
      AfterAt(s, tx, o);
    }
    forall o | o in s'.spent
      ensures s'.spent[o] in s'.confirmed && o in Prevouts(s'.spent[o])
    {
      AfterAt(s, tx, o);
    }
    forall x, i | x in s'.confirmed && 0 <= i < |x.inputs|
      ensures x.inputs[i].prevout in s'.spent && s'.spent[x.inputs[i].prevout] == x
    {
      AfterAt(s, tx, x.inputs[i].prevout);
      assert x == tx ==> x.inputs[i].prevout in Prevouts(tx);
    }
  }

  lemma {:induction false} ConfirmKeepsOutputs(rules: Rules, s: State, tx: Tx)
    requires Consistent(s) && CanConfirm(rules, s, tx)
    ensures OutputsExist(After(s, tx))
  {
    ConfirmIsFresh(rules, s, tx);
    var s' := After(s, tx);
    hide LocksKept, SpendersConfirmed, InThePast, CanConfirm, SpentOnce, After, IsOutput, Created;
    AfterConfirmed(s, tx);
    forall o: OutPoint
      ensures Created(s', o) <==> Created(s, o) || IsOutput(tx, o)
      ensures o in s'.coins && !IsOutput(tx, o) ==> o in s.coins && s'.coins[o] == s.coins[o]
      ensures IsOutput(tx, o) ==> Created(s', o) && o in s'.coins && s'.coins[o] == Coin(tx.outputs[o.vout], s.now)
      ensures IsOutput(tx, o) ==> o.txid == TxidOf(tx)
      ensures o in s.coins ==> Created(s, o)
      ensures o in s'.coins ==> Created(s', o)
    {
      CreatedAfter(rules, s, tx, o);
    }
    OutputsFollow(s, s', tx);
  }

  lemma {:induction false} CreatedAfter(rules: Rules, s: State, tx: Tx, o: OutPoint)
    requires Consistent(s) && CanConfirm(rules, s, tx)
    ensures var s' := After(s, tx);
            && (Created(s', o) <==> Created(s, o) || IsOutput(tx, o))
            && (o in s'.coins && !IsOutput(tx, o) ==> o in s.coins && s'.coins[o] == s.coins[o])
            && (IsOutput(tx, o) ==> o in s'.coins && o.txid == TxidOf(tx) && s'.coins[o] == Coin(tx.outputs[o.vout], s.now))
  {
    AfterAt(s, tx, o);
    ConfirmIsFresh(rules, s, tx);
    hide Consistent, After;
  }

  lemma {:induction false} OutputsFollow(s: State, s': State, tx: Tx)
    requires OutputsExist(s) && tx !in s.confirmed && s'.confirmed == s.confirmed[tx := s.now]
    requires forall o: OutPoint ::
               && (Created(s', o) <==> Created(s, o) || IsOutput(tx, o))
               && (o in s'.coins && !IsOutput(tx, o) ==> o in s.coins && s'.coins[o] == s.coins[o])
               && (IsOutput(tx, o) ==> o in s'.coins && o.txid == TxidOf(tx) && s'.coins[o] == Coin(tx.outputs[o.vout], s.now))
    ensures OutputsExist(s')
  {
    hide Created;
  }

  lemma {:induction false} AfterConfirmed(s: State, tx: Tx)
    requires |tx.outputs| <= 0x1_0000_0000
    ensures After(s, tx).confirmed == s.confirmed[tx := s.now] && After(s, tx).now == s.now
  {
  }

  lemma {:induction false} ConfirmKeepsLocks(rules: Rules, s: State, tx: Tx)
    requires Consistent(s) && CanConfirm(rules, s, tx)
    ensures LocksKept(After(s, tx)) && InThePast(After(s, tx))
  {
    ConfirmIsFresh(rules, s, tx);
    var s' := After(s, tx);
    forall x, i | x in s'.confirmed && 0 <= i < |x.inputs| && x.inputs[i].prevout.txid.TxidOf?
      ensures var parent := x.inputs[i].prevout.txid.tx;
              && parent in s'.confirmed && parent != x && IsOutput(parent, x.inputs[i].prevout)
              && s'.confirmed[x] >= s'.confirmed[parent] + RelativeSeconds(x.version, x.inputs[i].sequence)
    {
      var parent := x.inputs[i].prevout.txid.tx;
      if x == tx {
        assert x.inputs[i].prevout in s.coins;
        assert parent in s.confirmed && parent != tx;
      } else {
        assert parent in s.confirmed && parent != tx;
      }
    }
    forall o | o in s'.coins
      ensures s'.coins[o].time <= s'.now
    {
      AfterAt(s, tx, o);
    }
  }

  lemma {:induction false} NextKeepsConsistent(rules: Rules, s: State, event: Event, s': State)
    requires Consistent(s) && Next(rules, s, event, s')
    ensures Consistent(s')
  {
    if event.Confirm? {
      ConfirmKeepsSpends(rules, s, event.tx);
      ConfirmKeepsOutputs(rules, s, event.tx);
      ConfirmKeepsLocks(rules, s, event.tx);
      hide CanConfirm, After, SpentOnce, SpendersConfirmed, OutputsExist, LocksKept, InThePast;
    }
  }

  /** Every ledger of every run is consistent. */
  lemma {:induction false} RunIsConsistent(rules: Rules, states: seq<State>, events: seq<Event>, n: nat)
    requires Run(rules, states, events) && n < |states|
    ensures Consistent(states[n])
  {
    if n > 0 {
      RunIsConsistent(rules, states, events, n - 1);
      hide Consistent, Next;
      assert Next(rules, states[n - 1], events[n - 1], states[n]);
      NextKeepsConsistent(rules, states[n - 1], events[n - 1], states[n]);
    }
  }

  lemma {:induction false} ConfirmedSpends(s: State, tx: Tx, i: nat)
    requires Consistent(s) && tx in s.confirmed && i < |tx.inputs|
    ensures var o := tx.inputs[i].prevout; o in s.spent && s.spent[o] == tx && o !in s.coins
  {
    hide OutputsExist, LocksKept, InThePast;
  }

  lemma {:induction false} ParentFirst(s: State, tx: Tx, i: nat)
    requires Consistent(s) && tx in s.confirmed && i < |tx.inputs| && tx.inputs[i].prevout.txid.TxidOf?
    ensures var parent := tx.inputs[i].prevout.txid.tx;
            && parent in s.confirmed && parent != tx
            && s.confirmed[tx] >= s.confirmed[parent] + RelativeSeconds(tx.version, tx.inputs[i].sequence)
  {
    hide OutputsExist, SpentOnce, SpendersConfirmed, InThePast;
  }

  lemma {:induction false} CreatedByParent(s: State, o: OutPoint)
    requires Consistent(s) && o.txid.TxidOf?
    ensures Created(s, o) <==> o.txid.tx in s.confirmed && IsOutput(o.txid.tx, o)
    ensures o in s.coins ==> o !in s.spent && s.coins[o].out == o.txid.tx.outputs[o.vout]
    ensures o in s.spent ==> s.spent[o] in s.confirmed && o in Prevouts(s.spent[o])
  {
    hide LocksKept, InThePast;
  }

  // ----- History only grows -----

  /** Confirmations, spends and creations are never undone, and median time never goes back. */
  ghost predicate Extends(s: State, s': State) {
    && s.now <= s'.now
    && (forall tx :: tx in s.confirmed ==> tx in s'.confirmed && s'.confirmed[tx] == s.confirmed[tx])
    && (forall o :: o in s.spent ==> o in s'.spent && s'.spent[o] == s.spent[o])
    && (forall o :: o in s.coins ==>
          (o in s'.coins && s'.coins[o] == s.coins[o]) || o in s'.spent)
  }

  lemma {:induction false} NextExtends(rules: Rules, s: State, event: Event, s': State)
    requires Consistent(s) && Next(rules, s, event, s')
    ensures Extends(s, s')
  {
    if event.Confirm? {
      var tx := event.tx;
      ConfirmIsFresh(rules, s, tx);
      forall o
        ensures o in s.spent ==> o in s'.spent && s'.spent[o] == s.spent[o]
        ensures o in s.coins ==> (o in s'.coins && s'.coins[o] == s.coins[o]) || o in s'.spent
      {
        AfterAt(s, tx, o);
      }
    }
  }

  lemma {:induction false} RunExtends(rules: Rules, states: seq<State>, events: seq<Event>, i: nat, j: nat)
    requires Run(rules, states, events) && i <= j < |states|
    ensures Extends(states[i], states[j])
  {
    hide Consistent, Next, Extends;
    if i < j {
      RunExtends(rules, states, events, i, j - 1);
      RunIsConsistent(rules, states, events, j - 1);
      assert Next(rules, states[j - 1], events[j - 1], states[j]);
      NextExtends(rules, states[j - 1], events[j - 1], states[j]);
      hide *;
      ExtendsTransitively(states[i], states[j - 1], states[j]);
    } else {
      ExtendsItself(states[i]);
    }
  }

  lemma {:induction false} ExtendsItself(s: State)
    ensures Extends(s, s)
  {
  }

  lemma {:induction false} ExtendsTransitively(a: State, b: State, c: State)
    requires Extends(a, b) && Extends(b, c)
    ensures Extends(a, c)
  {
    forall o | o in a.coins
      ensures (o in c.coins && c.coins[o] == a.coins[o]) || o in c.spent
    {
      if o !in b.coins {
        assert o in b.spent && o in c.spent;
      }
    }
  }

  // ----- Only cosigned transactions spend vault outputs -----

  predicate PaysScript(o: OutPoint, script: Script) {
    o.txid.TxidOf? && IsOutput(o.txid.tx, o) && o.txid.tx.outputs[o.vout].script == script
  }

  /** A vault output of a confirmed transaction is spent by a cosigned transaction. */
  ghost predicate VaultSpendsCosigned(rules: Rules, s: State) {
    forall o :: o in s.spent && PaysScript(o, rules.vault) ==> s.spent[o] in rules.cosigned
  }

  lemma {:induction false} NextKeepsCosigned(rules: Rules, s: State, event: Event, s': State)
    requires Consistent(s) && Next(rules, s, event, s') && VaultSpendsCosigned(rules, s)
    ensures VaultSpendsCosigned(rules, s')
  {
    if event.Confirm? {
      var tx := event.tx;
      ConfirmIsFresh(rules, s, tx);
      forall o | o in s'.spent && PaysScript(o, rules.vault)
        ensures s'.spent[o] in rules.cosigned
      {
        AfterAt(s, tx, o);
        if o in Prevouts(tx) {
          assert s.coins[o].out.script == rules.vault;
        }
      }
    }
  }

  lemma {:induction false} RunSpendsCosigned(rules: Rules, states: seq<State>, events: seq<Event>, n: nat)
    requires Run(rules, states, events) && n < |states|
    ensures VaultSpendsCosigned(rules, states[n])
  {
    hide Consistent, Next, VaultSpendsCosigned;
    if n == 0 {
      NothingSpent(rules, states[0]);
    } else {
      RunSpendsCosigned(rules, states, events, n - 1);
      RunIsConsistent(rules, states, events, n - 1);
      assert Next(rules, states[n - 1], events[n - 1], states[n]);
      NextKeepsCosigned(rules, states[n - 1], events[n - 1], states[n]);
    }
  }

  lemma {:induction false} NothingSpent(rules: Rules, s: State)
    requires Initial(s)
    ensures VaultSpendsCosigned(rules, s)
  {
  }
}
