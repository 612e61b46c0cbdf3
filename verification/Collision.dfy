/** What happens when a renewal rebuilds the emergency trigger of the batch before it, and a renewal
    from real inputs that does (src/core/ceremony.rs, src/hot_wallet/mod.rs). */
module Collision {
  import opened Wrappers
  import opened Bitcoin
  import opened Fees
  import Psbts
  import opened Ceremony
  import opened HotAddresses
  import opened Selection
  import opened Graph
  import opened Ledger
  import opened Safety
  import opened Conservation
  import opened Proposal
  import opened Renewal

  // ----- What a collision does -----

  /** The old withdrawal, its delay after the trigger that the renewal has broadcast. */
  function WithdrawalEvents(g: Graph): seq<Event>
    requires g.emergency.Some?
  {
    [Confirm(g.emergency.value.0), Advance(605_184), Confirm(g.emergency.value.1)]
  }

  function WithdrawalStates(g: Graph, s: State): seq<State>
    requires g.emergency.Some? && |g.emergency.value.0.outputs| == 3 && |g.emergency.value.1.outputs| == 1
  {
    var triggered := After(s, g.emergency.value.0);
    var matured := triggered.(now := triggered.now + 605_184);
    [triggered, matured, After(matured, g.emergency.value.1)]
  }

  lemma {:induction false} ExtendRun(rules: Rules, states: seq<State>, events: seq<Event>, event: Event, s: State)
    requires Run(rules, states, events) && Next(rules, states[|events|], event, s)
    ensures Run(rules, states + [s], events + [event]) && |states + [s]| == |events + [event]| + 1
  {
    hide Next, Initial;
  }

  lemma {:induction false} TriggerCanConfirm(rules: Rules, g: Graph, s: State)
    requires WellFormed(g) && g.emergency.Some? && Consistent(s) && g.emergency.value.0 in rules.cosigned
    requires g.Remainder() in s.coins && g.TriggerConnector() in s.coins
    ensures CanConfirm(rules, s, g.emergency.value.0)
  {
    var trigger := g.emergency.value.0;
    assert trigger.inputs == PolicyInputs(g.Remainder(), SEQUENCE_MAX, g.TriggerConnector());
    hide WellFormed;
  }

  lemma {:induction false} WithdrawalCanConfirm(rules: Rules, g: Graph, s: State)
    requires WellFormed(g) && g.emergency.Some? && g.emergency.value.1 in rules.cosigned
    requires CanConfirm(rules, s, g.emergency.value.0)
    ensures |g.emergency.value.0.outputs| == 3 && |g.emergency.value.1.outputs| == 1
    ensures CanConfirm(rules, WithdrawalStates(g, s)[1], g.emergency.value.1)
  {
    Delays();
    var (trigger, withdrawal) := g.emergency.value;
    assert withdrawal.inputs == PolicyInputs(g.Staging(), EMERGENCY_SEQUENCE, g.WithdrawalConnector());
    AfterAt(s, trigger, g.Staging());
    AfterAt(s, trigger, g.WithdrawalConnector());
    hide WellFormed, CanConfirm, After;
    assert CanConfirm(rules, WithdrawalStates(g, s)[1], withdrawal) by {
      WithdrawalIsReady(rules, g, WithdrawalStates(g, s)[1]);
    }
  }

  lemma {:induction false} WithdrawalIsReady(rules: Rules, g: Graph, s: State)
    requires WellFormed(g) && g.emergency.Some? && g.emergency.value.1 in rules.cosigned
    requires g.Staging() in s.coins && g.WithdrawalConnector() in s.coins
    requires s.now >= s.coins[g.Staging()].time + 605_184 && s.now >= s.coins[g.WithdrawalConnector()].time
    ensures CanConfirm(rules, s, g.emergency.value.1)
  {
    Delays();
    var withdrawal := g.emergency.value.1;
    assert withdrawal.inputs == PolicyInputs(g.Staging(), EMERGENCY_SEQUENCE, g.WithdrawalConnector());
    hide WellFormed;
  }

  /** The withdrawal follows the trigger whenever the trigger can confirm and nobody cancels. */
  lemma {:induction false} WithdrawalFollows(rules: Rules, states: seq<State>, events: seq<Event>, g: Graph)
    requires Run(rules, states, events) && WellFormed(g) && g.emergency.Some?
    requires g.emergency.value.0 in rules.cosigned && g.emergency.value.1 in rules.cosigned
    requires g.Remainder() in states[|events|].coins && g.TriggerConnector() in states[|events|].coins
    ensures |g.emergency.value.0.outputs| == 3 && |g.emergency.value.1.outputs| == 1
    ensures Run(rules, states + WithdrawalStates(g, states[|events|]), events + WithdrawalEvents(g))
  {
    var s := states[|events|];
    var (trigger, withdrawal) := g.emergency.value;
    RunIsConsistent(rules, states, events, |events|);
    hide Run, Consistent, WellFormed;
    TriggerCanConfirm(rules, g, s);
    WithdrawalCanConfirm(rules, g, s);
    hide CanConfirm, After;
    var next := WithdrawalStates(g, s);
    ThreeEvents(rules, states, events, Confirm(trigger), Advance(605_184), Confirm(withdrawal), next[0], next[1], next[2]);
    assert next == [next[0], next[1], next[2]];
  }

  lemma {:induction false} ThreeEvents(rules: Rules, states: seq<State>, events: seq<Event>, x: Event, y: Event, z: Event,
                                       a: State, b: State, c: State)
    requires Run(rules, states, events) && Next(rules, states[|events|], x, a) && Next(rules, a, y, b) && Next(rules, b, z, c)
    ensures Run(rules, states + [a, b, c], events + [x, y, z])
  {
    hide Next, Run;
    ExtendRun(rules, states, events, x, a);
    ExtendRun(rules, states + [a], events + [x], y, b);
    ExtendRun(rules, states + [a] + [b], events + [x] + [y], z, c);
    assert states + [a] + [b] + [c] == states + [a, b, c] && events + [x] + [y] + [z] == events + [x, y, z];
  }

  /** In a collision the renewal's rollover sets off the old withdrawal: after its delay it confirms,
      takes the new allowance chain's first output and connector, and no new allowance ever follows. */
  lemma {:induction false} CollisionFreesWithdrawal(config: VaultConfig, earlier: Batch, vaults: seq<Utxo>, controllers: seq<Utxo>,
                                                    monthly: U64, emergency: U64, firstAddress: nat, renewed: Batch, rules: Rules,
                                                    states: seq<State>, events: seq<Event>)
    requires Run(rules, states, events)
    requires Renews(config, earlier, states[|events|], vaults, controllers, monthly, emergency, firstAddress, renewed)
    requires Collides(GraphOf(config, earlier), vaults, controllers, monthly, emergency)
    requires var g := GraphOf(config, earlier);
             g.emergency.value.0 in rules.cosigned && g.emergency.value.1 in rules.cosigned
    ensures var g, r := GraphOf(config, earlier), GraphOf(config, renewed);
            var (trigger, withdrawal) := g.emergency.value;
            && r.rollover == trigger && |trigger.outputs| == 3 && |withdrawal.outputs| == 1 && |r.authorizations| > 0
            && var after := states + WithdrawalStates(g, states[|events|]);
            && Run(rules, after, events + WithdrawalEvents(g))
            && withdrawal in after[|after| - 1].confirmed
            && r.ChainOutput(0) in Prevouts(withdrawal) && r.Connector(0) in Prevouts(withdrawal)
            && Revoked(r, after[|after| - 1], 0)
  {
    var g, r := GraphOf(config, earlier), GraphOf(config, renewed);
    var s := states[|events|];
    GraphIsWellFormed(config, earlier);
    CollisionIsLive(config, earlier, s, vaults, controllers, monthly, emergency);
    RunIsConsistent(rules, states, events, |events|);
    LiveIsReported(s, vaults);
    LiveIsReported(s, controllers);
    EmergencyBoth(config, earlier);
    CollisionIsExact(config, earlier, vaults, controllers, monthly, emergency, firstAddress, renewed);
    CollisionHasAllowance(config, g, vaults, controllers, monthly, emergency, firstAddress, renewed);
    hide ValidBatch, ProposalFor, Collides, ExactScan, Consistent, ReportsOutputs, ListsLive, GraphOf;
    WithdrawalFollows(rules, states, events, g);
    EmergencyInputs(g);
    FirstStepDiffers(config, renewed, g);
    hide WellFormed, Run, After;
    LastConfirms(g, s);
  }

  /** Nothing else that is outstanding survives a collision. */
  lemma {:induction false} CollisionRetiresTheRest(config: VaultConfig, earlier: Batch, vaults: seq<Utxo>, controllers: seq<Utxo>,
                                                   monthly: U64, emergency: U64, rules: Rules, states: seq<State>, events: seq<Event>,
                                                   n: nat, q: nat, tx: Tx)
    requires Run(rules, states, events) && n <= q < |states| && ValidBatch(config, earlier)
    requires ExactScan(config, states[n], vaults, controllers)
    requires Collides(GraphOf(config, earlier), vaults, controllers, monthly, emergency)
    requires var g := GraphOf(config, earlier);
             tx in g.Transactions() && tx != g.emergency.value.0 && tx != g.emergency.value.1
    requires tx !in states[n].confirmed
    ensures tx !in states[q].confirmed
  {
    var g, s := GraphOf(config, earlier), states[n];
    GraphIsWellFormed(config, earlier);
    ControllerOf(config, earlier);
    RunIsConsistent(rules, states, events, n);
    CollisionIsLive(config, earlier, s, vaults, controllers, monthly, emergency);
    OneConnector(config, s, vaults, controllers, g, monthly, emergency);
    hide *;
    StepsAreRevoked(rules, states, events, n, q, g, tx);
  }

  lemma {:induction false} StepsAreRevoked(rules: Rules, states: seq<State>, events: seq<Event>, n: nat, q: nat, g: Graph, tx: Tx)
    requires Run(rules, states, events) && n <= q < |states| && WellFormed(g) && g.emergency.Some? && Consistent(states[n])
    requires g.Remainder() in states[n].coins
    requires forall o :: o in states[n].coins && states[n].coins[o].out.script == g.controller ==> o == g.TriggerConnector()
    requires tx in g.Transactions() && tx != g.emergency.value.0 && tx != g.emergency.value.1 && tx !in states[n].confirmed
    ensures tx !in states[q].confirmed
  {
    CreatedByParent(states[n], g.Remainder());
    hide Run, Consistent, WellFormed;
    var k: nat :| k < |g.authorizations| && g.authorizations[k] == tx;
    OutstandingIsRevoked(g, states[n], k);
    RevocationIsPermanent(rules, states, events, n, q, g, Progress(g, states[n], |g.authorizations|));
  }

  lemma {:induction false} ControllerOf(config: VaultConfig, batch: Batch)
    requires ValidBatch(config, batch)
    ensures GraphOf(config, batch).controller == config.Controller()
  {
    hide ValidBatch;
  }

  lemma {:induction false} OneConnector(config: VaultConfig, s: State, vaults: seq<Utxo>, controllers: seq<Utxo>, g: Graph, monthly: U64,
                                        emergency: U64)
    requires ExactScan(config, s, vaults, controllers) && Collides(g, vaults, controllers, monthly, emergency)
    requires g.controller == config.Controller()
    ensures forall o :: o in s.coins && s.coins[o].out.script == g.controller ==> o == g.TriggerConnector()
  {
    hide SelectedCount, ChainTotal, UtxoSum;
  }

  // With no other connector left, the next outstanding step has lost its own.
  lemma {:induction false} OutstandingIsRevoked(g: Graph, s: State, k: nat)
    requires WellFormed(g) && Consistent(s) && g.rollover in s.confirmed && g.emergency.Some?
    requires k < |g.authorizations| && g.authorizations[k] !in s.confirmed
    requires forall o :: o in s.coins && s.coins[o].out.script == g.controller ==> o == g.TriggerConnector()
    ensures var p := Progress(g, s, |g.authorizations|); p <= k && Revoked(g, s, p)
  {
    ProgressIsPrefix(g, s, |g.authorizations|);
    var p := Progress(g, s, |g.authorizations|);
    assert WellFormedStep(g, p);
    assert g.Connector(p).vout == 2 && g.TriggerConnector().vout == 3;
    CreatedByParent(s, g.Connector(p));
    hide WellFormed, Consistent;
  }

  lemma {:induction false} CollisionIsLive(config: VaultConfig, earlier: Batch, s: State, vaults: seq<Utxo>, controllers: seq<Utxo>,
                                           monthly: U64, emergency: U64)
    requires ValidBatch(config, earlier) && Collides(GraphOf(config, earlier), vaults, controllers, monthly, emergency)
    requires ListsLive(s, vaults) && ListsLive(s, controllers)
    ensures GraphOf(config, earlier).Remainder() in s.coins && GraphOf(config, earlier).TriggerConnector() in s.coins
  {
    hide ValidBatch;
  }

  lemma {:induction false} CollisionHasAllowance(config: VaultConfig, g: Graph, vaults: seq<Utxo>, controllers: seq<Utxo>, monthly: U64,
                                                 emergency: U64, firstAddress: nat, renewed: Batch)
    requires ValidBatch(config, renewed) && ProposalFor(config, vaults, controllers, monthly, emergency, firstAddress, renewed)
    requires Collides(g, vaults, controllers, monthly, emergency)
    ensures |GraphOf(config, renewed).authorizations| > 0
  {
    GraphIsWellFormed(config, renewed);
    RolloverIsPlanned(config, vaults, controllers, monthly, emergency, firstAddress, renewed);
    hide ValidBatch, ProposalFor, WellFormed, UtxoSum, SelectedCount, ChainTotal, RolloverInputs, RolloverOutputs, PlannedRemainder;
  }

  // The old withdrawal is not the first new allowance: their delays differ.
  lemma {:induction false} FirstStepDiffers(config: VaultConfig, renewed: Batch, g: Graph)
    requires ValidBatch(config, renewed) && WellFormed(g) && g.emergency.Some? && |GraphOf(config, renewed).authorizations| > 0
    ensures GraphOf(config, renewed).authorizations[0] != g.emergency.value.1
  {
    GraphIsWellFormed(config, renewed);
    hide ValidBatch;
    var r := GraphOf(config, renewed);
    assert WellFormedStep(r, 0);
    assert r.authorizations[0].inputs[0].sequence == MONTHLY_SEQUENCE;
    assert g.emergency.value.1.inputs[0].sequence == EMERGENCY_SEQUENCE;
  }

  lemma {:induction false} LastConfirms(g: Graph, s: State)
    requires g.emergency.Some? && |g.emergency.value.0.outputs| == 3 && |g.emergency.value.1.outputs| == 1
    ensures var last, withdrawal := WithdrawalStates(g, s)[2], g.emergency.value.1;
            && withdrawal in last.confirmed
            && forall o :: o in Prevouts(withdrawal) ==> o in last.spent && last.spent[o] == withdrawal
  {
    hide Prevouts;
  }

  // ----- A collision from real inputs -----

  /** What a scan reports after the rollover has confirmed, when there is no allowance chain. */
  function RemainderScan(config: VaultConfig, remainder: OutPoint): seq<Utxo> {
    [Utxo(remainder, TxOut(1_500_000, config.Vault()), 1)]
  }

  function ConnectorScan(config: VaultConfig, connector: OutPoint): seq<Utxo> {
    [Utxo(connector, ConnectorOutput(config.Controller()), 1)]
  }

  predicate WithdrawsToP2tr(m: Manifest) {
    m.emergency.Some? ==> ScriptLength(m.emergency.value.hotAddress.script) == 34
  }

  /** A remainder of 1,500,000 and an emergency amount of 1,000,000: a renewal without an emergency
      amount and with a monthly limit of 1,000,000 can be built, and its rollover is the old trigger. */
  lemma {:induction false} ACollision(config: VaultConfig, earlier: Batch)
    requires ValidBatch(config, earlier)
    requires earlier.manifest.emergencyLimit == 1_000_000 && earlier.manifest.remainderValue == 1_500_000 && WithdrawsToP2tr(earlier.manifest)
    ensures var g := GraphOf(config, earlier);
            var vaults, controllers := RemainderScan(config, g.Remainder()), ConnectorScan(config, g.TriggerConnector());
            && Buildable(config, vaults, controllers, 1_000_000, 0, config.phone)
            && SelectedCount(1, 1, 1_501_000, 1_000_000, 0) == 1
            && Collides(g, vaults, controllers, 1_000_000, 0)
            && g.emergency.Some?
            && g.emergency.value.0 == TriggerTemplate(g.Remainder(), g.TriggerConnector(), 999_245, 500_424, config.Vault(), config.Controller())
  {
    var g, e := GraphOf(config, earlier), earlier.manifest.emergency;
    GraphIsWellFormed(config, earlier);
    EmergencyBoth(config, earlier);
    EarlierTrigger(config, earlier);
    EarlierStaging(config, earlier);
    hide ValidBatch, WellFormed, GraphOf;
    var vaults, controllers := RemainderScan(config, g.Remainder()), ConnectorScan(config, g.TriggerConnector());
    ScanSums(config, g.Remainder(), g.TriggerConnector());
    ExampleCount();
    hide UtxoSum, SelectedCount;
    assert P2trVsize(1, 1, 3) == 331;
  }

  lemma {:induction false} EarlierStaging(config: VaultConfig, earlier: Batch)
    requires ValidBatch(config, earlier) && earlier.manifest.emergency.Some? && WithdrawsToP2tr(earlier.manifest)
    ensures var e := earlier.manifest.emergency.value;
            e.stagingValue + CONNECTOR_VALUE_SATS == earlier.manifest.emergencyLimit + FINAL_FEE
  {
    var m, files := earlier.manifest, earlier.files;
    BatchParts(config, earlier);
    hide ValidBatch, ValidStep, ValidRollover, ManifestTransactions, ValidHeader;
    WithdrawalFee(config, m.emergencyLimit, RemainderVout(m), EmergencyVout(m), files, files[m.rollover.file].tx, m.emergency.value);
  }

  lemma {:induction false} WithdrawalFee(config: VaultConfig, limit: U64, remainderVout: U32, connectorVout: U32, files: Files,
                                         rollover: Tx, e: EmergencyPolicy)
    requires ValidEmergency(config, limit, remainderVout, connectorVout, files, rollover, Some(e))
    requires ScriptLength(e.hotAddress.script) == 34
    ensures e.stagingValue + CONNECTOR_VALUE_SATS == limit + FINAL_FEE
  {
    hide ValidChild, ValidTrigger;
    SingleStepFees(TxOut(limit, e.hotAddress.script), TxOut(0, config.Vault()), ConnectorOutput(config.Controller()));
    hide PolicyVsize, MinimalNonDust;
  }

  lemma {:induction false} ScanSums(config: VaultConfig, remainder: OutPoint, connector: OutPoint)
    ensures UtxoSum(RemainderScan(config, remainder)) == 1_500_000 && UtxoSum(ConnectorScan(config, connector)) == 1_000
  {
    var vaults, controllers := RemainderScan(config, remainder), ConnectorScan(config, connector);
    assert vaults[1..] == [] && controllers[1..] == [];
  }

  lemma {:induction false} ExampleCount()
    ensures SelectedCount(1, 1, 1_501_000, 1_000_000, 0) == 1
    ensures !SearchFails(1, 1, 1_501_000, 1_000_000, 0)
    ensures ChainTotal(1, 1_000_000) == 999_245
  {
    assert P2trVsize(1, 1, 3) == 331;
    assert ChainTotal(2, 1_000_000) == 1_999_576;
    RequiredIsMonotone(1, 1, 1_000_000, 0, 1, 12);
    SelectionIsOptimal(1, 1, 1_501_000, 1_000_000, 0, 1);
    SelectionIsOptimal(1, 1, 1_501_000, 1_000_000, 0, 2);
  }

  /** The one coin from which the example starts. */
  function FirstCoin(config: VaultConfig): Utxo {
    Utxo(OutPoint(External(0), 0), TxOut(1_501_205, config.Vault()), 1)
  }

  lemma {:induction false} FirstCoinIsEnough(config: VaultConfig)
    ensures Buildable(config, [FirstCoin(config)], [], 0, 1_000_000, config.phone)
    ensures PlannedOutputs(config, [FirstCoin(config)], [], 0, 1_000_000)
            == Some([TxOut(1_500_000, config.Vault()), ConnectorOutput(config.Controller())])
  {
    var vaults := [FirstCoin(config)];
    assert vaults[1..] == [];
    assert UtxoSum(vaults) == 1_501_205;
    assert P2trVsize(1, 0, 2) == 205;
    assert RolloverOutputs(None, 1_500_000, config.Vault(), config.Controller(), true)
        == [TxOut(1_500_000, config.Vault()), ConnectorOutput(config.Controller())];
  }

  /** The example's earlier batch: one remainder and one trigger connector. */
  lemma {:induction false} FirstBatch(config: VaultConfig, first: nat, earlier: Batch)
    requires ValidBatch(config, earlier) && ProposalFor(config, [FirstCoin(config)], [], 0, 1_000_000, first, earlier)
    ensures var m, g := earlier.manifest, GraphOf(config, earlier);
            && m.emergencyLimit == 1_000_000 && m.remainderValue == 1_500_000 && WithdrawsToP2tr(m)
            && g.rollover == Tx(2, 0, [TxIn(FirstCoin(config).outpoint, SEQUENCE_MAX)],
                                [TxOut(1_500_000, config.Vault()), ConnectorOutput(config.Controller())])
            && g.Remainder() == OutPoint(TxidOf(g.rollover), 0) && g.TriggerConnector() == OutPoint(TxidOf(g.rollover), 1)
  {
    FirstCoinIsEnough(config);
    RenewedRollover(config, [FirstCoin(config)], [], 0, 1_000_000, first, earlier);
    RolloverIsPlanned(config, [FirstCoin(config)], [], 0, 1_000_000, first, earlier);
    EarlierTail(config, earlier);
    Replays(config, [FirstCoin(config)], [], 0, 1_000_000, first, earlier);
    FirstLimits(config, first, earlier);
    assert RolloverInputs([FirstCoin(config)], []) == [TxIn(FirstCoin(config).outpoint, SEQUENCE_MAX)];
    hide ValidBatch, ProposalFor, PlannedOutputs, RolloverInputs, GraphOf;
  }

  lemma {:induction false} FirstLimits(config: VaultConfig, first: nat, earlier: Batch)
    requires ProposalFor(config, [FirstCoin(config)], [], 0, 1_000_000, first, earlier)
    ensures earlier.manifest.emergencyLimit == 1_000_000 && earlier.manifest.allowanceCount == 0
  {
    hide PhoneSigned, RolloverShape, AddressesReplay, UtxoSum, IndexRange;
  }

  lemma {:induction false} EarlierTail(config: VaultConfig, earlier: Batch)
    requires ValidBatch(config, earlier) && earlier.manifest.allowanceCount == 0
    ensures GraphOf(config, earlier).remainderVout == 0 && GraphOf(config, earlier).emergencyVout == 1
  {
    hide ValidBatch;
  }

  /** Coin received, earlier rollover confirmed. */
  function FirstStates(config: VaultConfig, rollover: Tx): seq<State>
    requires |rollover.outputs| <= 2
  {
    var empty := State(map[], map[], map[], 0);
    var funded := empty.(coins := map[FirstCoin(config).outpoint := Coin(FirstCoin(config).txout, 0)]);
    [empty, funded, After(funded, rollover)]
  }

  function FirstEvents(config: VaultConfig, rollover: Tx): seq<Event> {
    [Deposit(0, 0, FirstCoin(config).txout), Confirm(rollover)]
  }

  lemma {:induction false} FirstRun(config: VaultConfig, rollover: Tx, rules: Rules)
    requires rollover == Tx(2, 0, [TxIn(FirstCoin(config).outpoint, SEQUENCE_MAX)],
                            [TxOut(1_500_000, config.Vault()), ConnectorOutput(config.Controller())])
    requires rollover in rules.cosigned
    ensures Run(rules, FirstStates(config, rollover), FirstEvents(config, rollover))
    ensures FirstStates(config, rollover)[2].coins
            == map[OutPoint(TxidOf(rollover), 0) := Coin(TxOut(1_500_000, config.Vault()), 0),
                   OutPoint(TxidOf(rollover), 1) := Coin(ConnectorOutput(config.Controller()), 0)]
  {
    var states := FirstStates(config, rollover);
    assert Next(rules, states[0], Deposit(0, 0, FirstCoin(config).txout), states[1]);
    assert CanConfirm(rules, states[1], rollover);
    forall o
      ensures o in states[2].coins <==> o == OutPoint(TxidOf(rollover), 0) || o == OutPoint(TxidOf(rollover), 1)
      ensures o == OutPoint(TxidOf(rollover), 0) ==> states[2].coins[o] == Coin(TxOut(1_500_000, config.Vault()), 0)
      ensures o == OutPoint(TxidOf(rollover), 1) ==> states[2].coins[o] == Coin(ConnectorOutput(config.Controller()), 0)
    {
      AfterAt(states[1], rollover, o);
      assert rollover.inputs[0].prevout in Prevouts(rollover);
    }
    hide After, CanConfirm;
  }

  lemma {:induction false} FirstScan(config: VaultConfig, g: Graph, s: State)
    requires s.coins == map[g.Remainder() := Coin(TxOut(1_500_000, config.Vault()), 0),
                            g.TriggerConnector() := Coin(ConnectorOutput(config.Controller()), 0)]
    requires g.Remainder() != g.TriggerConnector()
    ensures ExactScan(config, s, RemainderScan(config, g.Remainder()), ConnectorScan(config, g.TriggerConnector()))
  {
    var vaults, controllers := RemainderScan(config, g.Remainder()), ConnectorScan(config, g.TriggerConnector());
    assert vaults[0].outpoint == g.Remainder() && controllers[0].outpoint == g.TriggerConnector();
  }

  /** There is a run in which the withdrawal of the batch `g` confirms and takes the first chain output
      and connector of the batch `r`. */
  ghost predicate Drains(g: Graph, r: Graph)
    requires g.emergency.Some? && |r.authorizations| > 0
  {
    exists states: seq<State>, events: seq<Event> ::
      && Run(Rules(g.vault, g.Transactions()), states, events)
      && g.emergency.value.1 in states[|states| - 1].confirmed && Revoked(r, states[|states| - 1], 0)
  }

  lemma {:induction false} ExampleDrains(config: VaultConfig, first: nat, second: nat, earlier: Batch, renewed: Batch)
    requires ValidBatch(config, earlier) && ProposalFor(config, [FirstCoin(config)], [], 0, 1_000_000, first, earlier)
    requires var g := GraphOf(config, earlier);
             && ValidBatch(config, renewed)
             && ProposalFor(config, RemainderScan(config, g.Remainder()), ConnectorScan(config, g.TriggerConnector()), 1_000_000, 0,
                            second, renewed)
    ensures var g, r := GraphOf(config, earlier), GraphOf(config, renewed);
            && g.emergency.Some? && r.rollover == g.emergency.value.0 && |r.authorizations| > 0 && Drains(g, r)
  {
    hide *;
    var g, r := GraphOf(config, earlier), GraphOf(config, renewed);
    var vaults, controllers := RemainderScan(config, g.Remainder()), ConnectorScan(config, g.TriggerConnector());
    var rules := Rules(g.vault, g.Transactions());
    FirstSteps(config, first, earlier);
    var states, events := FirstStates(config, g.rollover), FirstEvents(config, g.rollover);
    ExampleRenews(config, second, earlier, renewed, states[2]);
    CollisionFreesWithdrawal(config, earlier, vaults, controllers, 1_000_000, 0, second, renewed, rules, states, events);
    DrainsBy(g, r, states + WithdrawalStates(g, states[2]), events + WithdrawalEvents(g));
  }

  lemma {:induction false} DrainsBy(g: Graph, r: Graph, states: seq<State>, events: seq<Event>)
    requires g.emergency.Some? && |r.authorizations| > 0
    requires Run(Rules(g.vault, g.Transactions()), states, events)
    requires g.emergency.value.1 in states[|states| - 1].confirmed && Revoked(r, states[|states| - 1], 0)
    ensures Drains(g, r)
  {
    hide Run, Revoked;
  }

  // The example's ledger up to the scan, and what is known about the earlier batch by then.
  lemma {:induction false} FirstSteps(config: VaultConfig, first: nat, earlier: Batch)
    requires ValidBatch(config, earlier) && ProposalFor(config, [FirstCoin(config)], [], 0, 1_000_000, first, earlier)
    ensures var m, g := earlier.manifest, GraphOf(config, earlier);
            && m.emergencyLimit == 1_000_000 && m.remainderValue == 1_500_000 && WithdrawsToP2tr(m)
            && |g.rollover.outputs| == 2 && g.emergency.Some? && g.vault == config.Vault()
            && g.emergency.value.0 in g.Transactions() && g.emergency.value.1 in g.Transactions()
            && |FirstStates(config, g.rollover)| == 3 && |FirstEvents(config, g.rollover)| == 2
            && Run(Rules(g.vault, g.Transactions()), FirstStates(config, g.rollover), FirstEvents(config, g.rollover))
            && ExactScan(config, FirstStates(config, g.rollover)[2], RemainderScan(config, g.Remainder()),
                         ConnectorScan(config, g.TriggerConnector()))
  {
    var g := GraphOf(config, earlier);
    FirstBatch(config, first, earlier);
    ACollision(config, earlier);
    VaultOf(config, earlier);
    hide ValidBatch, ProposalFor, Collides, Buildable, GraphOf, ExactScan, Run, Next, After, SelectedCount, TriggerTemplate;
    FirstRun(config, g.rollover, Rules(g.vault, g.Transactions()));
    FirstScan(config, g, FirstStates(config, g.rollover)[2]);
  }

  lemma {:induction false} ExampleRenews(config: VaultConfig, second: nat, earlier: Batch, renewed: Batch, s: State)
    requires ValidBatch(config, earlier) && ValidBatch(config, renewed)
    requires earlier.manifest.emergencyLimit == 1_000_000 && earlier.manifest.remainderValue == 1_500_000 && WithdrawsToP2tr(earlier.manifest)
    requires var g := GraphOf(config, earlier);
             var vaults, controllers := RemainderScan(config, g.Remainder()), ConnectorScan(config, g.TriggerConnector());
             ProposalFor(config, vaults, controllers, 1_000_000, 0, second, renewed) && ExactScan(config, s, vaults, controllers)
    ensures var g := GraphOf(config, earlier);
            var vaults, controllers := RemainderScan(config, g.Remainder()), ConnectorScan(config, g.TriggerConnector());
            && Renews(config, earlier, s, vaults, controllers, 1_000_000, 0, second, renewed)
            && Collides(g, vaults, controllers, 1_000_000, 0)
  {
    ACollision(config, earlier);
    hide ValidBatch, ProposalFor, ExactScan, Collides, Buildable, SelectedCount;
  }

  /** Both batches come out of the builder, the second from an exact scan of what the first leaves. */
  method CollidingRenewal(config: VaultConfig, hot: AddressCursor) returns (earlier: Batch, renewed: Batch)
    requires hot.network == config.network && hot.owner == config.phone
    modifies hot`next
    ensures ValidBatch(config, earlier) && ValidBatch(config, renewed)
    ensures var g, r := GraphOf(config, earlier), GraphOf(config, renewed);
            && g.emergency.Some? && r.rollover == g.emergency.value.0 && |r.authorizations| > 0 && Drains(g, r)
  {
    hide *;
    ghost var first, second := hot.next, hot.next + 1;
    FirstCoinIsEnough(config);
    var built := BuildPolicyProposal(config, [FirstCoin(config)], [], 0, 1_000_000, config.phone, hot);
    earlier := built.value;
    FirstBatch(config, first, earlier);
    ACollision(config, earlier);
    RolloverOf(config, earlier);
    var txid := TxidOf(earlier.files[earlier.manifest.rollover.file].tx);
    second := hot.next;
    var again := BuildPolicyProposal(config, RemainderScan(config, OutPoint(txid, 0)), ConnectorScan(config, OutPoint(txid, 1)),
                                     1_000_000, 0, config.phone, hot);
    renewed := again.value;
    ExampleDrains(config, first, second, earlier, renewed);
  }
}
