/** The safety of accepted batches: the validator's acceptance and the builder's choice of inputs are
    all that the on-chain guarantees need. */
module BatchSafety {
  import opened Wrappers
  import opened Bitcoin
  import opened Fees
  import opened Ceremony
  import opened Graph
  import opened Ledger
  import opened Safety
  import opened Conservation
  import opened Proposal

  /** Accepting a batch bounds its spending: within T seconds of the rollover at most one allowance
      per 2,592,256 s leaves, plus at most one emergency amount, 605,184 s after its trigger. */
  lemma {:induction false} AcceptedBatchIsBounded(config: VaultConfig, batch: Batch, rules: Rules, states: seq<State>,
                                                  events: seq<Event>, n: nat, T: nat)
    requires ValidBatch(config, batch) && Run(rules, states, events) && n < |states|
    requires GraphOf(config, batch).rollover in states[n].confirmed
    ensures var s, g, m := states[n], GraphOf(config, batch), batch.manifest;
            var start := s.confirmed[g.rollover];
            && WellFormed(g)
            && Released(g, s, start + T, |g.authorizations|) <= T / 2_592_256
            && TotalOutflow(g, s, start + T)
               <= (T / 2_592_256) * m.monthlyLimit + (if EmergencyPaid(g, s, start + T) then m.emergencyLimit else 0)
            && (EmergencyPaid(g, s, start + T) ==>
                  && g.emergency.value.0 in s.confirmed && g.emergency.value.1 in s.confirmed
                  && start <= s.confirmed[g.emergency.value.0] <= start + T - 605_184)
  {
    GraphIsWellFormed(config, batch);
    hide ValidBatch, WellFormed, Run;
    SpendingBound(rules, states, events, n, GraphOf(config, batch), T);
  }

  /** What an accepted batch still holds in the vault after k allowances, to the satoshi: the rest of
      the chain with its fees, and the remainder until the emergency is triggered. */
  lemma {:induction false} AcceptedBatchHolds(config: VaultConfig, batch: Batch, rules: Rules, states: seq<State>,
                                              events: seq<Event>, n: nat)
    requires ValidBatch(config, batch) && Run(rules, states, events) && n < |states|
    requires Independent(rules, GraphOf(config, batch))
    requires GraphOf(config, batch).rollover in states[n].confirmed
    ensures var s, g, m := states[n], GraphOf(config, batch), batch.manifest;
            var k := Progress(g, s, |g.authorizations|);
            && k <= m.allowanceCount == |g.authorizations|
            && (k < m.allowanceCount ==>
                  && HeldInVault(g, s, g.ChainOutput(k))
                  && s.coins[g.ChainOutput(k)].out.value + CONNECTOR_VALUE_SATS
                     == (m.allowanceCount - k) * m.monthlyLimit + FeeTotal(Authorizations(m)[k..]))
            && (g.emergency.Some? && g.emergency.value.0 !in s.confirmed ==>
                  HeldInVault(g, s, g.Remainder()) && s.coins[g.Remainder()].out.value == m.remainderValue)
  {
    var s, g, m := states[n], GraphOf(config, batch), batch.manifest;
    GraphIsWellFormed(config, batch);
    RemainderOutput(config, batch);
    hide ValidBatch, WellFormed, Run, Independent;
    PrincipalStaysInVault(rules, states, events, n, g);
    var k := Progress(g, s, |g.authorizations|);
    if k < m.allowanceCount {
      ChainOutputValue(config, batch, k);
      ChainValueIsWhatRemains(config, batch, k);
    }
  }

  lemma {:induction false} RemainderOutput(config: VaultConfig, batch: Batch)
    requires ValidBatch(config, batch)
    ensures var g := GraphOf(config, batch);
            && |g.rollover.outputs| > g.remainderVout
            && g.rollover.outputs[g.remainderVout].value == batch.manifest.remainderValue
  {
    BatchParts(config, batch);
    hide ValidBatch, ValidRollover;
    RolloverBalance(config, batch.manifest, batch.files[batch.manifest.rollover.file]);
  }
}
