/** How many allowances a rollover funds (src/core/ceremony.rs). */
module Selection {
  import opened Wrappers
  import opened Bitcoin
  import opened Fees
  import opened Ceremony

  // Fees of the two authorization shapes with P2TR outputs (Fees.SingleStepFees).
  const CONTINUING_FEE: nat := 331
  const FINAL_FEE: nat := 245

  // ----- The allowance chain value -----

  /** What a chain of n allowances must hold, built one hop at a time from its end. The last hop is
      partly paid by its connector. */
  function ChainTotal(n: nat, limit: U64): int
    requires n >= 1
  {
    if n == 1 then limit + FINAL_FEE - CONNECTOR_VALUE_SATS
    else limit + CONTINUING_FEE + ChainTotal(n - 1, limit)
  }

  /** The closed form computed up front is the hop-by-hop total, and it is refused exactly when that
      total is negative or does not fit before the connector is deducted. */
  lemma {:induction false} ChainValueTelescopes(n: nat, limit: U64)
    requires n >= 1
    ensures AllowanceChainValue(n, limit, CONTINUING_FEE, FINAL_FEE) ==
            if 0 <= ChainTotal(n, limit) && ChainTotal(n, limit) + CONNECTOR_VALUE_SATS <= MAX_U64
            then Some(ChainTotal(n, limit)) else None
  {
    ChainClosedForm(n, limit);
  }

  lemma {:induction false} ChainClosedForm(n: nat, limit: U64)
    requires n >= 1
    ensures ChainTotal(n, limit) == limit * n + CONTINUING_FEE * (n - 1) + FINAL_FEE - CONNECTOR_VALUE_SATS
  {
    if n > 1 {
      ChainClosedForm(n - 1, limit);
      assert limit * n == limit * (n - 1) + limit;
    }
  }

  lemma {:induction false} ChainTotalAtLeast(n: nat, limit: U64)
    requires n >= 1
    ensures ChainTotal(n, limit) >= ChainTotal(1, limit)
  {
    if n > 1 {
      ChainTotalAtLeast(n - 1, limit);
    }
  }

  // ----- The largest fundable count -----

  /** What the remainder output must keep: dust alone, or the whole emergency package and dust. */
  function MinimumRemainder(emergency: U64): int {
    if emergency == 0 then P2TR_DUST
    else emergency + FINAL_FEE - CONNECTOR_VALUE_SATS + CONTINUING_FEE + P2TR_DUST
  }

  function EmergencyOutputs(emergency: U64): nat {
    if emergency > 0 then 1 else 0
  }

  /** Everything a rollover with `count` allowances must pay for. */
  function Required(vaults: nat, controllers: nat, limit: U64, emergency: U64, count: nat): int {
    if count == 0 then
      P2trVsize(vaults, controllers, 1 + EmergencyOutputs(emergency)) + MinimumRemainder(emergency)
      + CONNECTOR_VALUE_SATS * EmergencyOutputs(emergency)
    else
      P2trVsize(vaults, controllers, 3 + EmergencyOutputs(emergency)) + ChainTotal(count, limit)
      + MinimumRemainder(emergency) + CONNECTOR_VALUE_SATS * (1 + EmergencyOutputs(emergency))
  }

  /** The greatest count up to `max` that the balance funds; zero when none does. */
  function Greatest(vaults: nat, controllers: nat, total: U64, limit: U64, emergency: U64, max: nat): (count: nat)
    ensures count <= max
    ensures count > 0 ==> Required(vaults, controllers, limit, emergency, count) <= total
    ensures forall c :: count < c <= max ==> Required(vaults, controllers, limit, emergency, c) > total
  {
    if max == 0 then 0
    else if Required(vaults, controllers, limit, emergency, max) <= total then max
    else Greatest(vaults, controllers, total, limit, emergency, max - 1)
  }

  /** The count that the builder selects. */
  function SelectedCount(vaults: nat, controllers: nat, total: U64, limit: U64, emergency: U64): nat {
    if limit == 0 then 0 else Greatest(vaults, controllers, total, limit, emergency, MONTHS_PER_ROLLOVER)
  }

  lemma {:induction false} RequiredIsMonotone(vaults: nat, controllers: nat, limit: U64, emergency: U64, a: nat, b: nat)
    requires 1 <= a <= b
    ensures Required(vaults, controllers, limit, emergency, a) <= Required(vaults, controllers, limit, emergency, b)
  {
    if a < b {
      RequiredIsMonotone(vaults, controllers, limit, emergency, a, b - 1);
    }
  }

  /** The selected count is the greatest fundable one, and every smaller positive count is fundable too. */
  lemma {:induction false} SelectionIsOptimal(vaults: nat, controllers: nat, total: U64, limit: U64, emergency: U64, c: nat)
    requires limit > 0 && 1 <= c <= MONTHS_PER_ROLLOVER
    ensures Required(vaults, controllers, limit, emergency, c) <= total
       <==> c <= SelectedCount(vaults, controllers, total, limit, emergency)
  {
    var count := SelectedCount(vaults, controllers, total, limit, emergency);
    if c <= count {
      RequiredIsMonotone(vaults, controllers, limit, emergency, c, count);
    }
  }

  /** A balance that covers twelve allowances gets exactly twelve, and no balance gets more. */
  lemma {:induction false} FullYear(vaults: nat, controllers: nat, total: U64, limit: U64, emergency: U64)
    requires limit > 0
    ensures SelectedCount(vaults, controllers, total, limit, emergency) <= 12
    ensures SelectedCount(vaults, controllers, total, limit, emergency) == 12
       <==> P2trVsize(vaults, controllers, if emergency > 0 then 4 else 3) + (12 * limit + 11 * 331 + 245 - 1_000)
            + (if emergency > 0 then emergency + 245 - 1_000 + 331 + 330 else 330) + (if emergency > 0 then 2_000 else 1_000) <= total
  {
    SelectionIsOptimal(vaults, controllers, total, limit, emergency, 12);
    ChainClosedForm(12, limit);
    hide ChainTotal, SelectedCount, P2trVsize;
  }

  lemma {:induction false} ChainTotalMonotoneInLimit(n: nat, a: U64, b: U64)
    requires n >= 1 && a <= b
    ensures ChainTotal(n, a) <= ChainTotal(n, b)
  {
    if n > 1 {
      ChainTotalMonotoneInLimit(n - 1, a, b);
    }
  }

  /** A larger balance never selects fewer allowances; a larger monthly limit or emergency amount
      never selects more. The emergency amount itself is not traded against allowances. */
  lemma {:induction false} SelectionIsMonotone(vaults: nat, controllers: nat, total: U64, total': U64, limit: U64, limit': U64,
                            emergency: U64, emergency': U64)
    requires total >= total' && 0 < limit <= limit' && emergency <= emergency'
    ensures SelectedCount(vaults, controllers, total, limit, emergency)
         >= SelectedCount(vaults, controllers, total', limit', emergency')
  {
    var count' := SelectedCount(vaults, controllers, total', limit', emergency');
    if count' > 0 {
      ChainTotalMonotoneInLimit(count', limit, limit');
      SelectionIsOptimal(vaults, controllers, total, limit, emergency, count');
    }
  }

  // ----- The builder's search -----

  datatype RolloverPlan = RolloverPlan(count: nat, chainValue: U64, fee: nat, remainder: nat)

  /** The search fails, rather than selecting, in exactly two cases: the largest count overflows, or
      only the single allowance is left and its limit does not even cover its own connector. */
  predicate SearchFails(vaults: nat, controllers: nat, total: U64, limit: U64, emergency: U64) {
    && limit > 0
    && (|| Required(vaults, controllers, limit, emergency, MONTHS_PER_ROLLOVER) > MAX_U64
        || (&& Required(vaults, controllers, limit, emergency, 2) > total
            && limit + FINAL_FEE < CONNECTOR_VALUE_SATS))
  }

  ghost predicate PlanFor(plan: RolloverPlan, vaults: nat, controllers: nat, total: U64, limit: U64, emergency: U64) {
    var e := EmergencyOutputs(emergency);
    && plan.count == SelectedCount(vaults, controllers, total, limit, emergency)
    && plan.chainValue == (if plan.count == 0 then 0 else ChainTotal(plan.count, limit))
    && plan.fee == P2trVsize(vaults, controllers, (if plan.count == 0 then 1 else 3) + e)
    && plan.fee + plan.chainValue + plan.remainder + CONNECTOR_VALUE_SATS * ((if plan.count == 0 then 0 else 1) + e) == total
    && plan.remainder >= MinimumRemainder(emergency)
  }

  method SelectRollover(inputs: seq<TxIn>, vaultIndexes: seq<nat>, controllerIndexes: seq<nat>, total: U64,
                        limit: U64, emergency: U64, minimumRemainder: U64, vault: Script, controller: Script)
    returns (r: Result<Option<RolloverPlan>>)
    requires ValidateInputPartition(|inputs|, vaultIndexes, controllerIndexes)
    requires minimumRemainder == MinimumRemainder(emergency)
    requires limit == 0 || limit >= P2TR_DUST
    requires ScriptLength(vault) == 34 && ScriptLength(controller) == 34
    ensures r.Failure? <==> SearchFails(|vaultIndexes|, |controllerIndexes|, total, limit, emergency)
    ensures r.Success? ==>
              var selected := SelectedCount(|vaultIndexes|, |controllerIndexes|, total, limit, emergency);
              if selected == 0 then r.value.None?
              else r.value.Some? && PlanFor(r.value.value, |vaultIndexes|, |controllerIndexes|, total, limit, emergency)
  {
    ghost var V, C := |vaultIndexes|, |controllerIndexes|;
    if limit == 0 {
      return Success(None);
    }
    var connectors := 1 + EmergencyOutputs(emergency);
    var count := MONTHS_PER_ROLLOVER;
    while count > 0
      invariant 0 <= count <= MONTHS_PER_ROLLOVER
      invariant forall c :: count < c <= MONTHS_PER_ROLLOVER ==> Required(V, C, limit, emergency, c) > total
      invariant count < MONTHS_PER_ROLLOVER ==> Required(V, C, limit, emergency, MONTHS_PER_ROLLOVER) <= MAX_U64
      invariant count == 0 ==> limit + FINAL_FEE >= CONNECTOR_VALUE_SATS
    {
      RequiredIsMonotone(V, C, limit, emergency, count, MONTHS_PER_ROLLOVER);
      ChainValueTelescopes(count, limit);
      if count >= 2 {
        ChainTotalAtLeast(count - 1, limit);
      }
      var chainValue := AllowanceChainValue(count, limit, CONTINUING_FEE, FINAL_FEE);
      if chainValue.None? {
        return Failure("chain value overflowed");
      }
      var fee := RolloverTemplateFee(inputs, vaultIndexes, controllerIndexes, Some(chainValue.value), vault, controller, emergency > 0);
      var required := fee + chainValue.value + minimumRemainder + CONNECTOR_VALUE_SATS * connectors;
      assert required == Required(V, C, limit, emergency, count);
      if required > MAX_U64 {
        return Failure("requirement overflowed");
      }
      if total >= required {
        if count >= 2 {
          RequiredIsMonotone(V, C, limit, emergency, 2, count);
        }
        SelectedIs(V, C, total, limit, emergency, count);
        return Success(Some(RolloverPlan(count, chainValue.value, fee,
                                         total - fee - chainValue.value - CONNECTOR_VALUE_SATS * connectors)));
      }
      count := count - 1;
    }
    return Success(None);
  }

  lemma {:induction false} SelectedIs(vaults: nat, controllers: nat, total: U64, limit: U64, emergency: U64, count: nat)
    requires limit > 0 && 1 <= count <= MONTHS_PER_ROLLOVER
    requires Required(vaults, controllers, limit, emergency, count) <= total
    requires forall c :: count < c <= MONTHS_PER_ROLLOVER ==> Required(vaults, controllers, limit, emergency, c) > total
    ensures SelectedCount(vaults, controllers, total, limit, emergency) == count
  {
    SelectionIsOptimal(vaults, controllers, total, limit, emergency, count);
  }

  method RolloverTemplateFee(inputs: seq<TxIn>, vaultIndexes: seq<nat>, controllerIndexes: seq<nat>,
                             allowanceValue: Option<U64>, vault: Script, controller: Script, emergency: bool)
    returns (fee: nat)
    requires ValidateInputPartition(|inputs|, vaultIndexes, controllerIndexes)
    requires ScriptLength(vault) == 34 && ScriptLength(controller) == 34
    ensures fee == P2trVsize(|vaultIndexes|, |controllerIndexes|,
                             (if allowanceValue.Some? then 3 else 1) + if emergency then 1 else 0)
  {
    var template := Tx(2, 0, inputs, RolloverOutputs(allowanceValue, 1, vault, controller, emergency));
    PartitionIsExact(|inputs|, vaultIndexes, controllerIndexes);
    var vsize := EstimatePolicyVsize(template, vaultIndexes, controllerIndexes);
    VsizeIgnoresAmounts(|vaultIndexes|, |controllerIndexes|, template.outputs);
    fee := vsize.value * DEFAULT_FEE_RATE_SAT_VB;
  }
}
