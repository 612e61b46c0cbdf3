/** Input roles and signed-size estimates (src/core/transactions.rs, src/core/ceremony.rs). */
module Fees {
  import opened Wrappers
  import opened Bitcoin

  const CONNECTOR_VALUE_SATS: nat := 1_000
  const DEFAULT_FEE_RATE_SAT_VB: nat := 1

  datatype SpendPath = Cooperative | PhoneRecovery | HwwRecovery

  const PHONE_RECOVERY_BLOCKS: nat := 61_200
  const HWW_RECOVERY_BLOCKS: nat := 65_535

  // Leaf sizes fixed by the script trees: a script of 70, 40 or 34 bytes at depth 1 or 2.
  function LeafScriptLength(path: SpendPath): nat {
    if path.Cooperative? then 70 else 40
  }

  function LeafControlBlockLength(path: SpendPath): nat {
    if path.Cooperative? then 65 else 97
  }

  function SignatureCount(path: SpendPath): nat {
    if path.Cooperative? then 2 else 1
  }

  const CONTROLLER_SCRIPT_LENGTH: nat := 34
  const CONTROLLER_CONTROL_BLOCK_LENGTH: nat := 65

  /** Length of a Bitcoin variable-length integer. */
  function VarIntLength(n: nat): nat {
    if n < 0xFD then 1 else if n <= 0xFFFF then 3 else if n <= 0xFFFF_FFFF then 5 else 9
  }

  function CeilDiv4(n: nat): nat {
    (n + 3) / 4
  }

  // A witness stack of n signatures, one script and one control block.
  function WitnessSize(signatures: nat, script: nat, control: nat): nat {
    1 + 65 * signatures + 1 + script + 1 + control
  }

  function VaultWitnessSize(path: SpendPath): nat {
    WitnessSize(SignatureCount(path), LeafScriptLength(path), LeafControlBlockLength(path))
  }

  const CONTROLLER_WITNESS_SIZE: nat := WitnessSize(1, CONTROLLER_SCRIPT_LENGTH, CONTROLLER_CONTROL_BLOCK_LENGTH)

  function OutputsSize(outputs: seq<TxOut>): nat {
    if outputs == [] then 0
    else 8 + VarIntLength(ScriptLength(outputs[0].script)) + ScriptLength(outputs[0].script) + OutputsSize(outputs[1..])
  }

  function BaseSize(inputCount: nat, outputs: seq<TxOut>): nat {
    4 + VarIntLength(inputCount) + 41 * inputCount + VarIntLength(|outputs|) + OutputsSize(outputs) + 4
  }

  function VsizeWithWitness(inputCount: nat, outputs: seq<TxOut>, witnessBytes: nat): nat {
    CeilDiv4(4 * BaseSize(inputCount, outputs) + 2 + witnessBytes)
  }

  /** The virtual size of a transaction whose inputs are `vaults` signed cooperative-leaf inputs
      and `controllers` signed controller inputs. */
  function PolicyVsize(vaults: nat, controllers: nat, outputs: seq<TxOut>): nat {
    VsizeWithWitness(vaults + controllers, outputs,
                     vaults * VaultWitnessSize(Cooperative) + controllers * CONTROLLER_WITNESS_SIZE)
  }

  function VaultVsize(path: SpendPath, inputCount: nat, outputs: seq<TxOut>): nat {
    VsizeWithWitness(inputCount, outputs, inputCount * VaultWitnessSize(path))
  }

  function ToSet(indexes: seq<nat>): set<nat> {
    set i | i in indexes
  }

  function Upto(n: nat): (s: set<nat>)
    ensures forall i :: i in s <==> 0 <= i < n
  {
    if n == 0 then {} else Upto(n - 1) + {n - 1}
  }

  lemma {:induction false} UptoSize(n: nat)
    ensures |Upto(n)| == n
  {
    if n > 0 {
      UptoSize(n - 1);
    }
  }

  function Identity(n: nat): seq<nat> {
    seq(n, i => i)
  }

  lemma {:induction false} SetBoundedByLength(s: seq<nat>)
    ensures |ToSet(s)| <= |s|
  {
    if s != [] {
      SetBoundedByLength(s[1..]);
      assert ToSet(s) == ToSet(s[1..]) + {s[0]};
    }
  }

  predicate Distinct(s: seq<nat>) {
    forall i, j :: 0 <= i < j < |s| ==> s[i] != s[j]
  }

  lemma {:induction false} DistinctTail(s: seq<nat>)
    requires s != [] && Distinct(s)
    ensures Distinct(s[1..])
  {
    forall i, j | 0 <= i < j < |s[1..]|
      ensures s[1..][i] != s[1..][j]
    {
      assert s[1..][i] == s[i + 1] && s[1..][j] == s[j + 1];
    }
  }

  lemma {:induction false} SetSizeIffDistinct(s: seq<nat>)
    ensures |ToSet(s)| == |s| <==> Distinct(s)
  {
    if s != [] {
      var rest := s[1..];
      SetSizeIffDistinct(rest);
      SetBoundedByLength(rest);
      assert ToSet(s) == ToSet(rest) + {s[0]};
      if s[0] in rest {
        assert ToSet(s) == ToSet(rest);
        var k :| 0 <= k < |rest| && rest[k] == s[0];
        assert s[0] == s[k + 1];
      } else {
        if Distinct(s) {
          DistinctTail(s);
        }
      }
    }
  }

  /** Every input below `count` has exactly one of the two roles, and nothing else has a role. */
  ghost predicate RolesCover(count: nat, vault: seq<nat>, controller: seq<nat>) {
    && (forall i: nat :: i < count ==> (i in vault) != (i in controller))
    && (forall i: nat :: i in vault || i in controller ==> i < count)
  }

  /** `validate_input_partition`. */
  function ValidateInputPartition(count: nat, vault: seq<nat>, controller: seq<nat>): bool {
    var v, c := ToSet(vault), ToSet(controller);
    && |v| == |vault|
    && |c| == |controller|
    && v !! c
    && |v| + |c| == count
    && (forall i | i in v + c :: i < count)
  }

  /** The cardinality check accepts exactly the role lists that together list every input once. */
  lemma {:induction false} PartitionIsExact(count: nat, vault: seq<nat>, controller: seq<nat>)
    ensures ValidateInputPartition(count, vault, controller)
       <==> multiset(vault + controller) == multiset(Identity(count))
    ensures ValidateInputPartition(count, vault, controller)
       <==> RolesCover(count, vault, controller) && Distinct(vault) && Distinct(controller)
  {
    SetSizeIffDistinct(vault);
    SetSizeIffDistinct(controller);
    CoverCardinality(count, vault, controller);
    var both: seq<int> := vault + controller;
    if ValidateInputPartition(count, vault, controller) {
      forall x: nat
        ensures multiset(both)[x] == multiset(Identity(count))[x]
      {
        DistinctMultiplicity(vault, x);
        DistinctMultiplicity(controller, x);
        DistinctMultiplicity(Identity(count), x);
        assert x in Identity(count) <==> x < count by {
          if x < count { assert Identity(count)[x] == x; }
        }
      }
    }
    if multiset(both) == multiset(Identity(count)) {
      assert |both| == |multiset(both)| == |multiset(Identity(count))| == count;
      forall x: nat
        ensures multiset(vault)[x] + multiset(controller)[x] == if x < count then 1 else 0
      {
        DistinctMultiplicity(Identity(count), x);
        assert x in Identity(count) <==> x < count by {
          if x < count { assert Identity(count)[x] == x; }
        }
        assert multiset(both)[x] == multiset(vault)[x] + multiset(controller)[x];
      }
      SimpleMultisetIsDistinct(vault);
      SimpleMultisetIsDistinct(controller);
      assert forall x: nat :: x in vault <==> multiset(vault)[x] == 1;
      assert forall x: nat :: x in controller <==> multiset(controller)[x] == 1;
      assert RolesCover(count, vault, controller);
    }
  }

  lemma {:induction false} DistinctMultiplicity(s: seq<nat>, x: nat)
    requires Distinct(s)
    ensures multiset(s)[x] == if x in s then 1 else 0
  {
    if s != [] {
      assert s == [s[0]] + s[1..];
      DistinctTail(s);
      DistinctMultiplicity(s[1..], x);
    }
  }

  lemma {:induction false} SimpleMultisetIsDistinct(s: seq<nat>)
    requires forall x: nat :: multiset(s)[x] <= 1
    ensures Distinct(s)
  {
    forall i, j | 0 <= i < j < |s|
      ensures s[i] != s[j]
    {
      assert s == s[..j] + s[j..];
      assert multiset(s)[s[j]] == multiset(s[..j])[s[j]] + multiset(s[j..])[s[j]];
      assert s[j] == s[j..][0];
      assert s[j] !in s[..j];
      assert s[i] == s[..j][i];
    }
  }

  /** With disjoint role sets, counting to `count` and covering every input are the same check. */
  lemma {:induction false} CoverCardinality(count: nat, vault: seq<nat>, controller: seq<nat>)
    ensures RolesCover(count, vault, controller)
       <==> && ToSet(vault) !! ToSet(controller)
            && |ToSet(vault)| + |ToSet(controller)| == count
            && Upto(count) <= ToSet(vault) + ToSet(controller)
    ensures RolesCover(count, vault, controller)
       <==> && ToSet(vault) !! ToSet(controller)
            && |ToSet(vault)| + |ToSet(controller)| == count
            && ToSet(vault) + ToSet(controller) <= Upto(count)
  {
    var v, c := ToSet(vault), ToSet(controller);
    UptoSize(count);
    RolesCoverAsSets(count, vault, controller);
    if v !! c {
      assert |v + c| == |v| + |c|;
      if |v + c| == count && Upto(count) <= v + c {
        SubsetOfEqualSize(Upto(count), v + c);
      }
      if |v + c| == count && v + c <= Upto(count) {
        SubsetOfEqualSize(v + c, Upto(count));
      }
    }
  }

  lemma {:induction false} RolesCoverAsSets(count: nat, vault: seq<nat>, controller: seq<nat>)
    ensures RolesCover(count, vault, controller)
       <==> ToSet(vault) !! ToSet(controller) && ToSet(vault) + ToSet(controller) == Upto(count)
  {
    var v, c := ToSet(vault), ToSet(controller);
    if RolesCover(count, vault, controller) {
      assert forall i :: i in v + c <==> i in Upto(count);
    }
    if v !! c && v + c == Upto(count) {
      forall i: nat
        ensures (i in vault <==> i in v) && (i in controller <==> i in c) && (i in v + c <==> i < count)
      {
        assert i in Upto(count) <==> i < count;
      }
    }
  }

  lemma {:induction false} SubsetOfEqualSize(a: set<nat>, b: set<nat>)
    requires a <= b && |a| == |b|
    ensures a == b
  {
    assert b == a + (b - a);
    assert |b| == |a| + |b - a|;
  }

  lemma {:induction false} SetMonotone(a: set<nat>, b: set<nat>)
    requires a <= b
    ensures |a| <= |b|
  {
    if a != {} {
      var x :| x in a;
      SetMonotone(a - {x}, b - {x});
    }
  }

  /** `estimate_policy_vsize` with the cooperative vault leaf. Role lists may repeat an index, as
      they are turned into sets. */
  method EstimatePolicyVsize(tx: Tx, vault: seq<nat>, controller: seq<nat>) returns (r: Result<nat>)
    ensures r.Success? <==> RolesCover(|tx.inputs|, vault, controller)
    ensures r.Success? ==> r.value == PolicyVsize(|ToSet(vault)|, |ToSet(controller)|, tx.outputs)
  {
    hide RolesCover, Upto, VarIntLength, OutputsSize, CeilDiv4, BaseSize;
    CoverCardinality(|tx.inputs|, vault, controller);
    var v, c := ToSet(vault), ToSet(controller);
    if !(v !! c) || |v| + |c| != |tx.inputs| {
      return Failure("roles are not a partition");
    }
    var bytes := RoleWitnessBytes(|tx.inputs|, v, c);
    if bytes.None? {
      return Failure("input has no role");
    }
    return Success(VsizeWithWitness(|tx.inputs|, tx.outputs, bytes.value));
  }

  // How many of the first `n` inputs have a role.
  ghost function RoleCount(role: set<nat>, n: nat): nat {
    |role * Upto(n)|
  }

  lemma {:induction false} RoleCountStep(role: set<nat>, n: nat)
    ensures RoleCount(role, n + 1) == RoleCount(role, n) + if n in role then 1 else 0
  {
    if n in role {
      assert role * Upto(n + 1) == role * Upto(n) + {n};
    } else {
      assert role * Upto(n + 1) == role * Upto(n);
    }
  }

  // The loop that gives each input the witness of its role.
  method RoleWitnessBytes(count: nat, vault: set<nat>, controller: set<nat>) returns (r: Option<nat>)
    requires vault !! controller && |vault| + |controller| == count
    ensures r.Some? <==> Upto(count) <= vault + controller
    ensures r.Some? ==> r.value == 268 * |vault| + 167 * |controller|
  {
    var bytes := 0;
    for index := 0 to count
      invariant Upto(index) <= vault + controller
      invariant bytes == 268 * RoleCount(vault, index) + 167 * RoleCount(controller, index)
    {
      RoleCountStep(vault, index);
      RoleCountStep(controller, index);
      if index in vault {
        bytes := bytes + WitnessSize(2, 70, 65);
      } else if index in controller {
        bytes := bytes + WitnessSize(1, CONTROLLER_SCRIPT_LENGTH, CONTROLLER_CONTROL_BLOCK_LENGTH);
      } else {
        assert index in Upto(count);
        return None;
      }
    }
    FullRoleCount(count, vault, controller);
    return Some(bytes);
  }

  lemma {:induction false} FullRoleCount(count: nat, vault: set<nat>, controller: set<nat>)
    requires vault !! controller && |vault| + |controller| == count
    requires Upto(count) <= vault + controller
    ensures RoleCount(vault, count) == |vault| && RoleCount(controller, count) == |controller|
  {
    UptoSize(count);
    assert |vault + controller| == |vault| + |controller|;
    SubsetOfEqualSize(Upto(count), vault + controller);
    assert vault * Upto(count) == vault && controller * Upto(count) == controller;
  }

  /** `estimate_vault_vsize`. */
  method EstimateVaultVsize(tx: Tx, path: SpendPath) returns (vsize: nat)
    ensures vsize == VaultVsize(path, |tx.inputs|, tx.outputs)
  {
    var witnessBytes := 0;
    for index := 0 to |tx.inputs|
      invariant witnessBytes == index * VaultWitnessSize(path)
    {
      var signatures := 0;
      for count := 0 to SignatureCount(path)
        invariant signatures == 65 * count
      {
        signatures := signatures + 65;
      }
      witnessBytes := witnessBytes + 1 + signatures + 1 + LeafScriptLength(path) + 1 + LeafControlBlockLength(path);
    }
    vsize := VsizeWithWitness(|tx.inputs|, tx.outputs, witnessBytes);
  }

  /** `estimate_controller_vsize`: the two controller leaves have the same size. */
  method EstimateControllerVsize(tx: Tx) returns (vsize: nat)
    ensures vsize == PolicyVsize(0, |tx.inputs|, tx.outputs)
  {
    var witnessBytes := 0;
    for index := 0 to |tx.inputs|
      invariant witnessBytes == index * CONTROLLER_WITNESS_SIZE
    {
      witnessBytes := witnessBytes + WitnessSize(1, CONTROLLER_SCRIPT_LENGTH, CONTROLLER_CONTROL_BLOCK_LENGTH);
    }
    vsize := VsizeWithWitness(|tx.inputs|, tx.outputs, witnessBytes);
  }

  // ----- The signer's closed form (cold-signer/src/benchmark.rs) -----

  const MAX_U8: nat := 0xFF

  /** `policy_vsize`. The input counts are added as bytes, so a sum above 255 has no value. */
  function SignerVsize(vaults: nat, controllers: nat, outputs: nat): (r: Option<nat>)
    requires vaults <= MAX_U8 && controllers <= MAX_U8 && outputs <= MAX_U8
  {
    if vaults + controllers > MAX_U8 then None
    else
      var base := 4 + 1 + (vaults + controllers) * 41 + 1 + outputs * (8 + 1 + 34) + 4;
      var vaultWitness := 1 + 2 * (1 + 64) + 1 + 70 + 1 + 65;
      var controllerWitness := 1 + (1 + 64) + 1 + 34 + 1 + 65;
      Some(CeilDiv4(base * 4 + (2 + vaults * vaultWitness + controllers * controllerWitness)))
  }

  ghost predicate AllP2tr(outputs: seq<TxOut>) {
    forall i :: 0 <= i < |outputs| ==> ScriptLength(outputs[i].script) == 34
  }

  lemma {:induction false} P2trOutputsSize(outputs: seq<TxOut>)
    requires AllP2tr(outputs)
    ensures OutputsSize(outputs) == 43 * |outputs|
  {
    if outputs != [] {
      P2trOutputsSize(outputs[1..]);
    }
  }

  /** With P2TR outputs only, the estimate depends on nothing but the three counts. */
  function P2trVsize(vaults: nat, controllers: nat, outputs: nat): nat {
    CeilDiv4(4 * (4 + VarIntLength(vaults + controllers) + 41 * (vaults + controllers)
                  + VarIntLength(outputs) + 43 * outputs + 4)
             + 2 + vaults * VaultWitnessSize(Cooperative) + controllers * CONTROLLER_WITNESS_SIZE)
  }

  lemma {:induction false} VsizeIgnoresAmounts(vaults: nat, controllers: nat, outputs: seq<TxOut>)
    requires AllP2tr(outputs)
    ensures PolicyVsize(vaults, controllers, outputs) == P2trVsize(vaults, controllers, |outputs|)
  {
    P2trOutputsSize(outputs);
  }

  /** The signer's one-line size and the host's estimate agree on P2TR outputs exactly while both
      counts fit in a one-byte variable-length integer. Nothing else about the transaction
      matters. */
  lemma {:induction false} ClosedFormAgrees(vaults: nat, controllers: nat, outputs: seq<TxOut>)
    requires vaults <= MAX_U8 && controllers <= MAX_U8 && |outputs| <= MAX_U8
    requires AllP2tr(outputs)
    ensures SignerVsize(vaults, controllers, |outputs|) == Some(PolicyVsize(vaults, controllers, outputs))
       <==> vaults + controllers < 0xFD && |outputs| < 0xFD
  {
    P2trOutputsSize(outputs);
  }

  lemma {:induction false} SingleStepFees(hot: TxOut, chain: TxOut, connector: TxOut)
    requires AllP2tr([hot, chain, connector])
    ensures PolicyVsize(1, 1, [hot]) == 245
    ensures PolicyVsize(1, 1, [hot, chain, connector]) == 331
  {
    P2trOutputsSize([hot, chain, connector]);
    assert AllP2tr([hot]) by {
      assert [hot, chain, connector][0] == hot;
    }
    P2trOutputsSize([hot]);
  }

  /** The size of a sweep to one P2TR output, in numbers: 164 weight units and a witness for each input. */
  lemma {:induction false} SweepSizes(n: nat, destination: TxOut)
    requires 1 <= n < 0xFD && ScriptLength(destination.script) == 34
    ensures VaultVsize(Cooperative, n, [destination]) == (432 * n + 217) / 4
    ensures VaultVsize(PhoneRecovery, n, [destination]) == VaultVsize(HwwRecovery, n, [destination]) == (369 * n + 217) / 4
  {
    P2trOutputsSize([destination]);
  }

  /** Revoking any number of connectors at once, to a P2TR destination, is always funded by the
      connectors themselves and leaves at least what a single revocation leaves. */
  lemma {:induction false} RevocationLeavesChange(n: nat, destination: TxOut)
    requires n >= 1
    requires ScriptLength(destination.script) == 34
    ensures CONNECTOR_VALUE_SATS * n >= PolicyVsize(0, n, [destination]) + 863
    ensures n == 1 ==> CONNECTOR_VALUE_SATS * n == PolicyVsize(0, n, [destination]) + 863
  {
    P2trOutputsSize([destination]);
  }
}
