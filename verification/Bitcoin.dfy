/** The transaction model shared by every component.

    A txid is the transaction itself wrapped in a constructor. Equality of txids is then equality
    of transactions (injectivity), and no transaction can spend its own descendants' outputs,
    because the datatype is well founded. */
module Bitcoin {
  import opened Wrappers

  const MAX_U64: int := 0xFFFF_FFFF_FFFF_FFFF
  type U64 = n: int | 0 <= n <= MAX_U64
  type U32 = n: int | 0 <= n <= 0xFFFF_FFFF

  /** An x-only public key. */
  type Key = nat

  datatype Network = Mainnet | Regtest
  datatype AddressKind = P2tr | P2wsh | P2wpkh | P2pkh | P2sh
  datatype Program = Receive(owner: Key, index: nat) | Change(owner: Key, index: nat) | Foreign(id: nat)

  datatype Script =
    | VaultScript(phone: Key, hww: Key)
    | ControllerScript(phone: Key, hww: Key)
    | HotScript(kind: AddressKind, program: Program)

  datatype Address = Address(network: Network, script: Script)

  datatype Txid = External(id: nat) | TxidOf(tx: Tx)
  datatype OutPoint = OutPoint(txid: Txid, vout: U32)
  datatype TxIn = TxIn(prevout: OutPoint, sequence: U32)
  datatype TxOut = TxOut(value: U64, script: Script)
  datatype Tx = Tx(version: nat, lockTime: nat, inputs: seq<TxIn>, outputs: seq<TxOut>)

  /** How many hops along first inputs lead back to a transaction from outside. */
  function Depth(tx: Tx): nat {
    if |tx.inputs| > 0 && tx.inputs[0].prevout.txid.TxidOf? then 1 + Depth(tx.inputs[0].prevout.txid.tx) else 0
  }

  /** An unspent output as reported by a chain scan. */
  datatype Utxo = Utxo(outpoint: OutPoint, txout: TxOut, confirmationHeight: U64)

  const SEQUENCE_MAX: U32 := 0xFFFF_FFFF
  const SEQUENCE_RBF: U32 := 0xFFFF_FFFD
  const NULL_OUTPOINT := OutPoint(External(0), 0xFFFF_FFFF)

  function CheckedAdd(a: nat, b: nat): Option<U64> {
    if a + b <= MAX_U64 then Some(a + b) else None
  }

  function CheckedSub(a: nat, b: nat): Option<nat> {
    if a >= b then Some(a - b) else None
  }

  function ScriptLength(s: Script): nat {
    match s
    case VaultScript(_, _) => 34
    case ControllerScript(_, _) => 34
    case HotScript(kind, _) =>
      match kind
      case P2tr => 34
      case P2wsh => 34
      case P2wpkh => 22
      case P2pkh => 25
      case P2sh => 23
  }

  predicate IsWitnessProgram(s: Script) {
    !(s.HotScript? && (s.kind.P2pkh? || s.kind.P2sh?))
  }

  /** `ScriptBuf::minimal_non_dust` at the default relay rate of 3 sat per vbyte. */
  function MinimalNonDust(s: Script): nat {
    3 * ((if IsWitnessProgram(s) then 67 else 148) + 8 + 1 + ScriptLength(s))
  }

  const P2TR_DUST: nat := 330

  /** The thresholds of the common output types. */
  lemma {:induction false} DustThresholds(program: Program, phone: Key, hww: Key)
    ensures MinimalNonDust(HotScript(P2tr, program)) == MinimalNonDust(HotScript(P2wsh, program)) == 330
    ensures MinimalNonDust(VaultScript(phone, hww)) == MinimalNonDust(ControllerScript(phone, hww)) == 330
    ensures MinimalNonDust(HotScript(P2wpkh, program)) == 294 && MinimalNonDust(HotScript(P2pkh, program)) == 546
    ensures MinimalNonDust(HotScript(P2sh, program)) == 540
  {
  }

  function OutputSum(outputs: seq<TxOut>): nat {
    if outputs == [] then 0 else outputs[0].value + OutputSum(outputs[1..])
  }

  lemma {:induction false} OutputSums(a: TxOut, b: TxOut, c: TxOut)
    ensures OutputSum([a]) == a.value
    ensures OutputSum([a, b]) == a.value + b.value
    ensures OutputSum([a, b, c]) == a.value + b.value + c.value
  {
    assert [a, b][1..] == [b] && [a, b, c][1..] == [b, c] && [b, c][1..] == [c];
    assert OutputSum([c]) == c.value;
    assert OutputSum([b, c]) == b.value + OutputSum([c]);
    assert OutputSum([a, b, c]) == a.value + OutputSum([a, b, c][1..]);
  }

  lemma {:induction false} OutputSumAppend(xs: seq<TxOut>, ys: seq<TxOut>)
    ensures OutputSum(xs + ys) == OutputSum(xs) + OutputSum(ys)
  {
    if xs == [] {
      assert xs + ys == ys;
    } else {
      assert (xs + ys)[1..] == xs[1..] + ys;
      OutputSumAppend(xs[1..], ys);
    }
  }

  function UtxoSum(utxos: seq<Utxo>): nat {
    if utxos == [] then 0 else utxos[0].txout.value + UtxoSum(utxos[1..])
  }

  /** BIP 68: the delay, in seconds, that a sequence number imposes on its input when it encodes a
      time-based relative lock; zero when the lock is disabled or counts blocks. */
  function RelativeSeconds(version: nat, sequence: U32): nat {
    if version >= 2 && sequence < 0x8000_0000 && (sequence / 0x40_0000) % 2 == 1
    then 512 * (sequence % 0x1_0000)
    else 0
  }

  /** BIP 68: the same for a lock that counts blocks. */
  function RelativeBlocks(version: nat, sequence: U32): nat {
    if version >= 2 && sequence < 0x8000_0000 && (sequence / 0x40_0000) % 2 == 0 then sequence % 0x1_0000 else 0
  }

  /** `Sequence::from_seconds_ceil`. */
  function SequenceFromSecondsCeil(seconds: U32): (r: Result<U32>)
    ensures r.Success? <==> seconds <= 512 * 0xFFFF
    ensures r.Success? ==>
              var delay := RelativeSeconds(2, r.value);
              seconds <= delay < seconds + 512
  {
    var units := (seconds + 511) / 512;
    if units <= 0xFFFF then Success(0x40_0000 + units) else Failure("delay out of range")
  }
}
