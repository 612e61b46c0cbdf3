/** The signer's transactions: a bounded byte writer, the serializer on top of it, and its inverse
    (cold-signer/src/benchmark.rs). */
module SignerTransactions {
  import opened Bytes
  import opened Wrappers
  import opened Bitcoin

  const MAX_ROLLOVER_INPUTS: nat := 12
  const MAX_OUTPUTS: nat := 4
  const MAX_SERIALIZED_TX_SIZE: nat := 768
  const MAX_HASH_COMPONENT_SIZE: nat := 512
  const MESSAGE_SIZE: nat := 256
  const P2TR_SCRIPT_LEN: nat := 34

  type Hash = s: seq<Byte> | |s| == 32 witness seq(32, i => 0)
  type ScriptBytes = s: seq<Byte> | |s| == P2TR_SCRIPT_LEN witness seq(P2TR_SCRIPT_LEN, i => 0)

  datatype Input = Input(txid: Hash, vout: U32, amount: U64, sequence: U32, controller: bool)
  datatype Output = Output(amount: U64, script: ScriptBytes)
  datatype Transaction = Transaction(inputs: seq<Input>, outputs: seq<Output>)

  /** What `BenchmarkTransaction::new` accepts. */
  predicate Accepted(tx: Transaction) {
    1 <= |tx.inputs| <= MAX_ROLLOVER_INPUTS && 1 <= |tx.outputs| <= MAX_OUTPUTS
  }

  function NewTransaction(inputs: seq<Input>, outputs: seq<Output>): (r: Result<Transaction>)
    ensures r.Success? <==> Accepted(Transaction(inputs, outputs))
  {
    if |inputs| == 0 || |inputs| > MAX_ROLLOVER_INPUTS || |outputs| == 0 || |outputs| > MAX_OUTPUTS
    then Failure("serialization overflow")
    else Success(Transaction(inputs, outputs))
  }

  // ----- The writer -----

  function Concat(chunks: seq<seq<Byte>>): seq<Byte> {
    if chunks == [] then [] else chunks[0] + Concat(chunks[1..])
  }

  /** `ByteWriter`: a fixed buffer that is appended to and never grows. */
  class ByteWriter {
    const bytes: array<Byte>
    var len: nat

    constructor (capacity: nat)
      ensures Valid() && fresh(bytes) && bytes.Length == capacity && Contents() == []
    {
      bytes := new Byte[capacity](i => 0);
      len := 0;
    }

    ghost predicate Valid()
      reads this
    {
      len <= bytes.Length
    }

    ghost function Contents(): seq<Byte>
      requires Valid()
      reads this, bytes
    {
      bytes[..len]
    }

    /** Appends all of `values`, or changes nothing and reports that they do not fit. */
    method Extend(values: seq<Byte>) returns (ok: bool)
      requires Valid()
      modifies this, bytes
      ensures Valid()
      ensures ok <==> |old(Contents())| + |values| <= bytes.Length
      ensures Contents() == old(Contents()) + if ok then values else []
    {
      var end := len + |values|;
      if end > bytes.Length {
        assert Contents() == old(Contents()) + [];
        return false;
      }
      forall i | len <= i < end {
        bytes[i] := values[i - len];
      }
      len := end;
      assert bytes[..old(len)] == old(Contents());
      assert bytes[..len] == old(Contents()) + values;
      return true;
    }

    method Push(value: Byte) returns (ok: bool)
      requires Valid()
      modifies this, bytes
      ensures Valid()
      ensures ok <==> |old(Contents())| < bytes.Length
      ensures Contents() == old(Contents()) + if ok then [value] else []
    {
      ok := Extend([value]);
    }

    method Clear()
      requires Valid()
      modifies this
      ensures Valid() && Contents() == []
    {
      len := 0;
    }

    method AsSlice() returns (slice: seq<Byte>)
      requires Valid()
      ensures slice == Contents()
    {
      slice := bytes[..len];
    }

    /** A row of appends that stops at the first failure: the whole concatenation, or an overflow
        exactly when it does not fit. What was written before the overflow stays. */
    method ExtendAll(chunks: seq<seq<Byte>>) returns (ok: bool)
      requires Valid()
      modifies this, bytes
      ensures Valid()
      ensures ok <==> |old(Contents())| + |Concat(chunks)| <= bytes.Length
      ensures ok ==> Contents() == old(Contents()) + Concat(chunks)
      ensures Contents() <= old(Contents()) + Concat(chunks)
    {
      ghost var before := Contents();
      for n := 0 to |chunks|
        invariant Valid() && Contents() == before + Concat(chunks[..n])
      {
        assert chunks[..n + 1][..n] == chunks[..n];
        ConcatAppend(chunks[..n], chunks[n]);
        assert chunks[..n + 1] == chunks[..n] + [chunks[n]];
        ConcatPrefix(chunks, n + 1);
        ConcatPrefix(chunks, n);
        ok := Extend(chunks[n]);
        if !ok {
          return;
        }
        assert before + (Concat(chunks[..n]) + chunks[n]) == before + Concat(chunks[..n]) + chunks[n];
      }
      assert chunks[..|chunks|] == chunks;
      ok := true;
    }
  }

  lemma {:induction false} ConcatAppend(chunks: seq<seq<Byte>>, chunk: seq<Byte>)
    ensures Concat(chunks + [chunk]) == Concat(chunks) + chunk
  {
    if chunks == [] {
      assert [chunk][1..] == [];
    } else {
      assert (chunks + [chunk])[1..] == chunks[1..] + [chunk];
      ConcatAppend(chunks[1..], chunk);
    }
  }

  lemma {:induction false} ConcatPrefix(chunks: seq<seq<Byte>>, n: nat)
    requires n <= |chunks|
    ensures Concat(chunks[..n]) <= Concat(chunks)
  {
    if n > 0 {
      assert chunks[..n][1..] == chunks[1..][..n - 1];
      ConcatPrefix(chunks[1..], n - 1);
    }
  }

  // ----- The serialization -----

  function InputBytes(i: Input): (r: seq<Byte>)
    ensures |r| == 41
  {
    i.txid + LittleEndian(i.vout, 4) + [0] + LittleEndian(i.sequence, 4)
  }

  function OutputBytes(o: Output): (r: seq<Byte>)
    ensures |r| == 43
  {
    LittleEndian(o.amount, 8) + [P2TR_SCRIPT_LEN] + o.script
  }

  function InputChunks(inputs: seq<Input>): seq<seq<Byte>> {
    seq(|inputs|, i requires 0 <= i < |inputs| => InputBytes(inputs[i]))
  }

  function OutputChunks(outputs: seq<Output>): seq<seq<Byte>> {
    seq(|outputs|, i requires 0 <= i < |outputs| => OutputBytes(outputs[i]))
  }

  function TxBytes(tx: Transaction): seq<Byte>
    requires Accepted(tx)
  {
    LittleEndian(2, 4) + [|tx.inputs|] + Concat(InputChunks(tx.inputs)) + [|tx.outputs|]
    + Concat(OutputChunks(tx.outputs)) + LittleEndian(0, 4)
  }

  lemma {:induction false} ConcatLength(chunks: seq<seq<Byte>>, size: nat)
    requires forall i :: 0 <= i < |chunks| ==> |chunks[i]| == size
    ensures |Concat(chunks)| == size * |chunks|
  {
    if chunks != [] {
      ConcatLength(chunks[1..], size);
      assert size * |chunks| == size * (|chunks| - 1) + size;
    }
  }

  lemma {:induction false} ChunksGrow(inputs: seq<Input>, outputs: seq<Output>, k: nat)
    ensures k < |inputs| ==>
              Concat(InputChunks(inputs[..k + 1])) == Concat(InputChunks(inputs[..k])) + InputBytes(inputs[k])
    ensures k < |outputs| ==>
              Concat(OutputChunks(outputs[..k + 1])) == Concat(OutputChunks(outputs[..k])) + OutputBytes(outputs[k])
  {
    if k < |inputs| {
      assert InputChunks(inputs[..k + 1]) == InputChunks(inputs[..k]) + [InputBytes(inputs[k])];
      ConcatAppend(InputChunks(inputs[..k]), InputBytes(inputs[k]));
    }
    if k < |outputs| {
      assert OutputChunks(outputs[..k + 1]) == OutputChunks(outputs[..k]) + [OutputBytes(outputs[k])];
      ConcatAppend(OutputChunks(outputs[..k]), OutputBytes(outputs[k]));
    }
  }

  method WriteInput(writer: ByteWriter, i: Input) returns (ok: bool)
    requires writer.Valid()
    modifies writer, writer.bytes
    ensures writer.Valid() && (ok <==> |old(writer.Contents())| + 41 <= writer.bytes.Length)
    ensures ok ==> writer.Contents() == old(writer.Contents()) + InputBytes(i)
  {
    ok := writer.ExtendAll([i.txid, LittleEndian(i.vout, 4), [0], LittleEndian(i.sequence, 4)]);
    FourChunks(i.txid, LittleEndian(i.vout, 4), [0], LittleEndian(i.sequence, 4));
  }

  lemma {:induction false} FourChunks(a: seq<Byte>, b: seq<Byte>, c: seq<Byte>, d: seq<Byte>)
    ensures Concat([a, b, c, d]) == a + b + c + d
  {
    assert [a, b, c, d][1..] == [b, c, d] && [b, c, d][1..] == [c, d] && [c, d][1..] == [d] && [d][1..] == [];
    assert Concat([d]) == d;
    assert Concat([c, d]) == c + d;
    assert Concat([b, c, d]) == b + (c + d);
    assert Concat([a, b, c, d]) == a + (b + (c + d));
  }

  method WriteOutput(writer: ByteWriter, o: Output) returns (ok: bool)
    requires writer.Valid()
    modifies writer, writer.bytes
    ensures writer.Valid() && (ok <==> |old(writer.Contents())| + 43 <= writer.bytes.Length)
    ensures ok ==> writer.Contents() == old(writer.Contents()) + OutputBytes(o)
  {
    ok := writer.ExtendAll([LittleEndian(o.amount, 8), [P2TR_SCRIPT_LEN], o.script, []]);
    FourChunks(LittleEndian(o.amount, 8), [P2TR_SCRIPT_LEN], o.script, []);
    assert OutputBytes(o) + [] == OutputBytes(o);
  }

  /** `serialize_outputs`. */
  method SerializeOutputs(outputs: seq<Output>, writer: ByteWriter) returns (ok: bool)
    requires writer.Valid()
    modifies writer, writer.bytes
    ensures writer.Valid() && (ok <==> |old(writer.Contents())| + 43 * |outputs| <= writer.bytes.Length)
    ensures ok ==> writer.Contents() == old(writer.Contents()) + Concat(OutputChunks(outputs))
  {
    hide OutputBytes;
    ghost var before := writer.Contents();
    for k := 0 to |outputs|
      invariant writer.Valid() && writer.Contents() == before + Concat(OutputChunks(outputs[..k]))
      invariant |writer.Contents()| == |before| + 43 * k
    {
      ChunksGrow([], outputs, k);
      ok := WriteOutput(writer, outputs[k]);
      if !ok {
        return;
      }
    }
    assert outputs[..|outputs|] == outputs;
    ok := true;
  }

  method SerializeInputs(inputs: seq<Input>, writer: ByteWriter) returns (ok: bool)
    requires writer.Valid()
    modifies writer, writer.bytes
    ensures writer.Valid() && (ok <==> |old(writer.Contents())| + 41 * |inputs| <= writer.bytes.Length)
    ensures ok ==> writer.Contents() == old(writer.Contents()) + Concat(InputChunks(inputs))
  {
    hide InputBytes;
    ghost var before := writer.Contents();
    for k := 0 to |inputs|
      invariant writer.Valid() && writer.Contents() == before + Concat(InputChunks(inputs[..k]))
      invariant |writer.Contents()| == |before| + 41 * k
    {
      ChunksGrow(inputs, [], k);
      ok := WriteInput(writer, inputs[k]);
      if !ok {
        return;
      }
    }
    assert inputs[..|inputs|] == inputs;
    ok := true;
  }

  function HeadBytes(tx: Transaction): seq<Byte>
    requires Accepted(tx)
  {
    LittleEndian(2, 4) + [|tx.inputs|] + Concat(InputChunks(tx.inputs))
  }

  function TailBytes(tx: Transaction): seq<Byte>
    requires Accepted(tx)
  {
    [|tx.outputs|] + Concat(OutputChunks(tx.outputs)) + LittleEndian(0, 4)
  }

  lemma {:induction false} HeadAndTail(tx: Transaction)
    requires Accepted(tx)
    ensures TxBytes(tx) == HeadBytes(tx) + TailBytes(tx)
    ensures |HeadBytes(tx)| == 5 + 41 * |tx.inputs| && |TailBytes(tx)| == 5 + 43 * |tx.outputs|
  {
    ConcatLength(InputChunks(tx.inputs), 41);
    ConcatLength(OutputChunks(tx.outputs), 43);
    hide LittleEndian, Concat, InputBytes, OutputBytes;
  }

  method SerializeHead(tx: Transaction, writer: ByteWriter) returns (ok: bool)
    requires Accepted(tx) && writer.Valid() && |writer.Contents()| + |HeadBytes(tx)| <= writer.bytes.Length
    modifies writer, writer.bytes
    ensures ok && writer.Valid() && writer.Contents() == old(writer.Contents()) + HeadBytes(tx)
  {
    hide InputBytes, LittleEndian, Concat;
    ConcatLength(InputChunks(tx.inputs), 41);
    var version := writer.Extend(LittleEndian(2, 4));
    var count := writer.Push(|tx.inputs|);
    var inputs := SerializeInputs(tx.inputs, writer);
    ok := version && count && inputs;
    assert writer.Contents() == old(writer.Contents()) + HeadBytes(tx);
  }

  method SerializeTail(tx: Transaction, writer: ByteWriter) returns (ok: bool)
    requires Accepted(tx) && writer.Valid() && |writer.Contents()| + |TailBytes(tx)| <= writer.bytes.Length
    modifies writer, writer.bytes
    ensures ok && writer.Valid() && writer.Contents() == old(writer.Contents()) + TailBytes(tx)
  {
    hide OutputBytes, LittleEndian, Concat;
    ConcatLength(OutputChunks(tx.outputs), 43);
    var count := writer.Push(|tx.outputs|);
    var outputs := SerializeOutputs(tx.outputs, writer);
    var lockTime := writer.Extend(LittleEndian(0, 4));
    ok := count && outputs && lockTime;
    assert writer.Contents() == old(writer.Contents()) + TailBytes(tx);
  }

  /** `serialize`: for every accepted transaction the 768-byte buffer is enough. */
  method Serialize(tx: Transaction) returns (r: Result<seq<Byte>>)
    requires Accepted(tx)
    ensures r == Success(TxBytes(tx))
  {
    HeadAndTail(tx);
    hide HeadBytes, TailBytes, TxBytes;
    var writer := new ByteWriter(MAX_SERIALIZED_TX_SIZE);
    var head := SerializeHead(tx, writer);
    var tail := SerializeTail(tx, writer);
    if !head || !tail {
      return Failure("serialization overflow");
    }
    var slice := writer.AsSlice();
    assert [] + HeadBytes(tx) == HeadBytes(tx);
    return Success(slice);
  }

  // ----- Reading it back -----

  /** What a serialized input says. */
  datatype InputView = InputView(txid: seq<Byte>, vout: nat, sequence: nat)
  datatype OutputView = OutputView(amount: nat, script: seq<Byte>)
  datatype View = View(inputs: seq<InputView>, outputs: seq<OutputView>)

  function ParseInputs(bytes: seq<Byte>, n: nat): Option<(seq<InputView>, seq<Byte>)> {
    if n == 0 then Some(([], bytes))
    else if |bytes| < 41 || bytes[36] != 0 then None
    else
      var first := InputView(bytes[..32], FromLittleEndian(bytes[32..36]), FromLittleEndian(bytes[37..41]));
      var rest := ParseInputs(bytes[41..], n - 1);
      if rest.None? then None else Some(([first] + rest.value.0, rest.value.1))
  }

  function ParseOutputs(bytes: seq<Byte>, n: nat): Option<(seq<OutputView>, seq<Byte>)> {
    if n == 0 then Some(([], bytes))
    else if |bytes| < 43 || bytes[8] != P2TR_SCRIPT_LEN then None
    else
      var first := OutputView(FromLittleEndian(bytes[..8]), bytes[9..43]);
      var rest := ParseOutputs(bytes[43..], n - 1);
      if rest.None? then None else Some(([first] + rest.value.0, rest.value.1))
  }

  function Parse(bytes: seq<Byte>): Option<View> {
    if |bytes| < 5 || FromLittleEndian(bytes[..4]) != 2 then None
    else
      var inputs := ParseInputs(bytes[5..], bytes[4]);
      if inputs.None? || |inputs.value.1| == 0 then None
      else
        var outputs := ParseOutputs(inputs.value.1[1..], inputs.value.1[0]);
        if outputs.None? || |outputs.value.1| != 4 || FromLittleEndian(outputs.value.1) != 0 then None
        else Some(View(inputs.value.0, outputs.value.0))
  }

  function InputViews(inputs: seq<Input>): seq<InputView> {
    seq(|inputs|, i requires 0 <= i < |inputs| => InputView(inputs[i].txid, inputs[i].vout, inputs[i].sequence))
  }

  function OutputViews(outputs: seq<Output>): seq<OutputView> {
    seq(|outputs|, i requires 0 <= i < |outputs| => OutputView(outputs[i].amount, outputs[i].script))
  }

  // One input at the head of the bytes.
  lemma {:induction false} HeadInput(i: Input, rest: seq<Byte>)
    ensures var bytes := InputBytes(i) + rest;
            && |bytes| >= 41 && bytes[36] == 0 && bytes[41..] == rest
            && bytes[..32] == i.txid && FromLittleEndian(bytes[32..36]) == i.vout && FromLittleEndian(bytes[37..41]) == i.sequence
  {
    Widths();
    LittleEndianRoundTrip(i.vout, 4);
    LittleEndianRoundTrip(i.sequence, 4);
    hide LittleEndian, FromLittleEndian;
    var bytes := InputBytes(i) + rest;
    assert bytes[32..36] == LittleEndian(i.vout, 4);
    assert bytes[37..41] == LittleEndian(i.sequence, 4);
  }

  lemma {:induction false} HeadOutput(o: Output, rest: seq<Byte>)
    ensures var bytes := OutputBytes(o) + rest;
            && |bytes| >= 43 && bytes[8] == P2TR_SCRIPT_LEN && bytes[43..] == rest
            && FromLittleEndian(bytes[..8]) == o.amount && bytes[9..43] == o.script
  {
    Widths();
    LittleEndianRoundTrip(o.amount, 8);
    hide LittleEndian, FromLittleEndian;
    var bytes := OutputBytes(o) + rest;
    assert bytes[..8] == LittleEndian(o.amount, 8);
  }

  lemma {:induction false} InputsParse(inputs: seq<Input>, rest: seq<Byte>)
    ensures ParseInputs(Concat(InputChunks(inputs)) + rest, |inputs|) == Some((InputViews(inputs), rest))
  {
    var chunks := InputChunks(inputs);
    if inputs == [] {
      assert [] + rest == rest;
    } else {
      var tail := Concat(InputChunks(inputs[1..])) + rest;
      assert chunks[1..] == InputChunks(inputs[1..]);
      assert Concat(chunks) + rest == InputBytes(inputs[0]) + tail;
      HeadInput(inputs[0], tail);
      InputsParse(inputs[1..], rest);
      assert InputViews(inputs) == [InputView(inputs[0].txid, inputs[0].vout, inputs[0].sequence)] + InputViews(inputs[1..]);
      hide InputBytes, FromLittleEndian;
    }
  }

  lemma {:induction false} OutputsParse(outputs: seq<Output>, rest: seq<Byte>)
    ensures ParseOutputs(Concat(OutputChunks(outputs)) + rest, |outputs|) == Some((OutputViews(outputs), rest))
  {
    var chunks := OutputChunks(outputs);
    if outputs == [] {
      assert [] + rest == rest;
    } else {
      var tail := Concat(OutputChunks(outputs[1..])) + rest;
      assert chunks[1..] == OutputChunks(outputs[1..]);
      assert Concat(chunks) + rest == OutputBytes(outputs[0]) + tail;
      HeadOutput(outputs[0], tail);
      OutputsParse(outputs[1..], rest);
      assert OutputViews(outputs) == [OutputView(outputs[0].amount, outputs[0].script)] + OutputViews(outputs[1..]);
      hide OutputBytes, FromLittleEndian;
    }
  }

  /** Round trip: the bytes of an accepted transaction parse back to its outpoints, sequences and
      outputs. */
  lemma {:induction false} SerializationRoundTrip(tx: Transaction)
    requires Accepted(tx)
    ensures Parse(TxBytes(tx)) == Some(View(InputViews(tx.inputs), OutputViews(tx.outputs)))
  {
    Widths();
    LittleEndianRoundTrip(2, 4);
    LittleEndianRoundTrip(0, 4);
    hide LittleEndian, FromLittleEndian, InputBytes, OutputBytes, Concat, ParseInputs, ParseOutputs;
    var bytes := TxBytes(tx);
    var outputs := Concat(OutputChunks(tx.outputs)) + LittleEndian(0, 4);
    var rest := [|tx.outputs|] + outputs;
    assert bytes[..4] == LittleEndian(2, 4) && bytes[4] == |tx.inputs|;
    assert bytes[5..] == Concat(InputChunks(tx.inputs)) + rest;
    InputsParse(tx.inputs, rest);
    assert rest[1..] == outputs && rest[0] == |tx.outputs|;
    OutputsParse(tx.outputs, LittleEndian(0, 4));
  }

  /** So distinct outpoints, sequences or outputs have distinct bytes. */
  lemma {:induction false} SerializationIsInjective(a: Transaction, b: Transaction)
    requires Accepted(a) && Accepted(b) && TxBytes(a) == TxBytes(b)
    ensures InputViews(a.inputs) == InputViews(b.inputs) && OutputViews(a.outputs) == OutputViews(b.outputs)
  {
    SerializationRoundTrip(a);
    SerializationRoundTrip(b);
    hide TxBytes, Parse;
  }
}
