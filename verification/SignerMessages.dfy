/** Reading a signature message back: what stands at which byte (cold-signer/src/benchmark.rs; section
    "Common signature message" of BIP 341). */
module SignerMessages {
  import opened Bytes
  import opened Bitcoin
  import opened SignerTransactions
  import opened SignerWalk

  // Chunks of one size stand at multiples of that size.
  lemma {:induction false} ChunkAt(chunks: seq<seq<Byte>>, size: nat, i: nat)
    requires (forall k :: 0 <= k < |chunks| ==> |chunks[k]| == size) && i < |chunks|
    ensures |Concat(chunks)| == size * |chunks| && size * i + size <= size * |chunks|
    ensures Concat(chunks)[size * i..size * i + size] == chunks[i]
  {
    ConcatLength(chunks, size);
    Multiples(size, i, |chunks|);
    if i == 0 {
      assert Concat(chunks)[..size] == chunks[0];
    } else {
      ChunkAt(chunks[1..], size, i - 1);
      ConcatLength(chunks[1..], size);
      assert size * (i - 1) + size == size * i;
      assert Concat(chunks) == chunks[0] + Concat(chunks[1..]);
      assert Concat(chunks)[size * i..size * i + size] == Concat(chunks[1..])[size * i - size..size * i];
    }
  }

  lemma {:induction false} Multiples(size: nat, i: nat, n: nat)
    requires i < n
    ensures size * i + size <= size * n
  {
    if i + 1 < n {
      Multiples(size, i, n - 1);
      assert size * n == size * (n - 1) + size;
    } else {
      assert size * n == size * i + size;
    }
  }

  /** The previous outputs, amounts, scripts, sequences and outputs that a signature commits to, each read
      back from the bytes that are hashed for it. */
  lemma {:induction false} ComponentsRead(tx: Transaction, context: Context, i: nat)
    requires Accepted(tx)
    ensures i < |tx.inputs| ==>
              var prevouts, amounts := Concat(PrevoutChunks(tx)), Concat(AmountChunks(tx));
              && |prevouts| == 36 * |tx.inputs| && |amounts| == 8 * |tx.inputs|
              && prevouts[36 * i..36 * i + 36][..32] == tx.inputs[i].txid
              && FromLittleEndian(prevouts[36 * i..36 * i + 36][32..]) == tx.inputs[i].vout
              && FromLittleEndian(amounts[8 * i..8 * i + 8]) == tx.inputs[i].amount
    ensures i < |tx.inputs| ==>
              var scripts, sequences := Concat(ScriptChunks(tx, context)), Concat(SequenceChunks(tx));
              && |scripts| == 35 * |tx.inputs| && |sequences| == 4 * |tx.inputs|
              && scripts[35 * i..35 * i + 35] == [34] + (if tx.inputs[i].controller then context.controllerScript else context.vaultScript)
              && FromLittleEndian(sequences[4 * i..4 * i + 4]) == tx.inputs[i].sequence
    ensures i < |tx.outputs| ==>
              var outputs := Concat(OutputChunks(tx.outputs));
              && |outputs| == 43 * |tx.outputs|
              && FromLittleEndian(outputs[43 * i..43 * i + 43][..8]) == tx.outputs[i].amount
              && outputs[43 * i..43 * i + 43][8..] == [34] + tx.outputs[i].script
  {
    Widths();
    if i < |tx.inputs| {
      ChunkAt(PrevoutChunks(tx), 36, i);
      ChunkAt(AmountChunks(tx), 8, i);
      ChunkAt(ScriptChunks(tx, context), 35, i);
      ChunkAt(SequenceChunks(tx), 4, i);
      LittleEndianRoundTrip(tx.inputs[i].vout, 4);
      LittleEndianRoundTrip(tx.inputs[i].amount, 8);
      LittleEndianRoundTrip(tx.inputs[i].sequence, 4);
    }
    if i < |tx.outputs| {
      ChunkAt(OutputChunks(tx.outputs), 43, i);
      LittleEndianRoundTrip(tx.outputs[i].amount, 8);
      OutputReads(tx.outputs[i]);
    }
    hide Concat, LittleEndian, FromLittleEndian, OutputBytes;
  }

  lemma {:induction false} OutputReads(o: Output)
    ensures OutputBytes(o)[..8] == LittleEndian(o.amount, 8) && OutputBytes(o)[8..] == [34] + o.script
  {
    hide LittleEndian;
  }

  /** The fixed part of a message: every field at its offset. */
  lemma {:induction false} MessageReads(c: Components, inputIndex: U32, leaf: Hash)
    ensures var m := Concat(MessageChunks(c, inputIndex, leaf));
            && |m| == 212 && m[0] == 0 && m[1] == 0
            && FromLittleEndian(m[2..6]) == 2 && FromLittleEndian(m[6..10]) == 0
            && m[10..42] == c.prevouts && m[42..74] == c.amounts && m[74..106] == c.scripts && m[106..138] == c.sequences
            && m[138..170] == c.outputs
            && m[170] == 2 && FromLittleEndian(m[171..175]) == inputIndex && m[175..207] == leaf
            && m[207] == 0 && FromLittleEndian(m[208..212]) == 0xFFFF_FFFF
  {
    Widths();
    LittleEndianRoundTrip(2, 4);
    LittleEndianRoundTrip(0, 4);
    LittleEndianRoundTrip(inputIndex, 4);
    LittleEndianRoundTrip(0xFFFF_FFFF, 4);
    hide LittleEndian, FromLittleEndian;
    MessageIs(c, inputIndex, leaf);
    MessageLength(c, inputIndex, leaf);
    hide MessageChunks, Concat;
    Slices(LittleEndian(2, 4), LittleEndian(0, 4), c, LittleEndian(inputIndex, 4), leaf, LittleEndian(0xFFFF_FFFF, 4));
  }

  function Joined(version: seq<Byte>, lock: seq<Byte>, c: Components, index: seq<Byte>, leaf: Hash, last: seq<Byte>): seq<Byte> {
    [0] + [0] + version + lock + c.prevouts + c.amounts + c.scripts + c.sequences + c.outputs + [2] + index + leaf + [0] + last
  }

  lemma {:induction false} Slices(version: seq<Byte>, lock: seq<Byte>, c: Components, index: seq<Byte>, leaf: Hash, last: seq<Byte>)
    requires |version| == |lock| == |index| == |last| == 4
    ensures var m := Joined(version, lock, c, index, leaf, last);
            && |m| == 212 && m[0] == 0 && m[1] == 0 && m[2..6] == version && m[6..10] == lock
            && m[10..42] == c.prevouts && m[42..74] == c.amounts && m[74..106] == c.scripts && m[106..138] == c.sequences
            && m[138..170] == c.outputs && m[170] == 2 && m[171..175] == index && m[175..207] == leaf && m[207] == 0
            && m[208..212] == last
  {
    var m := Joined(version, lock, c, index, leaf, last);
    Head(version, lock, c, [2] + index + leaf + [0] + last);
    assert m == [0] + [0] + version + lock + c.prevouts + c.amounts + c.scripts + c.sequences + c.outputs + ([2] + index + leaf + [0] + last);
    var t := [2] + index + leaf + [0] + last;
    assert t[0] == 2 && t[1..5] == index && t[5..37] == leaf && t[37] == 0 && t[38..42] == last;
    assert m[170..] == t;
    assert m[171..175] == t[1..5] && m[175..207] == t[5..37] && m[208..212] == t[38..42] && m[170] == t[0] && m[207] == t[37];
  }

  lemma {:induction false} Head(version: seq<Byte>, lock: seq<Byte>, c: Components, rest: seq<Byte>)
    requires |version| == |lock| == 4
    ensures var m := [0] + [0] + version + lock + c.prevouts + c.amounts + c.scripts + c.sequences + c.outputs + rest;
            && |m| == 170 + |rest| && m[0] == 0 && m[1] == 0 && m[2..6] == version && m[6..10] == lock
            && m[10..42] == c.prevouts && m[42..74] == c.amounts && m[74..106] == c.scripts && m[106..138] == c.sequences
            && m[138..170] == c.outputs && m[170..] == rest
  {
  }

  lemma {:induction false} MessageIs(c: Components, inputIndex: U32, leaf: Hash)
    ensures Concat(MessageChunks(c, inputIndex, leaf))
         == Joined(LittleEndian(2, 4), LittleEndian(0, 4), c, LittleEndian(inputIndex, 4), leaf, LittleEndian(0xFFFF_FFFF, 4))
  {
    hide LittleEndian;
    var version, lock, index, last := LittleEndian(2, 4), LittleEndian(0, 4), LittleEndian(inputIndex, 4), LittleEndian(0xFFFF_FFFF, 4);
    var head: seq<seq<Byte>> := [[0], [0], version, lock];
    var hashes: seq<seq<Byte>> := [c.prevouts, c.amounts, c.scripts, c.sequences];
    var tail: seq<seq<Byte>> := [[2], index, leaf, [0]];
    assert MessageChunks(c, inputIndex, leaf) == head + (hashes + [c.outputs]) + tail + [last];
    hide MessageChunks, Concat;
    ConcatAppend(head + (hashes + [c.outputs]) + tail, last);
    ConcatJoin(head + (hashes + [c.outputs]), tail);
    ConcatJoin(head, hashes + [c.outputs]);
    ConcatAppend(hashes, c.outputs);
    FourChunks([0], [0], version, lock);
    FourChunks([2], index, leaf, [0]);
    FourChunks(c.prevouts, c.amounts, c.scripts, c.sequences);
    JoinedParts(version, lock, c, index, leaf, last);
  }

  lemma {:induction false} JoinedParts(version: seq<Byte>, lock: seq<Byte>, c: Components, index: seq<Byte>, leaf: Hash, last: seq<Byte>)
    ensures ([0] + [0] + version + lock) + (c.prevouts + c.amounts + c.scripts + c.sequences + c.outputs) + ([2] + index + leaf + [0]) + last
         == Joined(version, lock, c, index, leaf, last)
  {
    var front := [0] + [0] + version + lock;
    assert front + (c.prevouts + c.amounts + c.scripts + c.sequences + c.outputs)
        == front + c.prevouts + c.amounts + c.scripts + c.sequences + c.outputs;
    var middle := front + c.prevouts + c.amounts + c.scripts + c.sequences + c.outputs;
    assert middle + ([2] + index + leaf + [0]) == middle + [2] + index + leaf + [0];
  }

  /** What a signature commits to: the hash of a message whose components are the hashes of exactly these
      bytes, in this order. */
  lemma {:induction false} SighashReads(h: Hasher, tx: Transaction, context: Context, inputIndex: U32)
    requires Accepted(tx)
    ensures exists m: seq<Byte> ::
              && Sighash(h, tx, context, inputIndex) == h.hash(h.sighashTag + h.sighashTag + m) && |m| == 212
              && m[10..42] == h.hash(Concat(PrevoutChunks(tx))) && m[42..74] == h.hash(Concat(AmountChunks(tx)))
              && m[74..106] == h.hash(Concat(ScriptChunks(tx, context))) && m[106..138] == h.hash(Concat(SequenceChunks(tx)))
              && m[138..170] == h.hash(Concat(OutputChunks(tx.outputs)))
              && FromLittleEndian(m[171..175]) == inputIndex && m[175..207] == context.leaf
  {
    MessageReads(ComponentsOf(h, tx, context), inputIndex, context.leaf);
    hide MessageChunks, Concat, FromLittleEndian, PrevoutChunks, AmountChunks, ScriptChunks, SequenceChunks, OutputChunks;
  }
}
