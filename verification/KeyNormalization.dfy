/** Turning a secp256k1 point into the even-Y form that BIP 340 keys stand for
    (cold-signer/src/benchmark.rs). */
module KeyNormalization {
  import opened Bytes
  import opened Wrappers

  /** The field prime, 2^256 - 2^32 - 977, as 32 big-endian bytes. */
  function Prime(): (r: seq<Byte>)
    ensures |r| == 32 && r[31] == 0x2f
  {
    [0xff, 0xff, 0xff, 0xff, 0xff, 0xff, 0xff, 0xff, 0xff, 0xff, 0xff, 0xff, 0xff, 0xff, 0xff, 0xff,
     0xff, 0xff, 0xff, 0xff, 0xff, 0xff, 0xff, 0xff, 0xff, 0xff, 0xff, 0xfe, 0xff, 0xff, 0xfc, 0x2f]
  }

  function Pow256(n: nat): (r: nat)
    ensures r > 0
  {
    if n == 0 then 1 else 256 * Pow256(n - 1)
  }

  function BigEndian(bytes: seq<Byte>): nat {
    if bytes == [] then 0 else bytes[0] * Pow256(|bytes| - 1) + BigEndian(bytes[1..])
  }

  lemma {:induction false} BigEndianBound(bytes: seq<Byte>)
    ensures BigEndian(bytes) < Pow256(|bytes|)
  {
    if bytes != [] {
      BigEndianBound(bytes[1..]);
      var k: nat := bytes[0];
      assert k * Pow256(|bytes| - 1) <= 255 * Pow256(|bytes| - 1) by { Times(k, 255, Pow256(|bytes| - 1)); }
    }
  }

  lemma {:induction false} Times(a: nat, b: nat, c: nat)
    ensures a <= b ==> a * c <= b * c
  {
  }

  lemma {:induction false} BigEndianInjective(a: seq<Byte>, b: seq<Byte>)
    requires |a| == |b| && BigEndian(a) == BigEndian(b)
    ensures a == b
  {
    if a != [] {
      BigEndianBound(a[1..]);
      BigEndianBound(b[1..]);
      var x: nat, y: nat, p := a[0], b[0], Pow256(|a| - 1);
      assert x * p + BigEndian(a[1..]) == y * p + BigEndian(b[1..]);
      LeadingEqual(x, y, p, BigEndian(a[1..]), BigEndian(b[1..]));
      BigEndianInjective(a[1..], b[1..]);
      assert a == [a[0]] + a[1..] && b == [b[0]] + b[1..];
    }
  }

  lemma {:induction false} LeadingEqual(x: nat, y: nat, p: nat, r: nat, q: nat)
    requires r < p && q < p && x * p + r == y * p + q
    ensures x == y && r == q
  {
    assert (x + 1) * p == x * p + p && (y + 1) * p == y * p + p;
    Times(x + 1, y, p);
    Times(y + 1, x, p);
  }

  // The parity of a number is the parity of its last byte.
  lemma {:induction false} Parity(bytes: seq<Byte>)
    requires bytes != []
    ensures BigEndian(bytes) % 2 == bytes[|bytes| - 1] % 2
  {
    if |bytes| == 1 {
      assert bytes[1..] == [] && Pow256(0) == 1;
    } else {
      Parity(bytes[1..]);
      assert bytes[1..][|bytes| - 2] == bytes[|bytes| - 1];
      EvenHead(bytes);
      hide BigEndian, Pow256;
    }
  }

  // All but the last byte count for an even amount.
  lemma {:induction false} EvenHead(bytes: seq<Byte>)
    requires |bytes| > 1
    ensures BigEndian(bytes) % 2 == BigEndian(bytes[1..]) % 2
  {
    var k: nat, p := bytes[0], Pow256(|bytes| - 2);
    assert Pow256(|bytes| - 1) == 256 * p;
    Shuffle(k, p);
    assert BigEndian(bytes) == 2 * (128 * (k * p)) + BigEndian(bytes[1..]);
    hide BigEndian, Pow256;
  }

  lemma {:induction false} Shuffle(k: nat, p: nat)
    ensures k * (256 * p) == 2 * (128 * (k * p))
  {
  }

  function X(key: seq<Byte>): seq<Byte>
    requires |key| == 65
  {
    key[1..33]
  }

  function Y(key: seq<Byte>): nat
    requires |key| == 65
  {
    BigEndian(key[33..])
  }

  function P(): nat {
    BigEndian(Prime())
  }

  // One more byte in front.
  lemma {:induction false} Front(a: seq<Byte>, i: nat)
    requires i < |a|
    ensures BigEndian(a[i..]) == a[i] * Pow256(|a| - i - 1) + BigEndian(a[i + 1..])
  {
    assert a[i..][0] == a[i] && a[i..][1..] == a[i + 1..];
  }

  // One step of the borrow loop, on the numbers that the suffixes stand for.
  lemma {:induction false} BorrowStep(prime: nat, y: nat, digit: nat, borrow: nat, borrow': nat, p: nat,
                                      R: nat, Y0: nat, P0: nat)
    requires digit + y + borrow == prime + 256 * borrow'
    requires R + Y0 == P0 + borrow * p
    ensures (digit * p + R) + (y * p + Y0) == (prime * p + P0) + borrow' * (256 * p)
  {
    assert digit * p + y * p + borrow * p == (digit + y + borrow) * p;
    assert (prime + 256 * borrow') * p == prime * p + borrow' * (256 * p);
  }

  /** `normalize_bip340_public_key`: an odd Y is replaced by p - Y, computed byte by byte with a
      borrow; it is refused exactly when Y exceeds p. An even Y is left alone. */
  method NormalizeBip340PublicKey(input: seq<Byte>) returns (r: Result<seq<Byte>>)
    requires |input| == 65
    ensures r.Success? <==> input[0] == 4 && (Y(input) % 2 == 1 ==> Y(input) <= P())
    ensures r.Success? ==>
              && |r.value| == 65 && r.value[0] == 4 && X(r.value) == X(input)
              && Y(r.value) == (if Y(input) % 2 == 1 then P() - Y(input) else Y(input))
    ensures r.Success? && Y(input) % 2 == 0 ==> r.value == input
  {
    hide BigEndian, Pow256, P, Prime, X, Y;
    var publicKey := new Byte[65](i requires 0 <= i < 65 => input[i]);
    assert publicKey[..] == input;
    if publicKey[0] != 0x04 {
      return Failure("invalid public key");
    }
    YParity(input);
    if publicKey[64] % 2 == 1 {
      var borrow := Subtract(publicKey, input);
      assert publicKey[..][33..] == publicKey[33..] && publicKey[..][..33] == publicKey[..33];
      Negated(publicKey[..], input, borrow);
      if borrow != 0 {
        return Failure("invalid public key");
      }
    }
    return Success(publicKey[..]);
  }

  lemma {:induction false} YParity(key: seq<Byte>)
    requires |key| == 65
    ensures Y(key) % 2 == key[64] % 2
  {
    hide BigEndian, Pow256;
    Parity(key[33..]);
    assert key[33..][31] == key[64];
  }

  // What the finished loop has computed.
  lemma {:induction false} Negated(output: seq<Byte>, input: seq<Byte>, borrow: nat)
    requires |output| == |input| == 65 && output[..33] == input[..33] && borrow <= 1
    requires BigEndian(output[33..]) + Y(input) == P() + borrow * Pow256(32)
    ensures borrow != 0 <==> Y(input) > P()
    ensures borrow == 0 ==> output[0] == input[0] && X(output) == X(input) && Y(output) == P() - Y(input)
  {
    hide BigEndian, Pow256, P, Prime;
    BigEndianBound(output[33..]);
    BorrowMeansLarger(BigEndian(output[33..]), Y(input), P(), borrow);
    assert output[0] == output[..33][0] && input[0] == input[..33][0];
    assert output[1..33] == output[..33][1..] && input[1..33] == input[..33][1..];
  }

  lemma {:induction false} BorrowMeansLarger(r: nat, y: nat, p: nat, borrow: nat)
    requires r < Pow256(32) && borrow <= 1 && r + y == p + borrow * Pow256(32)
    ensures borrow == 1 <==> y > p
  {
    hide Pow256;
  }

  // The loop, from the last byte to the first.
  method Subtract(publicKey: array<Byte>, ghost input: seq<Byte>) returns (borrow: nat)
    requires publicKey.Length == 65 && publicKey[..] == input
    modifies publicKey
    ensures publicKey[..33] == input[..33] && borrow <= 1
    ensures BigEndian(publicKey[33..]) + Y(input) == P() + borrow * Pow256(32)
  {
    hide BigEndian, Pow256, P, Prime;
    borrow := 0;
    ghost var y := input[33..];
    StartBorrow();
    assert publicKey[65..] == [] && y[32..] == [] && Prime()[32..] == [];
    var index: nat := 32;
    while index > 0
      invariant index <= 32 && borrow <= 1
      invariant publicKey[..33 + index] == input[..33 + index]
      invariant BigEndian(publicKey[33 + index..]) + BigEndian(y[index..]) == BigEndian(Prime()[index..]) + borrow * Pow256(32 - index)
    {
      index := index - 1;
      ghost var R, oldBorrow := BigEndian(publicKey[33 + index + 1..]), borrow;
      ghost var tail := publicKey[33 + index + 1..];
      assert publicKey[33 + index] == input[33 + index] == y[index];
      var value: int := Prime()[index] as int - publicKey[33 + index] as int - borrow as int;
      var digit: nat := if value < 0 then value + 256 else value;
      borrow := if value < 0 then 1 else 0;
      publicKey[33 + index] := digit;
      assert publicKey[33 + index + 1..] == tail;
      assert publicKey[33 + index..] == [digit] + tail;
      Front(y, index);
      Front(Prime(), index);
      Front(publicKey[..], 33 + index);
      assert publicKey[..][33 + index..] == publicKey[33 + index..] && publicKey[..][34 + index..] == tail;
      NextPower(31 - index);
      BorrowStep(Prime()[index], y[index], digit, oldBorrow, borrow, Pow256(31 - index), R, BigEndian(y[index + 1..]), BigEndian(Prime()[index + 1..]));
    }
    assert y[0..] == y && Prime()[0..] == Prime();
    PIs();
  }

  lemma {:induction false} StartBorrow()
    ensures BigEndian([]) == 0 && Pow256(0) == 1
  {
  }

  lemma {:induction false} NextPower(n: nat)
    ensures Pow256(n + 1) == 256 * Pow256(n)
  {
  }

  lemma {:induction false} PIs()
    ensures P() == BigEndian(Prime())
  {
    hide BigEndian, Prime;
  }

  /** The result has an even Y, and an odd one has been negated modulo p. */
  lemma {:induction false} NormalizationIsNegation(input: seq<Byte>, output: seq<Byte>)
    requires |input| == |output| == 65 && output[0] == input[0] == 4 && X(output) == X(input)
    requires Y(input) % 2 == 1 ==> Y(input) <= P()
    requires Y(output) == (if Y(input) % 2 == 1 then P() - Y(input) else Y(input))
    ensures Y(output) % 2 == 0
    ensures Y(input) % 2 == 1 ==> (Y(input) + Y(output)) % P() == 0
  {
    hide BigEndian, P, Prime, Pow256, Y, X;
    PIs();
    Parity(Prime());
    Negation(Y(input), Y(output), P());
  }

  lemma {:induction false} Negation(y: nat, negated: nat, p: nat)
    requires p % 2 == 1 && (y % 2 == 1 ==> y <= p)
    requires negated == if y % 2 == 1 then p - y else y
    ensures negated % 2 == 0
    ensures y % 2 == 1 ==> (y + negated) % p == 0
  {
    if y % 2 == 1 {
      assert y + negated == p;
      SelfModulo(p);
    }
  }

  lemma {:induction false} SelfModulo(p: nat)
    requires p > 0
    ensures p % p == 0
  {
  }

  /** The specification fixes the result: there is one normal form for a key. */
  lemma {:induction false} NormalFormIsUnique(a: seq<Byte>, b: seq<Byte>)
    requires |a| == |b| == 65 && a[0] == b[0] && X(a) == X(b) && Y(a) == Y(b)
    ensures a == b
  {
    BigEndianInjective(a[33..], b[33..]);
    assert a == [a[0]] + a[1..33] + a[33..] && b == [b[0]] + b[1..33] + b[33..];
  }

  /** Normalizing once more changes nothing. */
  method NormalizeTwice(input: seq<Byte>) returns (once: Result<seq<Byte>>, twice: Result<seq<Byte>>)
    requires |input| == 65
    ensures once.Success? ==> twice == once
  {
    once := NormalizeBip340PublicKey(input);
    twice := once;
    if once.Success? {
      NormalizationIsNegation(input, once.value);
      twice := NormalizeBip340PublicKey(once.value);
    }
  }

  // ----- The prime -----

  lemma {:induction false} BigEndianAppend(a: seq<Byte>, b: seq<Byte>)
    ensures BigEndian(a + b) == BigEndian(a) * Pow256(|b|) + BigEndian(b)
  {
    if a == [] {
      assert a + b == b;
    } else {
      assert (a + b)[1..] == a[1..] + b;
      BigEndianAppend(a[1..], b);
      Pow256Add(|a| - 1, |b|);
      Front(a + b, 0);
      Front(a, 0);
      hide BigEndian, Pow256;
      assert (a + b)[0..] == a + b && a[0..] == a && (a + b)[0] == a[0];
      Distribute(a[0], Pow256(|a| - 1), Pow256(|b|), BigEndian(a[1..]));
    }
  }

  lemma {:induction false} Distribute(k: nat, p: nat, q: nat, r: nat)
    ensures (k * p + r) * q == k * (p * q) + r * q
  {
  }

  lemma {:induction false} Pow256Add(a: nat, b: nat)
    ensures Pow256(a + b) == Pow256(a) * Pow256(b)
  {
    if a > 0 {
      Pow256Add(a - 1, b);
      Regroup(Pow256(a - 1), Pow256(b));
    }
  }

  lemma {:induction false} Regroup(x: nat, y: nat)
    ensures 256 * (x * y) == (256 * x) * y
  {
  }

  lemma {:induction false} AllOnes(bytes: seq<Byte>)
    requires forall i :: 0 <= i < |bytes| ==> bytes[i] == 0xff
    ensures BigEndian(bytes) + 1 == Pow256(|bytes|)
  {
    if bytes != [] {
      AllOnes(bytes[1..]);
    }
  }

  /** The bytes are the secp256k1 field prime, 256^32 - 2^32 - 977. */
  lemma {:induction false} PrimeValue()
    ensures P() == Pow256(|Prime()|) - 0x1_0000_0000 - 977
  {
    hide BigEndian, Pow256, P, Prime;
    var high, low := PrimeParts();
    PIs();
    ValueOf(high, low);
  }

  lemma {:induction false} PrimeParts() returns (high: seq<Byte>, low: seq<Byte>)
    ensures Prime() == high + low && low == [0xfe, 0xff, 0xff, 0xfc, 0x2f]
    ensures forall i :: 0 <= i < |high| ==> high[i] == 0xff
  {
    high, low := Prime()[..27], [0xfe, 0xff, 0xff, 0xfc, 0x2f];
    assert forall i :: 0 <= i < 27 ==> high[i] == Prime()[i];
  }

  lemma {:induction false} ValueOf(high: seq<Byte>, low: seq<Byte>)
    requires low == [0xfe, 0xff, 0xff, 0xfc, 0x2f]
    requires forall i :: 0 <= i < |high| ==> high[i] == 0xff
    ensures BigEndian(high + low) == Pow256(|high + low|) - 0x1_0000_0000 - 977
  {
    hide BigEndian, Pow256;
    BigEndianAppend(high, low);
    AllOnes(high);
    Pow256Add(|high|, |low|);
    SmallPowers();
    LowBytes(low);
    Combine(BigEndian(high), Pow256(|high|), Pow256(|low|), Pow256(|high + low|));
  }

  lemma {:induction false} Combine(high: nat, p27: nat, p5: nat, p32: nat)
    requires high + 1 == p27 && p32 == p27 * p5 && p5 == 0x100_0000_0000
    ensures high * p5 + 0xfe_ffff_fc2f == p32 - 0x1_0000_0000 - 977
  {
    TakeOne(p27, p5);
  }

  lemma {:induction false} TakeOne(a: nat, b: nat)
    requires a > 0
    ensures (a - 1) * b == a * b - b
  {
  }

  lemma {:induction false} SmallPowers()
    ensures Pow256(0) == 1 && Pow256(1) == 0x100 && Pow256(2) == 0x1_0000 && Pow256(3) == 0x100_0000
    ensures Pow256(4) == 0x1_0000_0000 && Pow256(5) == 0x100_0000_0000
  {
    assert Pow256(1) == 256 * Pow256(0) && Pow256(2) == 256 * Pow256(1) && Pow256(3) == 256 * Pow256(2);
    assert Pow256(4) == 256 * Pow256(3) && Pow256(5) == 256 * Pow256(4);
  }

  lemma {:induction false} LowBytes(low: seq<Byte>)
    requires low == [0xfe, 0xff, 0xff, 0xfc, 0x2f]
    ensures BigEndian(low) == 0xfe_ffff_fc2f
  {
    SmallPowers();
    Front(low, 0);
    Front(low, 1);
    Front(low, 2);
    Front(low, 3);
    Front(low, 4);
    assert low[5..] == [] && low[0..] == low;
  }
}
