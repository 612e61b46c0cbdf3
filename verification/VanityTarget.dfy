/** Testing a key against a wanted address suffix without encoding the address
    (src/hot_wallet/mod.rs), and the encoding itself: the regrouping of bytes into five-bit digits and
    the Bech32 alphabet (section "Segwit address format" of BIP 173, as amended by BIP 350).

    Words are natural numbers: a shift is a multiplication or division by a power of two, and an
    `or` of disjoint bits is a sum. */
module VanityTarget {
  import opened Bytes
  import opened Wrappers

  type Digit = n: nat | n < 32

  const CHARSET: string := "qpzry9x8gf2tvdw0s3jn54khce6mua7l"

  function Pow2(n: nat): (r: nat)
    ensures r > 0
  {
    if n == 0 then 1 else 2 * Pow2(n - 1)
  }

  function ShiftRight(word: nat, n: nat): nat {
    QuotientIsNatural(word, Pow2(n));
    word / Pow2(n)
  }

  lemma {:induction false} QuotientIsNatural(a: nat, b: nat)
    requires b > 0
    ensures a / b >= 0
  {
    var q := a / b;
    assert a == b * q + a % b;
    assert b * (q + 1) == b * q + b;
    NonPositiveProduct(b, q + 1);
  }

  lemma {:induction false} NonPositiveProduct(b: nat, x: int)
    ensures x <= 0 ==> b * x <= 0
  {
  }

  function Low5(word: nat): Digit {
    word % 32
  }

  // ----- The address -----

  // The accumulator after one more byte.
  function Accumulate(acc: nat, byte: nat): nat {
    (acc * 256 + byte) % 4096
  }

  /** `convertbits` from eight to five bits: a 12-bit accumulator takes a byte at a time and gives
      digits back from its top. `bits` of it are still to be given back. */
  function Regroup(bytes: seq<Byte>, acc: nat, bits: nat): seq<Digit>
    requires bits < 5
    decreases |bytes|
  {
    if bytes == [] then (if bits == 0 then [] else [Low5(acc * Pow2(5 - bits))])
    else
      var acc' := Accumulate(acc, bytes[0]);
      if bits + 8 >= 10 then
        [Low5(ShiftRight(acc', bits + 3)), Low5(ShiftRight(acc', bits - 2))] + Regroup(bytes[1..], acc', bits - 2)
      else
        [Low5(ShiftRight(acc', bits + 3))] + Regroup(bytes[1..], acc', bits + 3)
  }

  function Characters(digits: seq<Digit>): string {
    seq(|digits|, i requires 0 <= i < |digits| => CHARSET[digits[i]])
  }

  /** A version-1 address: prefix, separator, version digit, regrouped key, checksum. */
  function AddressText(hrp: string, key: seq<Byte>, checksum: string): string {
    hrp + "1p" + Characters(Regroup(key, 0, 0)) + checksum
  }

  // ----- The target -----

  datatype Target = Target(value: nat, bitCount: nat)

  /** `CHARSET.find`. */
  function FindFrom(c: char, i: nat): (r: Option<nat>)
    requires i <= |CHARSET|
    ensures r.Some? ==> i <= r.value < |CHARSET| && CHARSET[r.value] == c
    ensures r.None? ==> forall j :: i <= j < |CHARSET| ==> CHARSET[j] != c
    decreases |CHARSET| - i
  {
    if i == |CHARSET| then None else if CHARSET[i] == c then Some(i) else FindFrom(c, i + 1)
  }

  /** The number that a row of digits stands for, most significant first. */
  function Value(digits: seq<Digit>): nat {
    if digits == [] then 0 else 32 * Value(digits[..|digits| - 1]) + digits[|digits| - 1]
  }

  /** `VanityTarget::new`: accumulates five bits a character. */
  method NewTarget(suffix: string) returns (r: Result<Target>, ghost digits: seq<Digit>)
    ensures r.Success? <==> 1 <= |suffix| <= 6 && forall i :: 0 <= i < |suffix| ==> suffix[i] in CHARSET
    ensures r.Success? ==> Characters(digits) == suffix && r.value == Target(Value(digits), 5 * |suffix|)
  {
    digits := [];
    if suffix == [] || |suffix| > 6 {
      return Failure("suffix of one to six characters"), digits;
    }
    var value := 0;
    for i := 0 to |suffix|
      invariant |digits| == i && value == Value(digits)
      invariant forall k :: 0 <= k < i ==> CHARSET[digits[k]] == suffix[k]
    {
      var found := FindFrom(suffix[i], 0);
      if found.None? {
        return Failure("not a Bech32 character"), digits;
      }
      assert (digits + [found.value])[..i] == digits;
      value := value * 32 + found.value;
      digits := digits + [found.value];
    }
    assert Characters(digits) == suffix;
    return Success(Target(value, 5 * |suffix|)), digits;
  }

  /** The first four bytes as a big-endian word. */
  function FirstBits(key: seq<Byte>): nat
    requires |key| >= 4
  {
    Word(key[0], key[1], key[2], key[3])
  }

  function Word(a: nat, b: nat, c: nat, d: nat): nat {
    a * 0x100_0000 + b * 0x1_0000 + c * 0x100 + d
  }

  /** `VanityTarget::matches`. */
  predicate Matches(target: Target, key: seq<Byte>)
    requires |key| == 32 && 0 < target.bitCount <= 30
  {
    ShiftRight(FirstBits(key), 32 - target.bitCount) == target.value
  }

  // ----- The first digits of the encoding -----

  lemma {:induction false} Powers()
    ensures Pow2(0) == 1 && Pow2(1) == 2 && Pow2(2) == 4 && Pow2(3) == 8 && Pow2(4) == 16 && Pow2(5) == 32
    ensures Pow2(6) == 64 && Pow2(7) == 128
    ensures Pow2(12) == 0x1000 && Pow2(17) == 0x2_0000 && Pow2(22) == 0x40_0000 && Pow2(27) == 0x800_0000
  {
    assert Pow2(7) == 2 * Pow2(6) && Pow2(6) == 2 * Pow2(5) && Pow2(5) == 2 * Pow2(4) && Pow2(4) == 2 * Pow2(3);
    assert Pow2(3) == 2 * Pow2(2) && Pow2(2) == 2 * Pow2(1) && Pow2(1) == 2 * Pow2(0);
    assert Pow2(12) == 32 * Pow2(7) by { Pow2Add5(7); }
    Pow2Add5(12);
    Pow2Add5(17);
    Pow2Add5(22);
  }

  lemma {:induction false} Pow2Add5(n: nat)
    ensures Pow2(n + 5) == 32 * Pow2(n)
  {
    assert Pow2(n + 5) == 2 * Pow2(n + 4);
    assert Pow2(n + 4) == 2 * Pow2(n + 3);
    assert Pow2(n + 3) == 2 * Pow2(n + 2);
    assert Pow2(n + 2) == 2 * Pow2(n + 1);
  }

  /** The first six digits, bit by bit out of the first four bytes. */
  function SixDigits(a: Byte, b: Byte, c: Byte, d: Byte): seq<Digit> {
    [a / 8, (a % 8) * 4 + b / 64, (b / 2) % 32, (b % 2) * 16 + c / 16, (c % 16) * 2 + d / 128, (d / 4) % 32]
  }

  lemma {:induction false} RegroupStarts(key: seq<Byte>)
    requires |key| >= 4
    ensures |Regroup(key, 0, 0)| >= 6
    ensures Regroup(key, 0, 0)[..6] == SixDigits(key[0], key[1], key[2], key[3])
  {
    Powers();
    hide Pow2;
    var a: nat, b: nat, c: nat, d: nat := key[0], key[1], key[2], key[3];
    assert Accumulate(0, a) == a;
    hide Accumulate;
    var acc2 := Accumulate(a, b);
    var acc3 := Accumulate(acc2, c);
    var acc4 := Accumulate(acc3, d);
    var k1, k2, k3, k4 := key[1..], key[2..], key[3..], key[4..];
    assert k1[1..] == k2 && k2[1..] == k3 && k3[1..] == k4;
    Chunks(a, b, c, d);
    var r4 := Regroup(k4, acc4, 2);
    assert Regroup(k3, acc3, 4) == [Low5(acc4 / 128), Low5(acc4 / 4)] + r4;
    assert Regroup(k2, acc2, 1) == [Low5(acc3 / 16)] + Regroup(k3, acc3, 4);
    assert Regroup(k1, a, 3) == [Low5(acc2 / 64), Low5(acc2 / 2)] + Regroup(k2, acc2, 1);
    assert Regroup(key, 0, 0) == [Low5(a / 8)] + Regroup(k1, a, 3);
  }

  // What each window of the accumulator holds.
  lemma {:induction false} Chunks(a: nat, b: nat, c: nat, d: nat)
    requires a < 256 && b < 256 && c < 256 && d < 256
    ensures var acc2 := Accumulate(a, b);
            var acc3 := Accumulate(acc2, c);
            var acc4 := Accumulate(acc3, d);
            && a % 4096 == a && Low5(a / 8) == a / 8
            && Low5(acc2 / 64) == (a % 8) * 4 + b / 64 && Low5(acc2 / 2) == (b / 2) % 32
            && Low5(acc3 / 16) == (b % 2) * 16 + c / 16
            && Low5(acc4 / 128) == (c % 16) * 2 + d / 128 && Low5(acc4 / 4) == (d / 4) % 32
  {
    hide Accumulate, Low5;
    var acc2 := Accumulate(a, b);
    var acc3 := Accumulate(acc2, c);
    FirstWindow(a);
    SecondWindows(a, b);
    ThirdWindow(acc2, b, c);
    FourthWindows(acc3, c, d);
  }

  lemma {:induction false} SecondWindows(a: nat, b: nat)
    requires b < 256
    ensures Low5(Accumulate(a, b) / 64) == (a % 8) * 4 + b / 64 && Low5(Accumulate(a, b) / 2) == (b / 2) % 32
    ensures Accumulate(a, b) % 16 == b % 16
  {
    hide Accumulate, Low5;
    LowNibbleOnly(a, b);
    Window64(a % 16, b);
    Window2(a % 16, b);
    Nibble(a);
  }

  lemma {:induction false} ThirdWindow(acc: nat, b: nat, c: nat)
    requires c < 256 && acc % 16 == b % 16
    ensures Low5(Accumulate(acc, c) / 16) == (b % 2) * 16 + c / 16
    ensures Accumulate(acc, c) % 16 == c % 16
  {
    hide Accumulate, Low5;
    LowNibbleOnly(acc, c);
    Window16(acc % 16, c);
    Nibble(b);
  }

  lemma {:induction false} FourthWindows(acc: nat, c: nat, d: nat)
    requires d < 256 && acc % 16 == c % 16
    ensures Low5(Accumulate(acc, d) / 128) == (c % 16) * 2 + d / 128 && Low5(Accumulate(acc, d) / 4) == (d / 4) % 32
  {
    hide Accumulate, Low5;
    LowNibbleOnly(acc, d);
    Window128(acc % 16, d);
    Window4(acc % 16, d);
  }

  // Only the low four bits survive the next byte.
  lemma {:induction false} LowNibbleOnly(high: nat, low: nat)
    requires low < 256
    ensures Accumulate(high, low) == (high % 16) * 256 + low
    ensures Accumulate(high, low) % 16 == low % 16
  {
    var q, r := high / 16, high % 16;
    assert high * 256 + low == 4096 * q + (r * 256 + low);
    DropMultiple(q, r * 256 + low);
    KeepNibble(r, low);
  }

  lemma {:induction false} DropMultiple(q: nat, x: nat)
    requires x < 4096
    ensures (4096 * q + x) % 4096 == x
  {
  }

  lemma {:induction false} KeepNibble(r: nat, low: nat)
    ensures (r * 256 + low) % 16 == low % 16
  {
    var k := low / 16;
    assert r * 256 + low == 16 * (16 * r + k) + low % 16;
  }

  lemma {:induction false} FirstWindow(a: nat)
    requires a < 256
    ensures a % 4096 == a && Low5(a / 8) == a / 8
  {
  }

  lemma {:induction false} Window64(h: nat, low: nat)
    requires h < 16 && low < 256
    ensures Low5((h * 256 + low) / 64) == (h % 8) * 4 + low / 64
  {
    assert (h * 256 + low) / 64 == h * 4 + low / 64;
  }

  lemma {:induction false} Window2(h: nat, low: nat)
    requires h < 16 && low < 256
    ensures Low5((h * 256 + low) / 2) == (low / 2) % 32
  {
    assert (h * 256 + low) / 2 == h * 128 + low / 2;
  }

  lemma {:induction false} Window16(h: nat, low: nat)
    requires h < 16 && low < 256
    ensures Low5((h * 256 + low) / 16) == (h % 2) * 16 + low / 16
  {
    assert (h * 256 + low) / 16 == h * 16 + low / 16;
    assert h == 2 * (h / 2) + h % 2;
    assert h * 16 + low / 16 == 32 * (h / 2) + ((h % 2) * 16 + low / 16);
  }

  lemma {:induction false} Window128(h: nat, low: nat)
    requires h < 16 && low < 256
    ensures Low5((h * 256 + low) / 128) == h * 2 + low / 128
  {
    assert (h * 256 + low) / 128 == h * 2 + low / 128;
  }

  lemma {:induction false} Window4(h: nat, low: nat)
    requires h < 16 && low < 256
    ensures Low5((h * 256 + low) / 4) == (low / 4) % 32
  {
    assert (h * 256 + low) / 4 == h * 64 + low / 4;
  }

  lemma {:induction false} Nibble(a: nat)
    ensures (a % 16) % 8 == a % 8 && (a % 16) % 2 == a % 2
  {
  }

  /** Five bits at a time, the word and the digits agree. */
  lemma {:induction false} WordOfDigits(key: seq<Byte>, m: nat)
    requires |key| >= 4 && 1 <= m <= 6
    ensures ShiftRight(FirstBits(key), 32 - 5 * m) == Value(SixDigits(key[0], key[1], key[2], key[3])[..m])
  {
    Powers();
    var a: nat, b: nat, c: nat, d: nat := key[0], key[1], key[2], key[3];
    var digits := SixDigits(a, b, c, d);
    Prefixes(digits);
    DigitsJoin(a, b, c, d);
    WordSplits(a, b, c, d);
    hide Pow2, Value, Word;
  }

  // The digits put back together, one more at a time.
  lemma {:induction false} DigitsJoin(a: nat, b: nat, c: nat, d: nat)
    requires a < 256 && b < 256 && c < 256 && d < 256
    ensures 32 * (a / 8) + ((a % 8) * 4 + b / 64) == 4 * a + b / 64
    ensures 32 * (4 * a + b / 64) + (b / 2) % 32 == 128 * a + b / 2
    ensures 32 * (128 * a + b / 2) + ((b % 2) * 16 + c / 16) == 4096 * a + 16 * b + c / 16
    ensures 32 * (4096 * a + 16 * b + c / 16) + ((c % 16) * 2 + d / 128) == 131_072 * a + 512 * b + 2 * c + d / 128
    ensures 32 * (131_072 * a + 512 * b + 2 * c + d / 128) + (d / 4) % 32 == 4_194_304 * a + 16_384 * b + 64 * c + d / 4
  {
  }

  lemma {:induction false} Prefixes(digits: seq<Digit>)
    requires |digits| == 6
    ensures Value(digits[..1]) == digits[0]
    ensures Value(digits[..2]) == 32 * Value(digits[..1]) + digits[1]
    ensures Value(digits[..3]) == 32 * Value(digits[..2]) + digits[2]
    ensures Value(digits[..4]) == 32 * Value(digits[..3]) + digits[3]
    ensures Value(digits[..5]) == 32 * Value(digits[..4]) + digits[4]
    ensures Value(digits[..6]) == 32 * Value(digits[..5]) + digits[5]
  {
    forall k | 0 <= k < 6
      ensures digits[..k + 1][..k] == digits[..k]
    {
    }
    assert Value(digits[..0]) == 0;
  }

  lemma {:induction false} WordSplits(a: nat, b: nat, c: nat, d: nat)
    requires a < 256 && b < 256 && c < 256 && d < 256
    ensures var w := Word(a, b, c, d);
            && w / 0x800_0000 == a / 8
            && w / 0x40_0000 == 4 * a + b / 64
            && w / 0x2_0000 == 128 * a + b / 2
            && w / 0x1000 == 4096 * a + 16 * b + c / 16
            && w / 128 == 131_072 * a + 512 * b + 2 * c + d / 128
            && w / 4 == 4_194_304 * a + 16_384 * b + 64 * c + d / 4
  {
  }

  lemma {:induction false} ValueInjective(a: seq<Digit>, b: seq<Digit>)
    requires |a| == |b| && Value(a) == Value(b)
    ensures a == b
  {
    if a != [] {
      var n := |a| - 1;
      ValueInjective(a[..n], b[..n]);
      assert a == a[..n] + [a[n]] && b == b[..n] + [b[n]];
    }
  }

  // The digit of a character of the alphabet.
  function DigitOf(c: char): nat {
    match c
    case 'q' => 0 case 'p' => 1 case 'z' => 2 case 'r' => 3 case 'y' => 4 case '9' => 5 case 'x' => 6 case '8' => 7
    case 'g' => 8 case 'f' => 9 case '2' => 10 case 't' => 11 case 'v' => 12 case 'd' => 13 case 'w' => 14 case '0' => 15
    case 's' => 16 case '3' => 17 case 'j' => 18 case 'n' => 19 case '5' => 20 case '4' => 21 case 'k' => 22 case 'h' => 23
    case 'c' => 24 case 'e' => 25 case '6' => 26 case 'm' => 27 case 'u' => 28 case 'a' => 29 case '7' => 30 case 'l' => 31
    case _ => 32
  }

  lemma {:induction false} CharsetInverse(i: nat)
    requires i < 32
    ensures DigitOf(CHARSET[i]) == i
  {
  }

  lemma {:induction false} CharsetDistinct(i: nat, j: nat)
    requires i < 32 && j < 32 && CHARSET[i] == CHARSET[j]
    ensures i == j
  {
    hide DigitOf;
    CharsetInverse(i);
    CharsetInverse(j);
  }

  lemma {:induction false} CharactersInjective(a: seq<Digit>, b: seq<Digit>)
    requires Characters(a) == Characters(b)
    ensures a == b
  {
    assert |Characters(a)| == |a| && |Characters(b)| == |b|;
    forall i | 0 <= i < |a|
      ensures a[i] == b[i]
    {
      assert Characters(a)[i] == CHARSET[a[i]] && Characters(b)[i] == CHARSET[b[i]];
      CharsetDistinct(a[i], b[i]);
    }
  }

  /** The shift and compare holds exactly when the address begins with the suffix, for every suffix
      of one to six characters and every key. So a key that passes the test cannot fail the prefix
      check made on the finished address. */
  lemma {:induction false} MatchIsPrefix(suffix: string, digits: seq<Digit>, key: seq<Byte>, hrp: string, checksum: string)
    requires 1 <= |suffix| <= 6 && Characters(digits) == suffix && |key| == 32
    ensures |Regroup(key, 0, 0)| >= 6
    ensures Matches(Target(Value(digits), 5 * |suffix|), key) <==> Regroup(key, 0, 0)[..|suffix|] == digits
    ensures Matches(Target(Value(digits), 5 * |suffix|), key) <==> hrp + "1p" + suffix <= AddressText(hrp, key, checksum)
  {
    var m := |suffix|;
    assert |digits| == m;
    RegroupStarts(key);
    WordOfDigits(key, m);
    var all := Regroup(key, 0, 0);
    assert all[..6][..m] == all[..m];
    if Value(all[..m]) == Value(digits) {
      ValueInjective(all[..m], digits);
    }
    PrefixOfText(hrp, suffix, all, checksum);
    assert Characters(all)[..m] == Characters(all[..m]);
    if Characters(all[..m]) == suffix {
      CharactersInjective(all[..m], digits);
    }
    hide Regroup, SixDigits, Value, Characters, Pow2;
  }

  lemma {:induction false} PrefixOfText(hrp: string, suffix: string, digits: seq<Digit>, checksum: string)
    requires |suffix| <= |digits|
    ensures |Characters(digits)| == |digits|
    ensures hrp + "1p" + suffix <= hrp + "1p" + Characters(digits) + checksum <==> Characters(digits)[..|suffix|] == suffix
  {
    var head, text := hrp + "1p", Characters(digits);
    var whole := head + text + checksum;
    assert whole[..|head| + |suffix|] == head + text[..|suffix|];
    assert (head + suffix)[|head|..] == suffix && (head + text[..|suffix|])[|head|..] == text[..|suffix|];
  }
}
