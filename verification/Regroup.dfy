/** The first half of a Bech32 address: regrouping bytes into five-bit values. */
module Regroup {

  // Positional notation, in groups of five bits or of eight.

  datatype Radix = Five | Eight

  function Size(r: Radix): int { if r.Five? then 32 else 256 }
  function Times(x: int, r: Radix): int { if r.Five? then 32 * x else 256 * x }
  function Over(x: int, r: Radix): int { if r.Five? then x / 32 else x / 256 }
  function Rest(x: int, r: Radix): int { if r.Five? then x % 32 else x % 256 }

  predicate Digits(ds: seq<int>, r: Radix) {
    forall i :: 0 <= i < |ds| ==> 0 <= ds[i] < Size(r)
  }

  /** The number a digit sequence spells, most significant first. */
  function Value(ds: seq<int>, r: Radix): int {
    if ds == [] then 0 else Times(Value(ds[..|ds| - 1], r), r) + ds[|ds| - 1]
  }

  /** The last `n` digits of `x`. */
  function Spell(x: int, n: nat, r: Radix): seq<int>
    decreases n
  {
    if n == 0 then [] else Spell(Over(x, r), n - 1, r) + [Rest(x, r)]
  }

  lemma OverTimes(x: int, d: int, r: Radix)
    requires 0 <= d < Size(r)
    ensures Over(Times(x, r) + d, r) == x && Rest(Times(x, r) + d, r) == d
  {
  }

  lemma Append(ds: seq<int>, d: int, r: Radix)
    requires Digits(ds, r) && 0 <= d < Size(r)
    ensures Digits(ds + [d], r) && Value(ds + [d], r) == Times(Value(ds, r), r) + d
  {
    assert (ds + [d])[..|ds|] == ds;
  }

  lemma {:induction false} SpellsBack(ds: seq<int>, r: Radix)
    requires Digits(ds, r)
    ensures Spell(Value(ds, r), |ds|, r) == ds
  {
    if ds != [] {
      var k := |ds| - 1;
      SpellsBack(ds[..k], r);
      OverTimes(Value(ds[..k], r), ds[k], r);
      assert ds == ds[..k] + [ds[k]];
    }
  }

  // Regrouping.

  const WORD := 0x1_0000_0000_0000_0000

  /** Go's int after overflow: two's complement in 64 bits. */
  function Wrap(x: int): int {
    (x + WORD / 2) % WORD - WORD / 2
  }

  /** `x << n` and `x >> n` on unbounded integers, for the only shifts the encoder makes. */
  function Left(x: int, n: int): int {
    match n
    case 0 => x case 1 => 2 * x case 2 => 4 * x case 3 => 8 * x
    case _ => 16 * x
  }

  function Right(x: int, n: int): int {
    match n
    case 0 => x case 1 => x / 2 case 2 => x / 4 case 3 => x / 8
    case 4 => x / 16 case 5 => x / 32 case 6 => x / 64 case 7 => x / 128
    case 8 => x / 256 case 9 => x / 512 case 10 => x / 1024 case 11 => x / 2048
    case _ => x / 4096
  }

  /** How many groups `n` bytes need, and how many zero bits pad the last one. */
  function GroupCount(n: nat): nat { (8 * n + 4) / 5 }
  function Padding(n: nat): nat { 5 * GroupCount(n) - 8 * n }

  /** The base-32 digits of the bytes followed by zero padding. */
  function Groups(data: seq<int>): seq<int> {
    Spell(Left(Value(data, Eight), Padding(|data|)), GroupCount(|data|), Five)
  }

  lemma LowFiveBits(q: int, u: int)
    ensures (q + 32 * u) % 256 % 32 == q % 32
  {
    var y := q + 32 * u;
    var a, b := y / 256, y % 256;
    assert b == 32 * (u - 8 * a) + q;
    assert q == 32 * (b / 32 - u + 8 * a) + b % 32;
  }

  /** Right shifting far below the word size does not see the overflow. */
  lemma OverflowUnseen(n: int, t: int, bits: int)
    requires 0 <= bits <= 7
    ensures Right(n + t * WORD, bits) % 256 % 32 == Right(n, bits) % 32
  {
    var u := match bits
      case 0 => t * 0x800_0000_0000_0000 case 1 => t * 0x400_0000_0000_0000
      case 2 => t * 0x200_0000_0000_0000 case 3 => t * 0x100_0000_0000_0000
      case 4 => t * 0x80_0000_0000_0000 case 5 => t * 0x40_0000_0000_0000
      case 6 => t * 0x20_0000_0000_0000 case _ => t * 0x10_0000_0000_0000;
    RightPlus(n, 32 * u, bits);
    LowFiveBits(Right(n, bits), u);
  }

  lemma RightPlus(n: int, k: int, bits: int)
    requires 0 <= bits <= 7
    ensures bits == 0 ==> Right(n + k, bits) == Right(n, bits) + k
    ensures bits == 1 ==> Right(n + 2 * k, bits) == Right(n, bits) + k
    ensures bits == 2 ==> Right(n + 4 * k, bits) == Right(n, bits) + k
    ensures bits == 3 ==> Right(n + 8 * k, bits) == Right(n, bits) + k
    ensures bits == 4 ==> Right(n + 16 * k, bits) == Right(n, bits) + k
    ensures bits == 5 ==> Right(n + 32 * k, bits) == Right(n, bits) + k
    ensures bits == 6 ==> Right(n + 64 * k, bits) == Right(n, bits) + k
    ensures bits == 7 ==> Right(n + 128 * k, bits) == Right(n, bits) + k
  {
  }

  /** Five bits fewer to drop is one more digit. */
  lemma OneMoreGroup(n: int, bits: int)
    requires 5 <= bits <= 12
    ensures Times(Right(n, bits), Five) + Right(n, bits - 5) % 32 == Right(n, bits - 5)
  {
    assert Right(n, bits) == Right(n, bits - 5) / 32;
  }

  lemma NextByte(n: int, b: int, bits: int)
    requires 0 <= bits <= 4 && 0 <= b < 256
    ensures Right(256 * n + b, bits + 8) == Right(n, bits)
  {
  }

  /** The padding branch: the leftover bits, moved up to fill a group. */
  lemma PadGroup(n: int, bits: int)
    requires 1 <= bits <= 4
    ensures Times(Right(n, bits), Five) + Left(n, 5 - bits) % 32 == Left(n, 5 - bits)
  {
    assert Left(n, 5 - bits) / 32 == Right(n, bits);
  }

  lemma WrapOffset(x: int) returns (k: int)
    ensures Wrap(x) == x + k * WORD
  {
    k := -((x + WORD / 2) / WORD);
  }

  /** Where a regrouping stands: `out` spells the bits of `n` but the last few, and `acc` is `n` as far as a word shows it. */
  ghost predicate Regrouping(out: seq<int>, acc: int, bits: int, n: int, t: int) {
    acc == n + t * WORD && Digits(out, Five) && Value(out, Five) == Right(n, bits)
  }

  lemma EmitKeeps(out: seq<int>, acc: int, bits: int, n: int, t: int)
    requires 5 <= bits <= 12 && Regrouping(out, acc, bits, n, t)
    ensures Regrouping(out + [Right(acc, bits - 5) % 256 % 32], acc, bits - 5, n, t)
  {
    OneMoreGroup(n, bits);
    OverflowUnseen(n, t, bits - 5);
    Append(out, Right(n, bits - 5) % 32, Five);
  }

  /** The padding group, read off the overflowing accumulator. */
  function PadDigit(acc: int, bits: int): int {
    Wrap(Left(acc, 5 - bits)) % 256 % 32
  }

  lemma PadDigitUnseen(acc: int, bits: int, n: int, t: int)
    requires 1 <= bits <= 4 && acc == n + t * WORD
    ensures PadDigit(acc, bits) == Left(n, 5 - bits) % 32
  {
    var k := WrapOffset(Left(acc, 5 - bits));
    PaddedOverflow(n, t, k, 5 - bits);
  }

  lemma PadKeeps(out: seq<int>, bits: int, n: int, d: int)
    requires 1 <= bits <= 4 && Digits(out, Five) && Value(out, Five) == Right(n, bits) && d == Left(n, 5 - bits) % 32
    ensures Digits(out + [d], Five) && Value(out + [d], Five) == Left(n, 5 - bits)
  {
    PadGroup(n, bits);
    Append(out, d, Five);
  }

  /** `convertBits`: the accumulator overflows and is never masked, and the groups come out right all the same. */
  method ConvertBits(data: seq<int>) returns (out: seq<int>)
    requires Digits(data, Eight)
    ensures out == Groups(data) && Digits(out, Five)
  {
    out := [];
    var acc, bits := 0, 0;
    ghost var n, t := 0, 0;
    for i := 0 to |data|
      invariant 0 <= bits <= 4 && 5 * |out| + bits == 8 * i
      invariant n == Value(data[..i], Eight) && Regrouping(out, acc, bits, n, t)
    {
      assert data[..i + 1][..i] == data[..i];
      NextByte(n, data[i], bits);
      ghost var k := WrapOffset(256 * acc);
      acc := Wrap(256 * acc) + data[i];
      n, t := 256 * n + data[i], 256 * t + k;
      bits := bits + 8;
      while bits >= 5
        invariant 0 <= bits <= 12 && 5 * |out| + bits == 8 * (i + 1)
        invariant Regrouping(out, acc, bits, n, t)
      {
        EmitKeeps(out, acc, bits, n, t);
        bits := bits - 5;
        out := out + [Right(acc, bits) % 256 % 32];
      }
    }
    assert data[..|data|] == data;
    if bits > 0 {
      var d := PadDigit(acc, bits);
      PadDigitUnseen(acc, bits, n, t);
      PadKeeps(out, bits, n, d);
      out := out + [d];
    }
    assert |out| == GroupCount(|data|);
    SpellsBack(out, Five);
  }

  lemma PaddedOverflow(n: int, t: int, k: int, shift: int)
    requires 1 <= shift <= 4
    ensures (Left(n + t * WORD, shift) + k * WORD) % 256 % 32 == Left(n, shift) % 32
  {
    var u := match shift
      case 1 => 2 * t + k case 2 => 4 * t + k case 3 => 8 * t + k case _ => 16 * t + k;
    assert Left(n + t * WORD, shift) + k * WORD == Left(n, shift) + 32 * (u * 0x800_0000_0000_0000);
    LowFiveBits(Left(n, shift), u * 0x800_0000_0000_0000);
  }

  // Nothing is lost.

  lemma {:induction false} SpellIsDigits(x: int, n: nat, r: Radix)
    ensures |Spell(x, n, r)| == n && Digits(Spell(x, n, r), r)
    decreases n
  {
    if n > 0 { SpellIsDigits(Over(x, r), n - 1, r); }
  }

  /** All whole groups of the bytes, and how many bits are left over. */
  lemma {:induction false} WholeGroups(data: seq<int>) returns (out: seq<int>, bits: int)
    requires Digits(data, Eight)
    ensures 0 <= bits <= 4 && 5 * |out| + bits == 8 * |data|
    ensures Digits(out, Five) && Value(out, Five) == Right(Value(data, Eight), bits)
  {
    if data == [] { return [], 0; }
    var k := |data| - 1;
    var n := Value(data, Eight);
    out, bits := WholeGroups(data[..k]);
    NextByte(Value(data[..k], Eight), data[k], bits);
    bits := bits + 8;
    OneMoreGroup(n, bits);
    Append(out, Right(n, bits - 5) % 32, Five);
    out, bits := out + [Right(n, bits - 5) % 32], bits - 5;
    if bits >= 5 {
      OneMoreGroup(n, bits);
      Append(out, Right(n, bits - 5) % 32, Five);
      out, bits := out + [Right(n, bits - 5) % 32], bits - 5;
    }
  }

  /** The groups are that many five-bit digits and spell the bytes' bits followed by zero padding. */
  lemma GroupsSpellTheBytes(data: seq<int>)
    requires Digits(data, Eight)
    ensures Digits(Groups(data), Five) && |Groups(data)| == GroupCount(|data|)
    ensures Value(Groups(data), Five) == Left(Value(data, Eight), Padding(|data|))
  {
    var out, bits := WholeGroups(data);
    var n := Value(data, Eight);
    if bits > 0 {
      PadKeeps(out, bits, n, Left(n, 5 - bits) % 32);
      out := out + [Left(n, 5 - bits) % 32];
    }
    assert |out| == GroupCount(|data|);
    SpellsBack(out, Five);
  }

  /** Reads groups back as `n` bytes, dropping the padding. */
  function Ungrouped(groups: seq<int>, n: nat): seq<int> {
    Spell(Right(Value(groups, Five), Padding(n)), n, Eight)
  }

  lemma LeftThenRight(x: int, pad: int)
    requires 0 <= pad <= 4
    ensures Right(Left(x, pad), pad) == x
  {
  }

  /** Regrouping the groups gives the bytes back. */
  lemma RegroupingRoundTrips(data: seq<int>)
    requires Digits(data, Eight)
    ensures Ungrouped(Groups(data), |data|) == data
  {
    GroupsSpellTheBytes(data);
    LeftThenRight(Value(data, Eight), Padding(|data|));
    SpellsBack(data, Eight);
  }

  /** Two byte strings of one length share their groups only when they are equal. */
  lemma GroupsAreInjective(a: seq<int>, b: seq<int>)
    requires Digits(a, Eight) && Digits(b, Eight) && |a| == |b| && Groups(a) == Groups(b)
    ensures a == b
  {
    RegroupingRoundTrips(a);
    RegroupingRoundTrips(b);
  }

  /** An address's twenty bytes are 32 groups with nothing padded. */
  lemma AddressNeedsNoPadding(data: seq<int>)
    requires Digits(data, Eight) && |data| == 20
    ensures |Groups(data)| == 32 && Value(Groups(data), Five) == Value(data, Eight)
  {
    GroupsSpellTheBytes(data);
  }
}
