/** Six symbols at the end of a run, for any register that absorbs symbols linearly. */
module SymbolRegister {

  /** A symbol is a five-bit value. */
  predicate Symbols(vs: seq<bv8>) {
    forall i :: 0 <= i < |vs| ==> vs[i] < 32
  }

  const SIX := 6

  /** What stands in for the checksum while it is computed. */
  function Zeros(n: nat): (r: seq<bv8>)
    ensures |r| == n && forall i :: 0 <= i < n ==> r[i] == 0
  {
    seq(n, i requires 0 <= i < n => 0)
  }

  /** A register: how it absorbs a symbol, how two combine, and how its contents are cut into symbols. */
  datatype Machine<!R> = Machine(
    step: (R, bv8) -> R, xor: (R, R) -> R, zero: R,
    above: R -> R, last: R -> bv8, fits: (R, nat) -> bool)

  /** Two symbols combined, bit by bit. */
  function Plus(u: bv8, v: bv8): bv8 { u ^ v }

  function Combined(us: seq<bv8>, vs: seq<bv8>): (r: seq<bv8>)
    requires |us| == |vs|
    ensures |r| == |us| && forall i :: 0 <= i < |us| ==> r[i] == Plus(us[i], vs[i])
  {
    seq(|us|, i requires 0 <= i < |us| => Plus(us[i], vs[i]))
  }

  ghost predicate Additive<R(!new)>(m: Machine<R>) {
    forall a, b, u, v :: m.step(m.xor(a, b), Plus(u, v)) == m.xor(m.step(a, u), m.step(b, v))
  }

  ghost predicate Cancels<R(!new)>(m: Machine<R>) {
    && (forall a :: m.xor(a, m.zero) == a)
    && (forall a, b :: m.xor(a, m.xor(a, b)) == b)
  }

  ghost predicate Linear<R(!new)>(m: Machine<R>) { Additive(m) && Cancels(m) }

  /** What every step keeps, a run keeps. */
  lemma {:induction false} RunKeeps<R(!new)>(m: Machine<R>, good: R -> bool, r: R, vs: seq<bv8>)
    requires good(r) && Symbols(vs)
    requires forall r, v :: good(r) && v < 32 ==> good(m.step(r, v))
    ensures good(Run(m, r, vs))
    decreases |vs|
  {
    if vs != [] { RunKeeps(m, good, m.step(r, vs[0]), vs[1..]); }
  }

  /** Registers that differ stay different when steps keep them so. */
  lemma {:induction false} RunSeparates<R(!new)>(m: Machine<R>, good: R -> bool, a: R, b: R, vs: seq<bv8>)
    requires good(a) && good(b) && a != b && Symbols(vs)
    requires forall r, v :: good(r) && v < 32 ==> good(m.step(r, v))
    requires forall a, b, v :: good(a) && good(b) && a != b ==> m.step(a, v) != m.step(b, v)
    ensures Run(m, a, vs) != Run(m, b, vs)
    decreases |vs|
  {
    if vs != [] { RunSeparates(m, good, m.step(a, vs[0]), m.step(b, vs[0]), vs[1..]); }
  }

  lemma RunHead<R>(m: Machine<R>, r: R, vs: seq<bv8>, k: nat)
    requires k < |vs|
    ensures Run(m, r, vs[k..]) == Run(m, m.step(r, vs[k]), vs[k + 1..])
  {
    assert vs[k..][1..] == vs[k + 1..];
  }

  ghost predicate Unstacks<R(!new)>(m: Machine<R>) {
    && (forall x :: m.fits(x, 0) <==> x == m.zero)
    && (forall x, n: nat :: m.fits(x, n) && 0 < n <= SIX ==>
          m.fits(m.above(x), n - 1) && m.last(x) < 32 && m.step(m.above(x), m.last(x)) == x)
  }

  /** A register with room for the symbol takes it in below its contents. */
  ghost predicate Takes<R(!new)>(m: Machine<R>) {
    forall y, v, n: nat :: m.fits(y, n) && n < SIX && v < 32 ==>
      m.fits(m.step(y, v), n + 1) && m.above(m.step(y, v)) == y && m.last(m.step(y, v)) == v
  }

  /** Taking a symbol in and cutting it out undo each other. */
  ghost predicate Stacks<R(!new)>(m: Machine<R>) { Unstacks(m) && Takes(m) }

  function Run<R>(m: Machine<R>, r: R, vs: seq<bv8>): R
    decreases |vs|
  {
    if vs == [] then r else Run(m, m.step(r, vs[0]), vs[1..])
  }

  /** The last `n` symbols of `x`. */
  function SymbolsOf<R>(m: Machine<R>, x: R, n: nat): (r: seq<bv8>)
    ensures |r| == n
    decreases n, m
  {
    if n == 0 then [] else SymbolsOf(m, m.above(x), n - 1) + [m.last(x)]
  }

  lemma {:induction false} RunSplits<R>(m: Machine<R>, r: R, us: seq<bv8>, vs: seq<bv8>)
    ensures Run(m, r, us + vs) == Run(m, Run(m, r, us), vs)
    decreases |us|
  {
    if us == [] {
      assert us + vs == vs;
    } else {
      RunSplits(m, m.step(r, us[0]), us[1..], vs);
      assert (us + vs)[1..] == us[1..] + vs;
    }
  }

  lemma RunMore<R>(m: Machine<R>, r: R, s: seq<bv8>, v: bv8)
    ensures Run(m, r, s + [v]) == m.step(Run(m, r, s), v)
  {
    RunSplits(m, r, s, [v]);
    assert [v][1..] == [];
  }

  /** The symbols of `x`, absorbed from nothing, leave `x`. */
  lemma {:induction false} SymbolsRebuild<R(!new)>(m: Machine<R>, x: R, n: nat)
    requires Stacks(m) && m.fits(x, n) && n <= SIX
    ensures Symbols(SymbolsOf(m, x, n)) && Run(m, m.zero, SymbolsOf(m, x, n)) == x
    decreases n
  {
    if n > 0 {
      SymbolsRebuild(m, m.above(x), n - 1);
      RunMore(m, m.zero, SymbolsOf(m, m.above(x), n - 1), m.last(x));
    }
  }

  /** Up to six symbols are those their own register is cut into. */
  lemma {:induction false} SymbolsReadBack<R(!new)>(m: Machine<R>, c: seq<bv8>)
    requires Stacks(m) && Symbols(c) && |c| <= SIX
    ensures m.fits(Run(m, m.zero, c), |c|) && SymbolsOf(m, Run(m, m.zero, c), |c|) == c
    decreases |c|
  {
    if c != [] {
      var k := |c| - 1;
      SymbolsReadBack(m, c[..k]);
      assert c == c[..k] + [c[k]];
      RunMore(m, m.zero, c[..k], c[k]);
    }
  }

  /** A whole run is linear in the register and the symbols. */
  lemma {:induction false} RunIsLinear<R(!new)>(m: Machine<R>, a: R, b: R, us: seq<bv8>, vs: seq<bv8>)
    requires Linear(m) && |us| == |vs|
    ensures Run(m, m.xor(a, b), Combined(us, vs)) == m.xor(Run(m, a, us), Run(m, b, vs))
    decreases |us|
  {
    if us != [] {
      RunIsLinear(m, m.step(a, us[0]), m.step(b, vs[0]), us[1..], vs[1..]);
      assert Combined(us, vs)[1..] == Combined(us[1..], vs[1..]);
    }
  }

  lemma ZerosAreUnits(c: seq<bv8>)
    ensures Combined(Zeros(|c|), c) == c
  {
    forall i | 0 <= i < |c| ensures Plus(0, c[i]) == c[i] {
      ZeroIsUnit(c[i]);
    }
  }

  lemma ZeroIsUnit(v: bv8)
    ensures Plus(0, v) == v
  {
  }

  /** Six symbols bring a run to `goal` exactly when they are those of what zeros in their place lack. */
  lemma OneCompletion<R(!new)>(m: Machine<R>, r: R, front: seq<bv8>, goal: R, c: seq<bv8>)
    requires Linear(m) && Stacks(m) && Symbols(c) && |c| == SIX
    requires m.fits(m.xor(Run(m, r, front + Zeros(SIX)), goal), SIX)
    ensures Run(m, r, front + c) == goal <==> c == SymbolsOf(m, m.xor(Run(m, r, front + Zeros(SIX)), goal), SIX)
  {
    var p := Run(m, r, front + Zeros(SIX));
    var s := Run(m, r, front);
    RunSplits(m, r, front, Zeros(SIX));
    RunSplits(m, r, front, c);
    ZerosAreUnits(c);
    RunIsLinear(m, s, m.zero, Zeros(SIX), c);
    assert Run(m, r, front + c) == m.xor(p, Run(m, m.zero, c));
    SymbolsReadBack(m, c);
    SymbolsRebuild(m, m.xor(p, goal), SIX);
  }
}

/** The checksum of a Bech32 address, as section "Checksum" of BIP-173 defines it, over a thirty-bit register. */
module Checksum {

  import opened SymbolRegister

  function Xor(a: bv32, b: bv32): bv32 { a ^ b }

  const TAPS: seq<bv32> := [1, 2, 4, 8, 16]
  const GENERATORS: seq<bv32> := [0x3b6a57b2, 0x26508e6d, 0x1ea119fa, 0x3d4233dd, 0x2a1462b3]

  predicate Meets(top: bv32, mask: bv32) { top & mask != 0 }

  /** Whether bit `i` of `top` is set. */
  predicate Tapped(top: bv32, i: nat)
    requires i < |TAPS|
  {
    Meets(top, TAPS[i])
  }

  function Pick(on: bool, g: bv32): bv32 { if on then g else 0 }

  /** Mixes in generator `i` when bit `i` of `top` is set. */
  function Mix(chk: bv32, top: bv32, i: nat): bv32
    requires i < |TAPS|
  {
    Xor(chk, Pick(Tapped(top, i), GENERATORS[i]))
  }

  function Shifted(chk: bv32, v: bv8): bv32 {
    ((chk & 0x1ffffff) << 5) ^ (v as bv32)
  }

  /** The register `chk` shifted for a new value, and the first `n` generators mixed in. */
  function Mixed(chk: bv32, v: bv8, n: nat): bv32
    requires n <= |TAPS|
    decreases n, chk
  {
    if n == 0 then Shifted(chk, v) else Mix(Mixed(chk, v, n - 1), chk >> 25, n - 1)
  }

  /** The register after one more value. */
  function Absorb(chk: bv32, v: bv8): bv32 {
    Mixed(chk, v, |TAPS|)
  }

  /** The low five bits, cut out through a byte as `checksum` does, and the bits above them. */
  function LastSymbol(x: bv32): bv8 { ((x & 0xff) as bv8) & 31 }
  function Above(x: bv32): bv32 { x >> 5 }

  /** `x` has no bits above its last `n` symbols. */
  predicate Fits(x: bv32, n: nat) {
    match n
    case 0 => x == 0 case 1 => x < 0x20 case 2 => x < 0x400 case 3 => x < 0x8000
    case 4 => x < 0x10_0000 case 5 => x < 0x200_0000 case _ => x < 0x4000_0000
  }

  /** Thirty bits. */
  predicate Small(chk: bv32) { chk < 0x4000_0000 }

  function Bch(): Machine<bv32> { Machine(Absorb, Xor, 0, Above, LastSymbol, Fits) }

  function Polymod(vs: seq<bv8>): bv32 { Run(Bch(), 1, vs) }

  /** `polymod`. The register never leaves thirty bits, so the width of Go's int does not show. */
  method ComputePolymod(values: seq<bv8>) returns (chk: bv32)
    requires Symbols(values)
    ensures chk == Polymod(values) && Small(chk)
  {
    ghost var m := Bch();
    chk := 1;
    for k := 0 to |values|
      invariant Run(m, chk, values[k..]) == Run(m, 1, values) && Small(chk)
    {
      RunHead(m, chk, values, k);
      AbsorbStays(chk, values[k]);
      chk := Next(chk, values[k]);
    }
  }

  method Next(chk: bv32, v: bv8) returns (r: bv32)
    ensures r == Absorb(chk, v)
  {
    var top := chk >> 25;
    r := Shifted(chk, v);
    for i := 0 to |TAPS|
      invariant r == Mixed(chk, v, i)
    {
      MixIs(r, top, i);
      if Tapped(top, i) { r := r ^ GENERATORS[i]; }
    }
  }

  lemma MixIs(chk: bv32, top: bv32, i: nat)
    requires i < |TAPS|
    ensures Mix(chk, top, i) == if Tapped(top, i) then chk ^ GENERATORS[i] else chk
  {
    XorIs(chk, GENERATORS[i]);
  }

  lemma XorIs(a: bv32, b: bv32)
    ensures Xor(a, b) == a ^ b && Xor(a, 0) == a && Xor(0, b) == b
  {
  }

  // The register stays within thirty bits.

  lemma XorStays(a: bv32, b: bv32)
    requires a < 0x4000_0000 && b < 0x4000_0000
    ensures Xor(a, b) < 0x4000_0000
  {
  }

  lemma GeneratorsStay(i: nat)
    requires i < |TAPS|
    ensures GENERATORS[i] < 0x4000_0000
  {
  }

  lemma MixStays(chk: bv32, top: bv32, i: nat)
    requires chk < 0x4000_0000 && i < |TAPS|
    ensures Mix(chk, top, i) < 0x4000_0000
  {
    GeneratorsStay(i);
    XorStays(chk, Pick(Tapped(top, i), GENERATORS[i]));
  }

  lemma ShiftedStays(chk: bv32, v: bv8)
    requires v < 32
    ensures Shifted(chk, v) < 0x4000_0000
  {
  }

  lemma {:induction false} MixedStays(chk: bv32, v: bv8, n: nat)
    requires v < 32 && n <= |TAPS|
    ensures Mixed(chk, v, n) < 0x4000_0000
    decreases n
  {
    if n == 0 {
      ShiftedStays(chk, v);
    } else {
      MixedStays(chk, v, n - 1);
      MixStays(Mixed(chk, v, n - 1), chk >> 25, n - 1);
    }
  }

  lemma AbsorbStays(chk: bv32, v: bv8)
    requires v < 32
    ensures Absorb(chk, v) < 0x4000_0000
  {
    MixedStays(chk, v, |TAPS|);
  }

  lemma RunStays(chk: bv32, vs: seq<bv8>)
    requires Small(chk) && Symbols(vs)
    ensures Small(Run(Bch(), chk, vs))
  {
    StepsStay(Bch());
    RunKeeps(Bch(), Small, chk, vs);
  }

  lemma StepsStay(m: Machine<bv32>)
    requires m == Bch()
    ensures forall r, v :: Small(r) && v < 32 ==> Small(m.step(r, v))
  {
    forall r, v | Small(r) && v < 32 ensures Small(m.step(r, v)) {
      AbsorbStays(r, v);
    }
  }

  // Linearity over exclusive or.

  lemma XorAssociates(a: bv32, b: bv32, c: bv32)
    ensures Xor(Xor(a, b), c) == Xor(a, Xor(b, c))
  {
  }

  lemma XorCommutes(a: bv32, b: bv32)
    ensures Xor(a, b) == Xor(b, a)
  {
  }

  lemma PickIsLinear(x: bool, y: bool, g: bv32)
    ensures Pick(x != y, g) == Xor(Pick(x, g), Pick(y, g))
  {
    XorIs(g, 0);
    XorIs(0, g);
    XorZero(g, g);
    XorZero(0, 0);
  }

  lemma MasksAreLinear(a: bv32, b: bv32, mask: bv32)
    requires mask == 1 || mask == 2 || mask == 4 || mask == 8 || mask == 16
    ensures Meets(a ^ b, mask) == (Meets(a, mask) != Meets(b, mask))
  {
  }

  lemma TapIsLinear(a: bv32, b: bv32, i: nat)
    requires i < |TAPS|
    ensures Tapped(a ^ b, i) == (Tapped(a, i) != Tapped(b, i))
  {
    TapsAreMasks(i);
    MasksAreLinear(a, b, TAPS[i]);
  }

  lemma TapsAreMasks(i: nat)
    requires i < |TAPS|
    ensures TAPS[i] == 1 || TAPS[i] == 2 || TAPS[i] == 4 || TAPS[i] == 8 || TAPS[i] == 16
  {
  }

  lemma MixIsLinear(a: bv32, b: bv32, s: bv32, t: bv32, i: nat)
    requires i < |TAPS|
    ensures Mix(Xor(a, b), s ^ t, i) == Xor(Mix(a, s, i), Mix(b, t, i))
  {
    TapIsLinear(s, t, i);
    PickIsLinear(Tapped(s, i), Tapped(t, i), GENERATORS[i]);
    var c, d := Pick(Tapped(s, i), GENERATORS[i]), Pick(Tapped(t, i), GENERATORS[i]);
    XorAssociates(a, b, Xor(c, d));
    XorAssociates(b, c, d);
    XorCommutes(b, c);
    XorAssociates(c, b, d);
    XorAssociates(a, c, Xor(b, d));
  }

  lemma ShiftedIsLinear(a: bv32, b: bv32, u: bv8, v: bv8)
    ensures Shifted(a ^ b, u ^ v) == Xor(Shifted(a, u), Shifted(b, v))
  {
    assert (((a ^ b) & 0x1ffffff) << 5) ^ ((u ^ v) as bv32)
        == (((a & 0x1ffffff) << 5) ^ (u as bv32)) ^ (((b & 0x1ffffff) << 5) ^ (v as bv32));
  }

  lemma TopIsLinear(a: bv32, b: bv32)
    ensures (a ^ b) >> 25 == (a >> 25) ^ (b >> 25)
  {
  }

  lemma {:induction false} MixedIsLinear(a: bv32, b: bv32, u: bv8, v: bv8, n: nat)
    requires n <= |TAPS|
    ensures Mixed(a ^ b, u ^ v, n) == Xor(Mixed(a, u, n), Mixed(b, v, n))
    decreases n
  {
    if n == 0 {
      ShiftedIsLinear(a, b, u, v);
    } else {
      TopIsLinear(a, b);
      MixedIsLinear(a, b, u, v, n - 1);
      MixIsLinear(Mixed(a, u, n - 1), Mixed(b, v, n - 1), a >> 25, b >> 25, n - 1);
    }
  }

  /** One step is linear: registers and values may be combined before it or after. */
  lemma AbsorbIsLinear(a: bv32, b: bv32, u: bv8, v: bv8)
    ensures Absorb(a ^ b, u ^ v) == Xor(Absorb(a, u), Absorb(b, v))
  {
    MixedIsLinear(a, b, u, v, |TAPS|);
  }

  // Nothing is cancelled: the step from register to register is one to one.

  lemma NoKernel(a: bv32, m1: bv32, m2: bv32, m3: bv32, m4: bv32, m5: bv32)
    requires a < 0x4000_0000
    requires m1 == ((a & 0x1ffffff) << 5) ^ (if (a >> 25) & 1 != 0 then 0x3b6a57b2 else 0)
    requires m2 == m1 ^ (if (a >> 25) & 2 != 0 then 0x26508e6d else 0)
    requires m3 == m2 ^ (if (a >> 25) & 4 != 0 then 0x1ea119fa else 0)
    requires m4 == m3 ^ (if (a >> 25) & 8 != 0 then 0x3d4233dd else 0)
    requires m5 == m4 ^ (if (a >> 25) & 16 != 0 then 0x2a1462b3 else 0)
    ensures m5 == 0 ==> a == 0
  {
  }

  lemma MixedStep(a: bv32, i: nat)
    requires i < |TAPS|
    ensures Mixed(a, 0, i + 1) == Mix(Mixed(a, 0, i), a >> 25, i)
  {
  }

  lemma MixForm(m: bv32, a: bv32, i: nat, tap: bv32, g: bv32)
    requires i < |TAPS| && TAPS[i] == tap && GENERATORS[i] == g
    ensures Mix(m, a >> 25, i) == m ^ (if (a >> 25) & tap != 0 then g else 0)
  {
  }

  lemma MixedToNothing(a: bv32, m0: bv32, m1: bv32, m2: bv32, m3: bv32, m4: bv32, m5: bv32)
    requires a < 0x4000_0000 && m0 == (a & 0x1ffffff) << 5 && m5 == 0
    requires m1 == Mix(m0, a >> 25, 0) && m2 == Mix(m1, a >> 25, 1) && m3 == Mix(m2, a >> 25, 2)
    requires m4 == Mix(m3, a >> 25, 3) && m5 == Mix(m4, a >> 25, 4)
    ensures a == 0
  {
    MixForm(m0, a, 0, 1, 0x3b6a57b2);
    MixForm(m1, a, 1, 2, 0x26508e6d);
    MixForm(m2, a, 2, 4, 0x1ea119fa);
    MixForm(m3, a, 3, 8, 0x3d4233dd);
    MixForm(m4, a, 4, 16, 0x2a1462b3);
    NoKernel(a, m1, m2, m3, m4, m5);
  }

  lemma ShiftedNil(a: bv32)
    ensures Shifted(a, 0) == (a & 0x1ffffff) << 5
  {
    assert (0 as bv8) as bv32 == 0;
  }

  /** Only the empty register is absorbed into nothing. */
  lemma AbsorbedToNothing(a: bv32)
    requires a < 0x4000_0000 && Absorb(a, 0) == 0
    ensures a == 0
  {
    ShiftedNil(a);
    MixedStep(a, 0);
    MixedStep(a, 1);
    MixedStep(a, 2);
    MixedStep(a, 3);
    MixedStep(a, 4);
    MixedToNothing(a, Mixed(a, 0, 0), Mixed(a, 0, 1), Mixed(a, 0, 2), Mixed(a, 0, 3), Mixed(a, 0, 4), Mixed(a, 0, 5));
  }

  lemma XorZero(a: bv32, b: bv32)
    ensures Xor(a, b) == 0 <==> a == b
  {
  }

  lemma SelfXor(v: bv8)
    ensures v ^ v == 0
  {
  }

  lemma AbsorbIsOneToOne(a: bv32, b: bv32, v: bv8)
    requires a < 0x4000_0000 && b < 0x4000_0000 && a != b
    ensures Absorb(a, v) != Absorb(b, v)
  {
    XorZero(a, b);
    XorStays(a, b);
    SelfXor(v);
    AbsorbIsLinear(a, b, v, v);
    XorZero(Absorb(a, v), Absorb(b, v));
    if Absorb(a, v) == Absorb(b, v) { AbsorbedToNothing(Xor(a, b)); }
  }

  lemma StepsSeparate(m: Machine<bv32>)
    requires m == Bch()
    ensures forall a, b, v :: Small(a) && Small(b) && a != b ==> m.step(a, v) != m.step(b, v)
  {
    forall a, b, v | Small(a) && Small(b) && a != b ensures m.step(a, v) != m.step(b, v) {
      AbsorbIsOneToOne(a, b, v);
    }
  }

  lemma AbsorbTellsValuesApart(chk: bv32, u: bv8, v: bv8)
    requires u != v
    ensures Absorb(chk, u) != Absorb(chk, v)
  {
    AbsorbIsLinear(chk, chk, u, v);
    XorZero(chk, chk);
    XorZero(Absorb(chk, u), Absorb(chk, v));
    AbsorbFromNothing(u ^ v);
    Differing(u, v);
  }

  lemma Differing(u: bv8, v: bv8)
    ensures u ^ v == 0 <==> u == v
    ensures (u as bv32) == 0 <==> u == 0
    ensures ((u ^ v) as bv32) == 0 <==> u ^ v == 0
  {
  }

  lemma AbsorbFromNothing(v: bv8)
    ensures Absorb(0, v) == v as bv32
  {
    Quiet(0, v);
    assert (0 as bv32) << 5 == 0 && 0 ^ (v as bv32) == v as bv32;
  }

  /** Nothing falls out of a register below two to the twenty-five, so nothing is mixed in. */
  lemma Quiet(chk: bv32, v: bv8)
    requires chk < 0x200_0000
    ensures Absorb(chk, v) == (chk << 5) ^ (v as bv32)
  {
    QuietMix(chk, v, |TAPS|);
  }

  lemma {:induction false} QuietMix(chk: bv32, v: bv8, n: nat)
    requires chk < 0x200_0000 && n <= |TAPS|
    ensures Mixed(chk, v, n) == (chk << 5) ^ (v as bv32)
    decreases n
  {
    QuietBits(chk);
    if n > 0 {
      QuietMix(chk, v, n - 1);
      MixNone((chk << 5) ^ (v as bv32), n - 1);
    }
  }

  lemma MixNone(m: bv32, i: nat)
    requires i < |TAPS|
    ensures Mix(m, 0, i) == m
  {
    assert 0 & TAPS[i] == 0;
    XorIs(m, 0);
  }

  lemma QuietBits(chk: bv32)
    requires chk < 0x200_0000
    ensures chk >> 25 == 0 && chk & 0x1ffffff == chk
  {
  }

  /** One wrong symbol always changes the checksum. */
  lemma OneWrongSymbolShows(vs: seq<bv8>, i: nat, w: bv8)
    requires Symbols(vs) && i < |vs| && w < 32 && w != vs[i]
    ensures Polymod(vs[i := w]) != Polymod(vs)
  {
    var m, head, tail := Bch(), vs[..i], vs[i + 1..];
    var c := Run(m, 1, head);
    RunStays(1, head);
    StepsStay(m);
    StepsSeparate(m);
    AbsorbTellsValuesApart(c, vs[i], w);
    assert vs == head + [vs[i]] + tail && vs[i := w] == head + [w] + tail;
    RunSplits(m, 1, head + [vs[i]], tail);
    RunSplits(m, 1, head + [w], tail);
    RunMore(m, 1, head, vs[i]);
    RunMore(m, 1, head, w);
    RunSeparates(m, Small, m.step(c, vs[i]), m.step(c, w), tail);
  }

  // The six symbols.

  function Lowered(x: bv32, i: int): bv32 {
    match i
    case 0 => x >> 25 case 1 => x >> 20 case 2 => x >> 15
    case 3 => x >> 10 case 4 => x >> 5 case _ => x
  }

  lemma Above20(x: bv32)
    ensures Above(x >> 20) == x >> 25
  {
  }

  lemma Above15(x: bv32)
    ensures Above(x >> 15) == x >> 20
  {
  }

  lemma Above10(x: bv32)
    ensures Above(x >> 10) == x >> 15
  {
  }

  lemma Above5(x: bv32)
    ensures Above(x >> 5) == x >> 10
  {
  }

  lemma LoweredSteps(x: bv32, i: int)
    requires 0 <= i < 5
    ensures Above(Lowered(x, i + 1)) == Lowered(x, i)
  {
    match i
    case 0 => Above20(x);
    case 1 => Above15(x);
    case 2 => Above10(x);
    case 3 => Above5(x);
    case _ =>
  }

  lemma {:induction false} SymbolsAt(m: Machine<bv32>, x: bv32, k: nat, i: nat)
    requires m == Bch() && i <= k <= 5
    ensures SymbolsOf(m, Lowered(x, k), k + 1)[i] == LastSymbol(Lowered(x, i))
    decreases k
  {
    if i < k {
      LoweredSteps(x, k - 1);
      SymbolsAt(m, x, k - 1, i);
    }
  }

  lemma Rejoin(x: bv32)
    requires x < 0x4000_0000
    ensures Above(x) < 0x200_0000 && LastSymbol(x) < 32
    ensures (Above(x) << 5) ^ (LastSymbol(x) as bv32) == x
  {
  }

  lemma FitsAbove(x: bv32, n: nat)
    requires Fits(x, n) && 0 < n <= 6
    ensures Fits(Above(x), n - 1) && x < 0x4000_0000
  {
    match n case 1 => case 2 => case 3 => case 4 => case 5 => case _ =>
  }

  lemma TakeOut(m: Machine<bv32>, x: bv32, n: nat)
    requires m == Bch() && m.fits(x, n) && 0 < n <= SIX
    ensures m.fits(m.above(x), n - 1) && m.last(x) < 32 && m.step(m.above(x), m.last(x)) == x
  {
    FitsAbove(x, n);
    Rejoin(x);
    Quiet(Above(x), LastSymbol(x));
  }

  lemma Unjoin(y: bv32, v: bv8)
    requires y < 0x200_0000 && v < 32
    ensures Above((y << 5) ^ (v as bv32)) == y && LastSymbol((y << 5) ^ (v as bv32)) == v
  {
  }

  lemma JoinFits(y: bv32, v: bv8, n: nat)
    requires Fits(y, n) && n < 6 && v < 32
    ensures y < 0x200_0000 && Fits((y << 5) ^ (v as bv32), n + 1)
  {
    match n case 0 => case 1 => case 2 => case 3 => case 4 => case _ =>
  }

  lemma PutIn(m: Machine<bv32>, y: bv32, v: bv8, n: nat)
    requires m == Bch() && m.fits(y, n) && n < SIX && v < 32
    ensures m.fits(m.step(y, v), n + 1) && m.above(m.step(y, v)) == y && m.last(m.step(y, v)) == v
  {
    JoinFits(y, v, n);
    Unjoin(y, v);
    Quiet(y, v);
  }

  lemma BchUnstacks(m: Machine<bv32>)
    requires m == Bch()
    ensures Unstacks(m)
  {
    forall x, n: nat | m.fits(x, n) && 0 < n <= SIX
      ensures m.fits(m.above(x), n - 1) && m.last(x) < 32 && m.step(m.above(x), m.last(x)) == x
    {
      TakeOut(m, x, n);
    }
  }

  lemma BchTakes(m: Machine<bv32>)
    requires m == Bch()
    ensures Takes(m)
  {
    forall y, v, n: nat | m.fits(y, n) && n < SIX && v < 32
      ensures m.fits(m.step(y, v), n + 1) && m.above(m.step(y, v)) == y && m.last(m.step(y, v)) == v
    {
      PutIn(m, y, v, n);
    }
  }

  lemma XorUnit(a: bv32)
    ensures Xor(a, 0) == a
  {
  }

  lemma XorUndoes(a: bv32, b: bv32)
    ensures Xor(a, Xor(a, b)) == b
  {
  }

  lemma StepIsLinear(m: Machine<bv32>, a: bv32, b: bv32, u: bv8, v: bv8)
    requires m == Bch()
    ensures m.step(m.xor(a, b), Plus(u, v)) == m.xor(m.step(a, u), m.step(b, v))
  {
    AbsorbIsLinear(a, b, u, v);
  }

  lemma BchIsAdditive(m: Machine<bv32>)
    requires m == Bch()
    ensures Additive(m)
  {
    forall a, b, u, v ensures m.step(m.xor(a, b), Plus(u, v)) == m.xor(m.step(a, u), m.step(b, v)) {
      StepIsLinear(m, a, b, u, v);
    }
  }

  lemma BchCancels(m: Machine<bv32>)
    requires m == Bch()
    ensures Cancels(m)
  {
    forall a ensures m.xor(a, m.zero) == a {
      XorUnit(a);
    }
    forall a, b ensures m.xor(a, m.xor(a, b)) == b {
      XorUndoes(a, b);
    }
  }

  lemma BchIsLawful(m: Machine<bv32>)
    requires m == Bch()
    ensures Linear(m) && Stacks(m)
  {
    BchIsAdditive(m);
    BchCancels(m);
    BchUnstacks(m);
    BchTakes(m);
  }

  function HighBits(v: bv8): bv8 { v >> 5 }
  function LowBits(v: bv8): bv8 { v & 31 }

  /** `hrpExpand`: the high bits of each character, a zero, the low bits. */
  function HrpExpand(hrp: seq<bv8>): (r: seq<bv8>)
    ensures |r| == 2 * |hrp| + 1
  {
    seq(|hrp|, i requires 0 <= i < |hrp| => HighBits(hrp[i])) + [0] + seq(|hrp|, i requires 0 <= i < |hrp| => LowBits(hrp[i]))
  }

  lemma HrpExpandIsSymbols(hrp: seq<bv8>)
    ensures Symbols(HrpExpand(hrp))
  {
    var n, r := |hrp|, HrpExpand(hrp);
    forall i | 0 <= i < |r| ensures r[i] < 32 {
      if i < n { FiveBits(hrp[i]); } else if i > n { FiveBits(hrp[i - n - 1]); }
    }
  }

  lemma FiveBits(v: bv8)
    ensures HighBits(v) < 32 && LowBits(v) < 32
  {
  }

  /** A character in thirty-twos and the rest. */
  predicate Splits(c: bv8, high: bv8, low: bv8) {
    high as int * 32 + low as int == c as int && low as int < 32
  }

  /** A prefix expanded, on numbers: the thirty-twos of each character, a zero, and the rest of each. */
  predicate IsExpansion(hrp: seq<bv8>, e: seq<bv8>) {
    var n := |hrp|;
    |e| == 2 * n + 1 && e[n] == 0 && forall i :: 0 <= i < n ==> Splits(hrp[i], e[i], e[n + 1 + i])
  }

  /** The code's expansion is that one. */
  lemma HrpExpandIsExpansion(hrp: seq<bv8>, e: seq<bv8>)
    ensures IsExpansion(hrp, e) <==> e == HrpExpand(hrp)
  {
    var n, r := |hrp|, HrpExpand(hrp);
    forall i | 0 <= i < n ensures Splits(hrp[i], r[i], r[n + 1 + i]) {
      TwoParts(hrp[i]);
    }
    if IsExpansion(hrp, e) {
      forall k | 0 <= k < |e| ensures e[k] == r[k] {
        if k < n { OneSplit(hrp[k], e[k], e[n + 1 + k]); }
        if k > n {
          var i := k - n - 1;
          assert Splits(hrp[i], e[i], e[n + 1 + i]);
          OneSplit(hrp[i], e[i], e[k]);
        }
      }
    }
  }

  lemma TwoParts(v: bv8)
    ensures Splits(v, HighBits(v), LowBits(v))
  {
  }

  lemma OneSplit(v: bv8, high: bv8, low: bv8)
    requires Splits(v, high, low)
    ensures high == HighBits(v) && low == LowBits(v)
  {
    TwoParts(v);
    SameNumber(high, HighBits(v));
    SameNumber(low, LowBits(v));
  }

  lemma SameNumber(u: bv8, v: bv8)
    ensures u as int == v as int ==> u == v
    ensures 0 <= u as int < 256
  {
  }

  /** The register after everything but the checksum, with the last bit flipped. */
  function Residue(hrp: seq<bv8>, data: seq<bv8>): bv32 {
    Xor(Polymod(HrpExpand(hrp) + data + Zeros(SIX)), 1)
  }

  function CheckSymbols(hrp: seq<bv8>, data: seq<bv8>): (r: seq<bv8>)
    ensures |r| == SIX
  {
    SymbolsOf(Bch(), Residue(hrp, data), SIX)
  }

  /** `checksum`: fills the six bytes one by one. */
  method ComputeChecksum(hrp: seq<bv8>, data: seq<bv8>) returns (out: seq<bv8>)
    requires Symbols(data)
    ensures out == CheckSymbols(hrp, data)
    ensures forall e :: IsExpansion(hrp, e) ==> Polymod(e + data + out) == 1
  {
    HrpExpandIsSymbols(hrp);
    var values := HrpExpand(hrp) + data;
    values := values + Zeros(SIX);
    var mod := ComputePolymod(values);
    mod := Xor(mod, 1);
    out := Cut(mod);
    CutIsSymbols(Bch(), mod, out);
    AnyExpansionVerifies(hrp, data);
  }

  function SymbolAt(x: bv32, i: int): bv8 { LastSymbol(Lowered(x, i)) }

  method Cut(mod: bv32) returns (out: seq<bv8>)
    ensures |out| == SIX && forall k :: 0 <= k < SIX ==> out[k] == SymbolAt(mod, k)
  {
    out := [];
    for i := 0 to SIX
      invariant |out| == i && forall k :: 0 <= k < i ==> out[k] == SymbolAt(mod, k)
    {
      var v := SymbolAt(mod, i);
      out := out + [v];
    }
  }

  lemma CutIsSymbols(m: Machine<bv32>, x: bv32, out: seq<bv8>)
    requires m == Bch() && |out| == SIX && forall k :: 0 <= k < SIX ==> out[k] == SymbolAt(x, k)
    ensures out == SymbolsOf(m, x, SIX)
  {
    forall i | 0 <= i < SIX ensures out[i] == SymbolsOf(m, x, SIX)[i] {
      SymbolsAt(m, x, SIX - 1, i);
    }
  }

  lemma ResidueFits(hrp: seq<bv8>, data: seq<bv8>)
    requires Symbols(data)
    ensures Fits(Residue(hrp, data), SIX)
  {
    HrpExpandIsSymbols(hrp);
    RunStays(1, HrpExpand(hrp) + data + Zeros(SIX));
    XorStays(Polymod(HrpExpand(hrp) + data + Zeros(SIX)), 1);
  }

  /** The checksum makes the polymod of prefix, data and checksum 1, and no other six symbols do. */
  lemma ChecksumIsTheOnlyOne(hrp: seq<bv8>, data: seq<bv8>, c: seq<bv8>)
    requires Symbols(data) && Symbols(c) && |c| == SIX
    ensures Polymod(HrpExpand(hrp) + data + c) == 1 <==> c == CheckSymbols(hrp, data)
  {
    BchIsLawful(Bch());
    ResidueFits(hrp, data);
    OneCompletion(Bch(), 1, HrpExpand(hrp) + data, 1, c);
  }

  /** Every address verifies. */
  lemma ChecksumVerifies(hrp: seq<bv8>, data: seq<bv8>)
    requires Symbols(data)
    ensures Symbols(CheckSymbols(hrp, data)) && Polymod(HrpExpand(hrp) + data + CheckSymbols(hrp, data)) == 1
  {
    BchIsLawful(Bch());
    ResidueFits(hrp, data);
    SymbolsRebuild(Bch(), Residue(hrp, data), SIX);
    ChecksumIsTheOnlyOne(hrp, data, CheckSymbols(hrp, data));
  }

  /** On the plain reading of the prefix. */
  lemma AnyExpansionVerifies(hrp: seq<bv8>, data: seq<bv8>)
    requires Symbols(data)
    ensures forall e :: IsExpansion(hrp, e) ==> Polymod(e + data + CheckSymbols(hrp, data)) == 1
  {
    ChecksumVerifies(hrp, data);
    forall e | IsExpansion(hrp, e) ensures Polymod(e + data + CheckSymbols(hrp, data)) == 1 {
      HrpExpandIsExpansion(hrp, e);
    }
  }
}
