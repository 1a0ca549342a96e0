/** Package paths as generations of a family: how a path is taken apart, and which generation is the earlier. */
module Generations {
  import opened Base

  const MAX_SEGMENT_DIGITS := 2

  // Segments.

  /** Go's strings.Split at slashes. */
  function Segments(s: string): (r: seq<string>)
    ensures r != []
    decreases |s|
  {
    if s == "" then [""]
    else
      var rest := Segments(s[1..]);
      if s[0] == '/' then [""] + rest else [[s[0]] + rest[0]] + rest[1..]
  }

  function Join(segs: seq<string>): string
    decreases |segs|
  {
    if segs == [] then "" else if |segs| == 1 then segs[0] else segs[0] + "/" + Join(segs[1..])
  }

  predicate NoSlash(s: string) {
    forall i :: 0 <= i < |s| ==> s[i] != '/'
  }

  predicate SlashFree(segs: seq<string>) {
    forall i :: 0 <= i < |segs| ==> NoSlash(segs[i])
  }

  lemma {:induction false} SegmentsAreSlashFree(s: string)
    ensures SlashFree(Segments(s))
    decreases |s|
  {
    if s != "" { SegmentsAreSlashFree(s[1..]); }
  }

  lemma {:induction false} OneSegment(a: string, s: string)
    requires NoSlash(a) && (s == "" || s[0] == '/')
    ensures Segments(a + s) == if s == "" then [a] else [a] + Segments(s[1..])
    decreases |a|
  {
    if a == "" {
      assert a + s == s;
    } else {
      OneSegment(a[1..], s);
      assert (a + s)[1..] == a[1..] + s && a == [a[0]] + a[1..];
    }
  }

  /** What joined segments split into: themselves. */
  lemma {:induction false} SegmentsOfJoin(segs: seq<string>)
    requires segs != [] && SlashFree(segs)
    ensures Segments(Join(segs)) == segs
    decreases |segs|
  {
    if |segs| == 1 {
      assert segs[0] + "" == segs[0];
      OneSegment(segs[0], "");
    } else {
      var rest := "/" + Join(segs[1..]);
      assert Join(segs) == segs[0] + rest;
      OneSegment(segs[0], rest);
      assert rest[1..] == Join(segs[1..]);
      SegmentsOfJoin(segs[1..]);
    }
  }

  /** Go's strings.Trim of slashes. */
  function Trim(s: string): string
    decreases |s|
  {
    if s != "" && s[0] == '/' then Trim(s[1..])
    else if s != "" && s[|s| - 1] == '/' then Trim(s[..|s| - 1])
    else s
  }

  // One segment.

  predicate IsDigit(c: char) { '0' <= c <= '9' }

  predicate AllDigits(s: string) {
    forall i :: 0 <= i < |s| ==> IsDigit(s[i])
  }

  /** Where the trailing digits of a segment begin. */
  function DigitsFrom(seg: string): (i: nat)
    ensures i <= |seg| && AllDigits(seg[i..]) && (i > 0 ==> !IsDigit(seg[i - 1]))
    decreases |seg|
  {
    if seg == "" || !IsDigit(seg[|seg| - 1]) then |seg|
    else
      var i := DigitsFrom(seg[..|seg| - 1]);
      assert seg[i..] == seg[..|seg| - 1][i..] + [seg[|seg| - 1]];
      i
  }

  function Number(digits: string): nat
    requires AllDigits(digits)
  {
    if digits == "" then 0 else 10 * Number(digits[..|digits| - 1]) + (digits[|digits| - 1] as int - '0' as int)
  }

  datatype Part = Part(stem: string, gen: nat)

  function DropV(s: string): string {
    if s != "" && s[|s| - 1] == 'v' then s[..|s| - 1] else s
  }

  function SplitGeneration(seg: string): Part {
    var i := DigitsFrom(seg);
    if i == |seg| || |seg| - i > MAX_SEGMENT_DIGITS then Part(seg, 0) else Part(DropV(seg[..i]), Number(seg[i..]))
  }

  /** `splitGeneration`: scans back over the digits. */
  method ComputeSplit(seg: string) returns (p: Part)
    ensures p == SplitGeneration(seg)
  {
    var i: nat := |seg|;
    while i > 0 && IsDigit(seg[i - 1])
      invariant i <= |seg| && AllDigits(seg[i..])
    {
      i := i - 1;
      assert seg[i..] == [seg[i]] + seg[i + 1..];
    }
    DigitsFromIs(seg, i);
    if i == |seg| || |seg| - i > MAX_SEGMENT_DIGITS { return Part(seg, 0); }
    p := Part(DropV(seg[..i]), Number(seg[i..]));
  }

  lemma DigitsFromIs(seg: string, i: nat)
    requires i <= |seg| && AllDigits(seg[i..]) && (i > 0 ==> !IsDigit(seg[i - 1]))
    ensures DigitsFrom(seg) == i
  {
    var j := DigitsFrom(seg);
    AllFrom(seg, i);
    AllFrom(seg, j);
  }

  lemma AllFrom(seg: string, i: nat)
    requires i <= |seg| && AllDigits(seg[i..])
    ensures forall k :: i <= k < |seg| ==> IsDigit(seg[k])
  {
    forall k | i <= k < |seg| ensures IsDigit(seg[k]) {
      assert seg[i..][k - i] == seg[k];
    }
  }

  /** Nothing of a segment is lost: stem, perhaps a `v`, and one or two digits that spell the generation; or no generation at all. */
  lemma SplitRebuilds(seg: string)
    ensures var p := SplitGeneration(seg);
      (p.gen == 0 && p.stem == seg)
      || exists v, digits :: seg == p.stem + v + digits && (v == "" || v == "v")
           && 1 <= |digits| <= MAX_SEGMENT_DIGITS && AllDigits(digits) && Number(digits) == p.gen
  {
    var p, i := SplitGeneration(seg), DigitsFrom(seg);
    if i < |seg| && |seg| - i <= MAX_SEGMENT_DIGITS {
      var v, digits := if p.stem == seg[..i] then "" else "v", seg[i..];
      assert seg == p.stem + v + digits;
      assert AllDigits(digits) && Number(digits) == p.gen;
    }
  }

  /** `seg` ends in exactly `n` digits. */
  predicate EndsInDigits(seg: string, n: nat) {
    && n <= |seg| && (forall i :: |seg| - n <= i < |seg| ==> IsDigit(seg[i])) && (n < |seg| ==> !IsDigit(seg[|seg| - n - 1]))
  }

  /** `stem` is `seg` without its last `n` characters and without a `v` before them. */
  predicate StemOf(seg: string, n: nat, stem: string) {
    n <= |seg| &&
    if n < |seg| && seg[|seg| - n - 1] == 'v' then stem == seg[..|seg| - n - 1] else stem == seg[..|seg| - n]
  }

  /** One digit is its own generation, two are tens and ones, and none or more than two are no generation. */
  lemma SplitByDigits(seg: string, n: nat)
    requires EndsInDigits(seg, n)
    ensures var p, last := SplitGeneration(seg), |seg| - 1;
      && (n == 0 || n > 2 ==> p == Part(seg, 0))
      && (n == 1 ==> StemOf(seg, n, p.stem) && p.gen == seg[last] as int - 48)
      && (n == 2 ==> StemOf(seg, n, p.stem) && p.gen == 10 * (seg[last - 1] as int - 48) + (seg[last] as int - 48))
  {
    var i := |seg| - n;
    assert AllDigits(seg[i..]);
    DigitsFromIs(seg, i);
    var digits := seg[i..];
    if n == 1 {
      OneDigit(digits);
    } else if n == 2 {
      assert digits[..1] == [digits[0]];
      OneDigit([digits[0]]);
      assert Number(digits) == 10 * Number(digits[..1]) + (digits[1] as int - 48);
    }
  }

  lemma OneDigit(digits: string)
    requires |digits| == 1 && AllDigits(digits)
    ensures Number(digits) == digits[0] as int - 48
  {
    assert digits[..0] == "";
  }

  // Paths.

  datatype Place = Place(family: string, gen: seq<nat>)

  function Gens(segs: seq<string>): (r: seq<nat>)
    ensures |r| == |segs|
  {
    if segs == [] then [] else Gens(segs[..|segs| - 1]) + [SplitGeneration(segs[|segs| - 1]).gen]
  }

  /** The stems left when generations are taken out; a segment that is only a version leaves none. */
  function Stems(segs: seq<string>): seq<string> {
    if segs == [] then []
    else
      var stem := SplitGeneration(segs[|segs| - 1]).stem;
      Stems(segs[..|segs| - 1]) + if stem == "" then [] else [stem]
  }

  predicate HasFamily(segs: seq<string>) {
    |segs| >= 4 && (segs[1] == "r" || segs[1] == "p")
  }

  function PathSegments(path: string): seq<string> { Segments(Trim(path)) }

  function Generation(path: string): Option<Place> {
    var segs := PathSegments(path);
    if HasFamily(segs) then Some(Place(Join(segs[..3] + Stems(segs[3..])), Gens(segs[3..]))) else None
  }

  /** `Generation`: walks the segments below the namespace. */
  method ComputeGeneration(path: string) returns (place: Option<Place>)
    ensures place == Generation(path)
  {
    var segs := PathSegments(path);
    if |segs| < 4 || (segs[1] != "r" && segs[1] != "p") { return None; }
    var keep, gen, below := segs[..3], [], segs[3..];
    for i := 0 to |below|
      invariant keep == segs[..3] + Stems(below[..i]) && gen == Gens(below[..i])
    {
      assert below[..i + 1][..i] == below[..i];
      var p := ComputeSplit(below[i]);
      gen := gen + [p.gen];
      if p.stem != "" { keep := keep + [p.stem]; }
    }
    assert below[..|below|] == below;
    return Some(Place(Join(keep), gen));
  }

  lemma StemIsPiece(seg: string)
    requires NoSlash(seg)
    ensures NoSlash(SplitGeneration(seg).stem)
  {
  }

  lemma {:induction false} StemsAreSlashFree(segs: seq<string>)
    requires SlashFree(segs)
    ensures SlashFree(Stems(segs))
  {
    if segs != [] {
      StemsAreSlashFree(segs[..|segs| - 1]);
      StemIsPiece(segs[|segs| - 1]);
    }
  }

  /** Two paths are one family exactly when chain, kind and namespace agree and so does every stem below them, in order. */
  lemma FamilyMeansSameStems(p: string, q: string)
    requires Generation(p).Some? && Generation(q).Some?
    ensures Generation(p).value.family == Generation(q).value.family <==>
      PathSegments(p)[..3] == PathSegments(q)[..3] && Stems(PathSegments(p)[3..]) == Stems(PathSegments(q)[3..])
  {
    var a, b := PathSegments(p), PathSegments(q);
    var ka, kb := a[..3] + Stems(a[3..]), b[..3] + Stems(b[3..]);
    SegmentsAreSlashFree(Trim(p));
    SegmentsAreSlashFree(Trim(q));
    StemsAreSlashFree(a[3..]);
    StemsAreSlashFree(b[3..]);
    SegmentsOfJoin(ka);
    SegmentsOfJoin(kb);
    assert ka[..3] == a[..3] && kb[..3] == b[..3] && ka[3..] == Stems(a[3..]) && kb[3..] == Stems(b[3..]);
  }

  // The order on generations.

  /** Entry `k` of a vector that goes on with zeros. */
  function Entry(v: seq<nat>, k: nat): nat { if k < |v| then v[k] else 0 }

  /** The first entry where the two differ is smaller on the left. */
  ghost predicate Earlier(a: seq<nat>, b: seq<nat>) {
    exists k: nat :: EarlierAt(a, b, k)
  }

  ghost predicate EarlierAt(a: seq<nat>, b: seq<nat>, k: nat) {
    Entry(a, k) < Entry(b, k) && forall j: nat :: j < k ==> Entry(a, j) == Entry(b, j)
  }

  ghost predicate SameGeneration(a: seq<nat>, b: seq<nat>) {
    forall k: nat :: Entry(a, k) == Entry(b, k)
  }

  /** `GenerationLess`. */
  method ComputeLess(a: seq<nat>, b: seq<nat>) returns (less: bool)
    ensures less <==> Earlier(a, b)
  {
    var n := |a|;
    if |b| > n { n := |b|; }
    for i := 0 to n
      invariant forall k: nat :: k < i ==> Entry(a, k) == Entry(b, k)
    {
      var x, y := 0, 0;
      if i < |a| { x := a[i]; }
      if i < |b| { y := b[i]; }
      if x != y {
        EarlierIsStrict(a, b);
        assert if x < y then EarlierAt(a, b, i) else EarlierAt(b, a, i);
        return x < y;
      }
    }
    EarlierIsStrict(a, b);
    return false;
  }

  /** The same comparison as a function, for use in other specifications. */
  predicate Less(a: seq<nat>, b: seq<nat>)
    decreases |a| + |b|
  {
    if a == [] && b == [] then false
    else if Entry(a, 0) != Entry(b, 0) then Entry(a, 0) < Entry(b, 0)
    else Less(Rest(a), Rest(b))
  }

  function Rest(v: seq<nat>): seq<nat> { if v == [] then [] else v[1..] }

  lemma {:induction false} LessIsEarlier(a: seq<nat>, b: seq<nat>)
    ensures Less(a, b) <==> Earlier(a, b)
    decreases |a| + |b|
  {
    if a == [] && b == [] {
    } else if Entry(a, 0) != Entry(b, 0) {
      if Entry(a, 0) < Entry(b, 0) { assert EarlierAt(a, b, 0); }
    } else {
      LessIsEarlier(Rest(a), Rest(b));
      RestEntries(a);
      RestEntries(b);
      if Less(a, b) {
        var k: nat :| EarlierAt(Rest(a), Rest(b), k);
        forall j: nat | j < k + 1 ensures Entry(a, j) == Entry(b, j) {
          if j > 0 { assert Entry(Rest(a), j - 1) == Entry(Rest(b), j - 1); }
        }
        assert EarlierAt(a, b, k + 1);
      }
      if Earlier(a, b) {
        var k: nat :| EarlierAt(a, b, k);
        assert EarlierAt(Rest(a), Rest(b), k - 1);
      }
    }
  }

  lemma RestEntries(v: seq<nat>)
    ensures forall k: nat :: Entry(Rest(v), k) == Entry(v, k + 1)
  {
  }

  /** No two vectors are each earlier than the other, and exactly the zero-padded equals are neither. */
  lemma EarlierIsStrict(a: seq<nat>, b: seq<nat>)
    ensures !(Earlier(a, b) && Earlier(b, a))
    ensures !Earlier(a, b) && !Earlier(b, a) <==> SameGeneration(a, b)
  {
    if Earlier(a, b) {
      var j: nat :| EarlierAt(a, b, j);
      forall k: nat ensures !EarlierAt(b, a, k) {
        NotBoth(a, b, j, k);
      }
    }
    if !Earlier(a, b) && !Earlier(b, a) { NeitherIsSame(a, b, |a| + |b|); }
  }

  lemma NotBoth(a: seq<nat>, b: seq<nat>, j: nat, k: nat)
    requires EarlierAt(a, b, j)
    ensures !EarlierAt(b, a, k)
  {
  }

  lemma {:induction false} NeitherIsSame(a: seq<nat>, b: seq<nat>, n: nat)
    requires !Earlier(a, b) && !Earlier(b, a)
    ensures forall k: nat :: k < n ==> Entry(a, k) == Entry(b, k)
    ensures n == |a| + |b| ==> SameGeneration(a, b)
  {
    if n > 0 {
      NeitherIsSame(a, b, n - 1);
      NotEarlierAt(a, b, n - 1);
      NotEarlierAt(b, a, n - 1);
    }
  }

  lemma NotEarlierAt(a: seq<nat>, b: seq<nat>, k: nat)
    requires !Earlier(a, b)
    ensures !EarlierAt(a, b, k)
  {
  }

  lemma EarlierIsTransitive(a: seq<nat>, b: seq<nat>, c: seq<nat>)
    requires Earlier(a, b) && Earlier(b, c)
    ensures Earlier(a, c)
  {
    var j: nat :| EarlierAt(a, b, j);
    var k: nat :| EarlierAt(b, c, k);
    assert EarlierAt(a, c, if j < k then j else k);
  }
}
