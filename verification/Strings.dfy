/** The pieces of Go's strings package the code uses, and what they do. */
module Strings {

  function ToLower(s: string): (r: string)
    ensures |r| == |s|
  {
    if s == "" then "" else [if 'A' <= s[0] <= 'Z' then s[0] - 'A' + 'a' else s[0]] + ToLower(s[1..])
  }

  /** Go's ASCII white space. */
  predicate IsSpace(c: char) { c == ' ' || '\t' <= c <= '\r' }

  function TrimSpace(s: string): string {
    if s != "" && IsSpace(s[0]) then TrimSpace(s[1..])
    else if s != "" && IsSpace(s[|s| - 1]) then TrimSpace(s[..|s| - 1])
    else s
  }

  // What those two do.

  predicate White(c: char) { c in {' ', '\t', '\n', '\U{0B}', '\U{0C}', '\r'} }

  predicate Blank(s: string) { forall c :: c in s ==> White(c) }

  predicate BareEnds(s: string) { s == "" || !(White(s[0]) || White(s[|s| - 1])) }

  ghost predicate TrimmedBy(s: string, a: string, t: string, b: string) {
    s == a + t + b && Blank(a) && Blank(b) && BareEnds(t)
  }

  /** `t` is `s` without the white space at its ends. */
  ghost predicate Trimmed(s: string, t: string) {
    exists a, b :: TrimmedBy(s, a, t, b)
  }

  /** `t` is `s` with its capital letters made small. */
  ghost predicate Lowered(s: string, t: string) {
    |t| == |s| && forall i :: 0 <= i < |s| ==> t[i] as int == if 65 <= s[i] as int <= 90 then s[i] as int + 32 else s[i] as int
  }

  lemma {:induction false} ToLowerLowers(s: string)
    ensures Lowered(s, ToLower(s))
  {
    if s != "" { ToLowerLowers(s[1..]); }
  }

  lemma {:induction false} TrimSpaceTrims(s: string)
    ensures Trimmed(s, TrimSpace(s))
    decreases |s|
  {
    var t := TrimSpace(s);
    if s != "" && IsSpace(s[0]) {
      TrimSpaceTrims(s[1..]);
      var a, b :| TrimmedBy(s[1..], a, t, b);
      assert s == [s[0]] + s[1..] && s == ([s[0]] + a) + t + b;
      assert TrimmedBy(s, [s[0]] + a, t, b);
    } else if s != "" && IsSpace(s[|s| - 1]) {
      var front, last := s[..|s| - 1], [s[|s| - 1]];
      TrimSpaceTrims(front);
      var a, b :| TrimmedBy(front, a, t, b);
      assert s == front + last && s == a + t + (b + last);
      assert TrimmedBy(s, a, t, b + last);
    } else {
      assert s == "" + s + "";
      assert TrimmedBy(s, "", s, "");
    }
  }

  /** Trimming has one result. */
  lemma TrimmedOnce(s: string, t: string, u: string)
    requires Trimmed(s, t) && Trimmed(s, u)
    ensures t == u
  {
    var a, b :| TrimmedBy(s, a, t, b);
    var c, d :| TrimmedBy(s, c, u, d);
    if t != "" { NotInBlank(s, a, t, b, c, u, d); }
    if u != "" { NotInBlank(s, c, u, d, a, t, b); }
    assert t == s[|a|..|s| - |b|] && u == s[|c|..|s| - |d|];
  }

  lemma NotInBlank(s: string, a: string, t: string, b: string, c: string, u: string, d: string)
    requires TrimmedBy(s, a, t, b) && TrimmedBy(s, c, u, d) && t != ""
    ensures u != "" && |c| <= |a| && |d| <= |b|
  {
    var first, last := |a|, |a| + |t| - 1;
    assert s[first] == t[0] && s[last] == t[|t| - 1];
    forall i | 0 <= i < |c| ensures White(s[i]) {
      assert s[i] == c[i] && c[i] in c;
    }
    forall i | |c| + |u| <= i < |s| ensures White(s[i]) {
      assert s[i] == d[i - |c| - |u|] && d[i - |c| - |u|] in d;
    }
  }

  /** The part of `s` before the first `c`, all of it where there is none. */
  function UpTo(s: string, c: char): string {
    if s == "" || s[0] == c then "" else [s[0]] + UpTo(s[1..], c)
  }

  lemma {:induction false} UpToIs(s: string, c: char)
    ensures var t := UpTo(s, c); t <= s && c !in t && (|t| < |s| ==> s[|t|] == c)
  {
    if s != "" && s[0] != c { UpToIs(s[1..], c); }
  }

  lemma LoweredOnce(s: string, a: string, b: string)
    requires Lowered(s, a) && Lowered(s, b)
    ensures a == b
  {
    forall i | 0 <= i < |s| ensures a[i] == b[i] {
      assert a[i] as int == b[i] as int;
    }
  }
}
