/** Addresses: a prefix, a separator, and the data and its checksum spelt in the Bech32 character set. */
module Address {
  import opened SymbolRegister
  import opened Checksum
  import opened Regroup

  const CHARSET := "qpzry9x8gf2tvdw0s3jn54khce6mua7l"

  function Number(v: bv8): int { v as int }

  lemma NumberIsOneToOne(u: bv8, v: bv8)
    ensures 0 <= Number(u) < 256 && (Number(u) == Number(v) <==> u == v)
    ensures u < 32 <==> Number(u) < 32
  {
  }

  function Narrow(g: int): (v: bv8)
    requires 0 <= g < 32
  {
    g as bv8
  }

  lemma NarrowKeeps(g: int)
    requires 0 <= g < 32
    ensures Narrow(g) < 32 && Number(Narrow(g)) == g
  {
  }

  /** The groups as symbols, and back. */
  function SymbolsFrom(groups: seq<int>): (r: seq<bv8>)
    requires Digits(groups, Five)
    ensures |r| == |groups|
  {
    seq(|groups|, i requires 0 <= i < |groups| => Narrow(groups[i]))
  }

  function GroupsFrom(vs: seq<bv8>): (r: seq<int>)
    ensures |r| == |vs|
  {
    seq(|vs|, i requires 0 <= i < |vs| => Number(vs[i]))
  }

  lemma SymbolsFromKeep(groups: seq<int>)
    requires Digits(groups, Five)
    ensures Symbols(SymbolsFrom(groups)) && GroupsFrom(SymbolsFrom(groups)) == groups
  {
    forall i | 0 <= i < |groups| ensures SymbolsFrom(groups)[i] < 32 && Number(SymbolsFrom(groups)[i]) == groups[i] {
      NarrowKeeps(groups[i]);
    }
  }

  /** A prefix is a string of bytes. */
  predicate Bytes(s: string) {
    forall i :: 0 <= i < |s| ==> s[i] as int < 256
  }

  function Byte(c: char): bv8
    requires c as int < 256
  {
    (c as int) as bv8
  }

  function BytesOf(s: string): (r: seq<bv8>)
    requires Bytes(s)
    ensures |r| == |s|
  {
    seq(|s|, i requires 0 <= i < |s| => Byte(s[i]))
  }

  function Letter(v: bv8): char {
    if 0 <= Number(v) < |CHARSET| then CHARSET[Number(v)] else '?'
  }

  function Spelt(vs: seq<bv8>): (r: string)
    ensures |r| == |vs|
  {
    seq(|vs|, i requires 0 <= i < |vs| => Letter(vs[i]))
  }

  function Payload(data: seq<int>): seq<bv8>
    requires Digits(data, Eight)
  {
    GroupsSpellTheBytes(data);
    SymbolsFrom(Groups(data))
  }

  function AddressOf(hrp: string, data: seq<int>): string
    requires Bytes(hrp) && Digits(data, Eight)
  {
    hrp + "1" + Spelt(Payload(data)) + Spelt(CheckSymbols(BytesOf(hrp), Payload(data)))
  }

  /** What stands after the separator: data and checksum. */
  function Body(hrp: string, data: seq<int>): seq<bv8>
    requires Bytes(hrp) && Digits(data, Eight)
  {
    Payload(data) + CheckSymbols(BytesOf(hrp), Payload(data))
  }

  /** The body of an address verifies behind its prefix, on the plain reading of the prefix. */
  lemma AnyExpansion(hrp: string, data: seq<int>)
    requires Bytes(hrp) && Digits(data, Eight)
    ensures forall e :: IsExpansion(BytesOf(hrp), e) ==> Polymod(e + Body(hrp, data)) == 1
  {
    BodyIsSpelt(hrp, data);
    forall e | IsExpansion(BytesOf(hrp), e) ensures Polymod(e + Body(hrp, data)) == 1 {
      HrpExpandIsExpansion(BytesOf(hrp), e);
    }
  }

  /** `encode`. */
  method Encode(hrp: string, data: seq<int>) returns (text: string)
    requires Bytes(hrp) && Digits(data, Eight)
    ensures text == AddressOf(hrp, data) == hrp + "1" + Spelt(Body(hrp, data))
    ensures forall e :: IsExpansion(BytesOf(hrp), e) ==> Polymod(e + Body(hrp, data)) == 1
  {
    BodyIsSpelt(hrp, data);
    AnyExpansion(hrp, data);
    GroupsSpellTheBytes(data);
    var groups := ConvertBits(data);
    var conv := SymbolsFrom(groups);
    SymbolsFromKeep(groups);
    var sum := ComputeChecksum(BytesOf(hrp), conv);
    text := hrp + "1";
    text := WriteLetters(text, conv);
    text := WriteLetters(text, sum);
  }

  method WriteLetters(before: string, vs: seq<bv8>) returns (text: string)
    ensures text == before + Spelt(vs)
  {
    text := before;
    for i := 0 to |vs|
      invariant text == before + Spelt(vs)[..i]
    {
      text := text + [Letter(vs[i])];
    }
  }

  /** Where a letter stands in the character set. */
  function Place(c: char): int {
    if c == 'q' then 0 else if c == 'p' then 1 else if c == 'z' then 2 else if c == 'r' then 3
    else if c == 'y' then 4 else if c == '9' then 5 else if c == 'x' then 6 else if c == '8' then 7
    else if c == 'g' then 8 else if c == 'f' then 9 else if c == '2' then 10 else if c == 't' then 11
    else if c == 'v' then 12 else if c == 'd' then 13 else if c == 'w' then 14 else if c == '0' then 15
    else if c == 's' then 16 else if c == '3' then 17 else if c == 'j' then 18 else if c == 'n' then 19
    else if c == '5' then 20 else if c == '4' then 21 else if c == 'k' then 22 else if c == 'h' then 23
    else if c == 'c' then 24 else if c == 'e' then 25 else if c == '6' then 26 else if c == 'm' then 27
    else if c == 'u' then 28 else if c == 'a' then 29 else if c == '7' then 30 else if c == 'l' then 31
    else -1
  }

  lemma PlaceOf(k: int)
    requires 0 <= k < 32
    ensures |CHARSET| == 32 && Place(CHARSET[k]) == k
  {
  }

  lemma LettersTellApart(u: bv8, v: bv8)
    requires u < 32 && v < 32
    ensures Letter(u) != '1' && (Letter(u) == Letter(v) ==> u == v)
  {
    NumberIsOneToOne(u, v);
    NumberIsOneToOne(v, u);
    PlaceOf(Number(u));
    PlaceOf(Number(v));
    assert Place('1') == -1;
  }

  lemma SpeltTellsApart(us: seq<bv8>, vs: seq<bv8>)
    requires Symbols(us) && Symbols(vs) && Spelt(us) == Spelt(vs)
    ensures us == vs
  {
    assert |us| == |Spelt(us)| == |vs|;
    forall i | 0 <= i < |us| ensures us[i] == vs[i] {
      assert Spelt(us)[i] == Spelt(vs)[i];
      LettersTellApart(us[i], vs[i]);
    }
  }

  /** A reader of the characters after the separator finds a body that verifies, and its bytes in it. */
  lemma AddressReadsBack(hrp: string, data: seq<int>, vs: seq<bv8>)
    requires Bytes(hrp) && Digits(data, Eight) && Symbols(vs)
    requires AddressOf(hrp, data) == hrp + "1" + Spelt(vs)
    ensures Polymod(HrpExpand(BytesOf(hrp)) + vs) == 1
    ensures |vs| >= SIX && Ungrouped(GroupsFrom(vs[..|vs| - SIX]), |data|) == data
  {
    BodyIsSpelt(hrp, data);
    var b := Body(hrp, data);
    assert Spelt(vs) == AddressOf(hrp, data)[|hrp| + 1..] == Spelt(b);
    SpeltTellsApart(vs, b);
    BodyHoldsTheBytes(data, b, CheckSymbols(BytesOf(hrp), Payload(data)));
  }

  lemma BodyHoldsTheBytes(data: seq<int>, b: seq<bv8>, c: seq<bv8>)
    requires Digits(data, Eight) && |c| == SIX && b == Payload(data) + c
    ensures Ungrouped(GroupsFrom(b[..|b| - SIX]), |data|) == data
  {
    assert b[..|b| - SIX] == Payload(data);
    GroupsSpellTheBytes(data);
    SymbolsFromKeep(Groups(data));
    RegroupingRoundTrips(data);
  }

  lemma BodyIsSpelt(hrp: string, data: seq<int>)
    requires Bytes(hrp) && Digits(data, Eight)
    ensures Symbols(Body(hrp, data)) && AddressOf(hrp, data) == hrp + "1" + Spelt(Body(hrp, data))
    ensures Polymod(HrpExpand(BytesOf(hrp)) + Body(hrp, data)) == 1
  {
    GroupsSpellTheBytes(data);
    SymbolsFromKeep(Groups(data));
    BodyOf(hrp, HrpExpand(BytesOf(hrp)), Payload(data), CheckSymbols(BytesOf(hrp), Payload(data)));
    ChecksumVerifies(BytesOf(hrp), Payload(data));
  }

  lemma BodyOf(hrp: string, e: seq<bv8>, p: seq<bv8>, c: seq<bv8>)
    ensures hrp + "1" + Spelt(p) + Spelt(c) == hrp + "1" + Spelt(p + c) && e + p + c == e + (p + c)
  {
    assert Spelt(p + c) == Spelt(p) + Spelt(c);
  }

  /** Different bytes or prefixes never share an address: not two lengths of data, not two prefixes. */
  lemma AddressesAreOneToOne(hrp: string, data: seq<int>, hrp': string, data': seq<int>)
    requires Bytes(hrp) && Digits(data, Eight) && Bytes(hrp') && Digits(data', Eight)
    requires AddressOf(hrp, data) == AddressOf(hrp', data')
    ensures hrp == hrp' && data == data'
  {
    BodyIsSpelt(hrp, data);
    BodyIsSpelt(hrp', data');
    SamePrefix(hrp, Body(hrp, data), hrp', Body(hrp', data'));
    AddressReadsBack(hrp, data, Body(hrp, data));
    AddressReadsBack(hrp, data', Body(hrp, data'));
    SameLength(data, data');
  }

  /** Texts of this shape that are equal have the same prefix and the same body. */
  lemma SamePrefix(h: string, vs: seq<bv8>, h': string, vs': seq<bv8>)
    requires Symbols(vs) && Symbols(vs') && h + "1" + Spelt(vs) == h' + "1" + Spelt(vs')
    ensures h == h' && vs == vs'
  {
    LastSeparator(h, vs, h', vs');
    LastSeparator(h', vs', h, vs);
    var t := h + "1" + Spelt(vs);
    assert h == t[..|h|] == h';
    assert Spelt(vs) == t[|h| + 1..] == Spelt(vs');
    SpeltTellsApart(vs, vs');
  }

  /** The separator is the last '1': no letter after it is one. */
  lemma LastSeparator(h: string, vs: seq<bv8>, h': string, vs': seq<bv8>)
    requires Symbols(vs) && h + "1" + Spelt(vs) == h' + "1" + Spelt(vs')
    ensures |h| >= |h'|
  {
    if |h| < |h'| {
      SeparatorAt(h', vs');
      NoSeparatorAfter(h, vs, |h'|);
    }
  }

  lemma SeparatorAt(h: string, vs: seq<bv8>)
    ensures (h + "1" + Spelt(vs))[|h|] == '1'
  {
  }

  lemma NoSeparatorAfter(h: string, vs: seq<bv8>, k: nat)
    requires Symbols(vs) && |h| < k < |h| + 1 + |vs|
    ensures (h + "1" + Spelt(vs))[k] != '1'
  {
    var i := k - |h| - 1;
    LettersTellApart(vs[i], vs[i]);
  }

  lemma SameLength(a: seq<int>, b: seq<int>)
    requires Digits(a, Eight) && Digits(b, Eight) && |Payload(a)| == |Payload(b)|
    ensures |a| == |b|
  {
    GroupsSpellTheBytes(a);
    GroupsSpellTheBytes(b);
  }

  /** An address with one letter replaced by another of the character set never verifies. */
  lemma OneWrongLetterShows(hrp: string, data: seq<int>, i: nat, w: bv8)
    requires Bytes(hrp) && Digits(data, Eight) && i < |Body(hrp, data)| && w < 32 && w != Body(hrp, data)[i]
    ensures Polymod(HrpExpand(BytesOf(hrp)) + Body(hrp, data)[i := w]) != 1
  {
    BodyIsSpelt(hrp, data);
    HrpExpandIsSymbols(BytesOf(hrp));
    WrongSymbolBehind(HrpExpand(BytesOf(hrp)), Body(hrp, data), i, w);
  }

  lemma WrongSymbolBehind(e: seq<bv8>, b: seq<bv8>, i: nat, w: bv8)
    requires Symbols(e) && Symbols(b) && i < |b| && w < 32 && w != b[i]
    ensures Polymod(e + b[i := w]) != Polymod(e + b)
  {
    assert e + b[i := w] == (e + b)[|e| + i := w];
    OneWrongSymbolShows(e + b, |e| + i, w);
  }
}
