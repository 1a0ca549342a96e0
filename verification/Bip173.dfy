/** The first address of section "Examples" of BIP-173, as the model computes it. */
module Bip173 {
  import opened SymbolRegister
  import opened Checksum
  import opened Address

  /** Prefix "bc" expanded, witness version and program in three pieces, checksum. */
  const EXPANDED: seq<bv8> := [3, 3, 0, 2, 3]
  const PROGRAM1: seq<bv8> := [0, 14, 20, 15, 7, 13, 26, 0, 25, 18, 6]
  const PROGRAM2: seq<bv8> := [11, 13, 8, 21, 4, 20, 3, 17, 2, 29, 3]
  const PROGRAM3: seq<bv8> := [12, 29, 3, 4, 15, 24, 20, 6, 14, 30, 22]
  const CHECK: seq<bv8> := [12, 7, 9, 17, 11, 21]

  function With(x: bv32, chk: bv32, bit: bv32, generator: bv32): bv32 {
    if chk & bit != 0 then x ^ generator else x
  }

  /** One value, with the generators of the standard, each behind its bit. */
  function Taken(chk: bv32, v: bv8): bv32 {
    With(With(With(With(With(((chk & 0x1ffffff) << 5) ^ (v as bv32),
      chk, 0x200_0000, 0x3b6a57b2), chk, 0x400_0000, 0x26508e6d), chk, 0x800_0000, 0x1ea119fa),
      chk, 0x1000_0000, 0x3d4233dd), chk, 0x2000_0000, 0x2a1462b3)
  }

  lemma MixWith0(chk: bv32, v: bv8, before: bv32)
    requires Mixed(chk, v, 0) == before
    ensures Mixed(chk, v, 1) == With(before, chk, 0x200_0000, 0x3b6a57b2)
  {
    MixIs(before, chk >> 25, 0);
    assert (chk >> 25) & 1 != 0 <==> chk & 0x200_0000 != 0;
  }

  lemma MixWith1(chk: bv32, v: bv8, before: bv32)
    requires Mixed(chk, v, 1) == before
    ensures Mixed(chk, v, 2) == With(before, chk, 0x400_0000, 0x26508e6d)
  {
    MixIs(before, chk >> 25, 1);
    assert (chk >> 25) & 2 != 0 <==> chk & 0x400_0000 != 0;
  }

  lemma MixWith2(chk: bv32, v: bv8, before: bv32)
    requires Mixed(chk, v, 2) == before
    ensures Mixed(chk, v, 3) == With(before, chk, 0x800_0000, 0x1ea119fa)
  {
    MixIs(before, chk >> 25, 2);
    assert (chk >> 25) & 4 != 0 <==> chk & 0x800_0000 != 0;
  }

  lemma MixWith3(chk: bv32, v: bv8, before: bv32)
    requires Mixed(chk, v, 3) == before
    ensures Mixed(chk, v, 4) == With(before, chk, 0x1000_0000, 0x3d4233dd)
  {
    MixIs(before, chk >> 25, 3);
    assert (chk >> 25) & 8 != 0 <==> chk & 0x1000_0000 != 0;
  }

  lemma MixWith4(chk: bv32, v: bv8, before: bv32)
    requires Mixed(chk, v, 4) == before
    ensures Mixed(chk, v, 5) == With(before, chk, 0x2000_0000, 0x2a1462b3)
  {
    MixIs(before, chk >> 25, 4);
    assert (chk >> 25) & 16 != 0 <==> chk & 0x2000_0000 != 0;
  }

  lemma AbsorbIsTaken(chk: bv32, v: bv8)
    ensures Absorb(chk, v) == Taken(chk, v)
  {
    MixWith0(chk, v, Mixed(chk, v, 0));
    MixWith1(chk, v, Mixed(chk, v, 1));
    MixWith2(chk, v, Mixed(chk, v, 2));
    MixWith3(chk, v, Mixed(chk, v, 3));
    MixWith4(chk, v, Mixed(chk, v, 4));
  }

  /** The registers that `reaches` holds of follow one another along the values. */
  ghost predicate Follows(reaches: (nat, bv32) -> bool, vs: seq<bv8>, a: nat, b: nat) {
    forall k: nat, chk: bv32 :: a <= k < b && k < |vs| && reaches(k, chk) ==> reaches(k + 1, Taken(chk, vs[k]))
  }

  lemma TableExpanded()
    ensures Taken(0x1, 3) == 0x23
    ensures Taken(0x23, 3) == 0x463
    ensures Taken(0x463, 0) == 0x8c60
    ensures Taken(0x8c60, 2) == 0x118c02
    ensures Taken(0x118c02, 3) == 0x2318043
  {
  }

  lemma OverExpanded(reaches: (nat, bv32) -> bool, vs: seq<bv8>)
    requires vs == EXPANDED && Follows(reaches, vs, 0, 5) && reaches(0, 0x1)
    ensures reaches(5, 0x2318043)
  {
    TableExpanded();
    assert vs[0] in vs && reaches(1, 0x23);
    assert vs[1] in vs && reaches(2, 0x463);
    assert vs[2] in vs && reaches(3, 0x8c60);
    assert vs[3] in vs && reaches(4, 0x118c02);
    assert vs[4] in vs && reaches(5, 0x2318043);
  }

  lemma TableProgram1()
    ensures Taken(0x2318043, 0) == 0x3d5a5fd2
    ensures Taken(0x3d5a5fd2, 14) == 0x4ec3cb7
    ensures Taken(0x4ec3cb7, 20) == 0x3bd71899
    ensures Taken(0x3bd71899, 15) == 0x87e0c09
    ensures Taken(0x87e0c09, 7) == 0x116098dd
    ensures Taken(0x116098dd, 13) == 0x11512870
    ensures Taken(0x11512870, 26) == 0x17673dc7
    ensures Taken(0x17673dc7, 0) == 0xc9f52e2
    ensures Taken(0xc9f52e2, 25) == 0x2b1bcbce
    ensures Taken(0x2b1bcbce, 18) == 0x2ca65529
    ensures Taken(0x2ca65529, 6) == 0x62f5002
  {
  }

  lemma OverProgram1A(reaches: (nat, bv32) -> bool, vs: seq<bv8>)
    requires vs == PROGRAM1 && Follows(reaches, vs, 0, 4) && reaches(0, 0x2318043)
    ensures reaches(4, 0x87e0c09)
  {
    TableProgram1();
    assert vs[0] in vs && reaches(1, 0x3d5a5fd2);
    assert vs[1] in vs && reaches(2, 0x4ec3cb7);
    assert vs[2] in vs && reaches(3, 0x3bd71899);
    assert vs[3] in vs && reaches(4, 0x87e0c09);
  }

  lemma OverProgram1B(reaches: (nat, bv32) -> bool, vs: seq<bv8>)
    requires vs == PROGRAM1 && Follows(reaches, vs, 4, 8) && reaches(4, 0x87e0c09)
    ensures reaches(8, 0xc9f52e2)
  {
    TableProgram1();
    assert vs[4] in vs && reaches(5, 0x116098dd);
    assert vs[5] in vs && reaches(6, 0x11512870);
    assert vs[6] in vs && reaches(7, 0x17673dc7);
    assert vs[7] in vs && reaches(8, 0xc9f52e2);
  }

  lemma OverProgram1C(reaches: (nat, bv32) -> bool, vs: seq<bv8>)
    requires vs == PROGRAM1 && Follows(reaches, vs, 8, 11) && reaches(8, 0xc9f52e2)
    ensures reaches(11, 0x62f5002)
  {
    TableProgram1();
    assert vs[8] in vs && reaches(9, 0x2b1bcbce);
    assert vs[9] in vs && reaches(10, 0x2ca65529);
    assert vs[10] in vs && reaches(11, 0x62f5002);
  }

  lemma TableProgram2()
    ensures Taken(0x62f5002, 11) == 0x18d0d994
    ensures Taken(0x18d0d994, 13) == 0x39f818aa
    ensures Taken(0x39f818aa, 8) == 0x36f45ddc
    ensures Taken(0x36f45ddc, 21) == 0x14e73324
    ensures Taken(0x14e73324, 4) == 0x7f4d934
    ensures Taken(0x7f4d934, 20) == 0x23a1ff4b
    ensures Taken(0x23a1ff4b, 3) == 0x2541dc62
    ensures Taken(0x2541dc62, 17) == 0x247f608f
    ensures Taken(0x247f608f, 2) == 0x3a8fd3c
    ensures Taken(0x3a8fd3c, 29) == 0xe75f02f
    ensures Taken(0xe75f02f, 3) == 0xd25c5c6
  {
  }

  lemma OverProgram2A(reaches: (nat, bv32) -> bool, vs: seq<bv8>)
    requires vs == PROGRAM2 && Follows(reaches, vs, 0, 4) && reaches(0, 0x62f5002)
    ensures reaches(4, 0x14e73324)
  {
    TableProgram2();
    assert vs[0] in vs && reaches(1, 0x18d0d994);
    assert vs[1] in vs && reaches(2, 0x39f818aa);
    assert vs[2] in vs && reaches(3, 0x36f45ddc);
    assert vs[3] in vs && reaches(4, 0x14e73324);
  }

  lemma OverProgram2B(reaches: (nat, bv32) -> bool, vs: seq<bv8>)
    requires vs == PROGRAM2 && Follows(reaches, vs, 4, 8) && reaches(4, 0x14e73324)
    ensures reaches(8, 0x247f608f)
  {
    TableProgram2();
    assert vs[4] in vs && reaches(5, 0x7f4d934);
    assert vs[5] in vs && reaches(6, 0x23a1ff4b);
    assert vs[6] in vs && reaches(7, 0x2541dc62);
    assert vs[7] in vs && reaches(8, 0x247f608f);
  }

  lemma OverProgram2C(reaches: (nat, bv32) -> bool, vs: seq<bv8>)
    requires vs == PROGRAM2 && Follows(reaches, vs, 8, 11) && reaches(8, 0x247f608f)
    ensures reaches(11, 0xd25c5c6)
  {
    TableProgram2();
    assert vs[8] in vs && reaches(9, 0x3a8fd3c);
    assert vs[9] in vs && reaches(10, 0xe75f02f);
    assert vs[10] in vs && reaches(11, 0xd25c5c6);
  }

  lemma TableProgram3()
    ensures Taken(0xd25c5c6, 12) == 0x1c492f5b
    ensures Taken(0x1c492f5b, 29) == 0xc964f37
    ensures Taken(0xc964f37, 3) == 0x2a387174
    ensures Taken(0x2a387174, 4) == 0x8d1027f
    ensures Taken(0x8d1027f, 15) == 0x4815615
    ensures Taken(0x4815615, 24) == 0x367a4cd5
    ensures Taken(0x367a4cd5, 20) == 0x5251205
    ensures Taken(0x5251205, 6) == 0x2f2cecb
    ensures Taken(0x2f2cecb, 14) == 0x25338edc
    ensures Taken(0x25338edc, 30) == 0x2a353740
    ensures Taken(0x2a353740, 22) == 0x979c4ed
  {
  }

  lemma OverProgram3A(reaches: (nat, bv32) -> bool, vs: seq<bv8>)
    requires vs == PROGRAM3 && Follows(reaches, vs, 0, 4) && reaches(0, 0xd25c5c6)
    ensures reaches(4, 0x8d1027f)
  {
    TableProgram3();
    assert vs[0] in vs && reaches(1, 0x1c492f5b);
    assert vs[1] in vs && reaches(2, 0xc964f37);
    assert vs[2] in vs && reaches(3, 0x2a387174);
    assert vs[3] in vs && reaches(4, 0x8d1027f);
  }

  lemma OverProgram3B(reaches: (nat, bv32) -> bool, vs: seq<bv8>)
    requires vs == PROGRAM3 && Follows(reaches, vs, 4, 8) && reaches(4, 0x8d1027f)
    ensures reaches(8, 0x2f2cecb)
  {
    TableProgram3();
    assert vs[4] in vs && reaches(5, 0x4815615);
    assert vs[5] in vs && reaches(6, 0x367a4cd5);
    assert vs[6] in vs && reaches(7, 0x5251205);
    assert vs[7] in vs && reaches(8, 0x2f2cecb);
  }

  lemma OverProgram3C(reaches: (nat, bv32) -> bool, vs: seq<bv8>)
    requires vs == PROGRAM3 && Follows(reaches, vs, 8, 11) && reaches(8, 0x2f2cecb)
    ensures reaches(11, 0x979c4ed)
  {
    TableProgram3();
    assert vs[8] in vs && reaches(9, 0x25338edc);
    assert vs[9] in vs && reaches(10, 0x2a353740);
    assert vs[10] in vs && reaches(11, 0x979c4ed);
  }

  lemma TableCheck()
    ensures Taken(0x979c4ed, 12) == 0x31998456
    ensures Taken(0x31998456, 7) == 0x2466dba9
    ensures Taken(0x2466dba9, 9) == 0x9f99f7
    ensures Taken(0x9f99f7, 17) == 0x13f33ef1
    ensures Taken(0x13f33ef1, 11) == 0x384fba44
    ensures Taken(0x384fba44, 21) == 0x1
  {
  }

  lemma OverCheck(reaches: (nat, bv32) -> bool, vs: seq<bv8>)
    requires vs == CHECK && Follows(reaches, vs, 0, 6) && reaches(0, 0x979c4ed)
    ensures reaches(6, 0x1)
  {
    TableCheck();
    assert vs[0] in vs && reaches(1, 0x31998456);
    assert vs[1] in vs && reaches(2, 0x2466dba9);
    assert vs[2] in vs && reaches(3, 0x9f99f7);
    assert vs[3] in vs && reaches(4, 0x13f33ef1);
    assert vs[4] in vs && reaches(5, 0x384fba44);
    assert vs[5] in vs && reaches(6, 0x1);
  }

  function ReachesIn(start: bv32, vs: seq<bv8>): (nat, bv32) -> bool {
    (k: nat, chk: bv32) => k <= |vs| && Run(Bch(), start, vs[..k]) == chk
  }

  lemma RunFollows(start: bv32, vs: seq<bv8>)
    ensures Follows(ReachesIn(start, vs), vs, 0, |vs|) && ReachesIn(start, vs)(0, start)
  {
    forall k: nat, chk: bv32 | k < |vs| && ReachesIn(start, vs)(k, chk) ensures ReachesIn(start, vs)(k + 1, Taken(chk, vs[k])) {
      RunMore(Bch(), start, vs[..k], vs[k]);
      assert vs[..k + 1] == vs[..k] + [vs[k]];
      AbsorbIsTaken(chk, vs[k]);
    }
    assert vs[..0] == [];
  }

  lemma RunExpanded(vs: seq<bv8>)
    requires vs == EXPANDED
    ensures Run(Bch(), 0x1, vs) == 0x2318043
  {
    RunFollows(0x1, vs);
    OverExpanded(ReachesIn(0x1, vs), vs);
    assert vs[..5] == vs;
  }

  lemma RunProgram1(vs: seq<bv8>)
    requires vs == PROGRAM1
    ensures Run(Bch(), 0x2318043, vs) == 0x62f5002
  {
    RunFollows(0x2318043, vs);
    OverProgram1A(ReachesIn(0x2318043, vs), vs);
    OverProgram1B(ReachesIn(0x2318043, vs), vs);
    OverProgram1C(ReachesIn(0x2318043, vs), vs);
    assert vs[..11] == vs;
  }

  lemma RunProgram2(vs: seq<bv8>)
    requires vs == PROGRAM2
    ensures Run(Bch(), 0x62f5002, vs) == 0xd25c5c6
  {
    RunFollows(0x62f5002, vs);
    OverProgram2A(ReachesIn(0x62f5002, vs), vs);
    OverProgram2B(ReachesIn(0x62f5002, vs), vs);
    OverProgram2C(ReachesIn(0x62f5002, vs), vs);
    assert vs[..11] == vs;
  }

  lemma RunProgram3(vs: seq<bv8>)
    requires vs == PROGRAM3
    ensures Run(Bch(), 0xd25c5c6, vs) == 0x979c4ed
  {
    RunFollows(0xd25c5c6, vs);
    OverProgram3A(ReachesIn(0xd25c5c6, vs), vs);
    OverProgram3B(ReachesIn(0xd25c5c6, vs), vs);
    OverProgram3C(ReachesIn(0xd25c5c6, vs), vs);
    assert vs[..11] == vs;
  }

  lemma RunCheck(vs: seq<bv8>)
    requires vs == CHECK
    ensures Run(Bch(), 0x979c4ed, vs) == 0x1
  {
    RunFollows(0x979c4ed, vs);
    OverCheck(ReachesIn(0x979c4ed, vs), vs);
    assert vs[..6] == vs;
  }

  /** The example's polymod is 1. */
  lemma ExampleVerifies(e: seq<bv8>, p: seq<bv8>, q: seq<bv8>, r: seq<bv8>, c: seq<bv8>)
    requires e == EXPANDED && p == PROGRAM1 && q == PROGRAM2 && r == PROGRAM3 && c == CHECK
    ensures Polymod(e + (p + q + r) + c) == 1
  {
    RunExpanded(e);
    RunProgram1(p);
    RunProgram2(q);
    RunProgram3(r);
    RunCheck(c);
    InPieces(Bch(), 1, e, p, q, r, c);
  }

  lemma InPieces(m: Machine<bv32>, x: bv32, e: seq<bv8>, p: seq<bv8>, q: seq<bv8>, r: seq<bv8>, c: seq<bv8>)
    ensures Run(m, x, e + (p + q + r) + c) == Run(m, Run(m, Run(m, Run(m, Run(m, x, e), p), q), r), c)
  {
    RunSplits(m, x, e + (p + q + r), c);
    RunSplits(m, x, e, p + q + r);
    RunSplits(m, Run(m, x, e), p + q, r);
    RunSplits(m, Run(m, x, e), p, q);
  }

  /** So the checksum the code computes for that prefix and data is the published one. */
  lemma ExampleChecksum(hrp: seq<bv8>, data: seq<bv8>)
    requires hrp == [98, 99] && data == PROGRAM1 + PROGRAM2 + PROGRAM3
    ensures CheckSymbols(hrp, data) == CHECK
  {
    var e, p, q, r, c := HrpExpand(hrp), PROGRAM1, PROGRAM2, PROGRAM3, CHECK;
    ExampleExpands(hrp);
    ExampleVerifies(e, p, q, r, c);
    ExampleIsSymbols(p, q, r, c);
    ChecksumIsTheOnlyOne(hrp, data, c);
  }

  lemma ExampleExpands(hrp: seq<bv8>)
    requires hrp == [98, 99]
    ensures HrpExpand(hrp) == EXPANDED
  {
    assert HighBits(98) == 3 && HighBits(99) == 3 && LowBits(98) == 2 && LowBits(99) == 3;
  }

  lemma ExampleIsSymbols(p: seq<bv8>, q: seq<bv8>, r: seq<bv8>, c: seq<bv8>)
    requires p == PROGRAM1 && q == PROGRAM2 && r == PROGRAM3 && c == CHECK
    ensures Symbols(p + q + r) && Symbols(c) && |c| == SIX
  {
    assert Symbols(p) && Symbols(q) && Symbols(r);
  }

  /** And spelt out, with its separator and prefix, it is the published address. */
  lemma ExampleIsPublished(hrp: string, data: seq<bv8>)
    requires hrp == "bc" && data == PROGRAM1 + PROGRAM2 + PROGRAM3
    ensures Bytes(hrp)
    ensures hrp + "1" + Spelt(data) + Spelt(CheckSymbols(BytesOf(hrp), data)) ==
      hrp + "1" + ("qw508d6qejx" + "tdg4y5r3zar" + "vary0c5xw7k") + "v8f3t4"
  {
    BytesOfPrefix(hrp);
    ExampleChecksum(BytesOf(hrp), data);
    SpeltPieces(PROGRAM1, PROGRAM2, PROGRAM3, CHECK);
  }

  lemma BytesOfPrefix(s: string)
    requires s == "bc"
    ensures Bytes(s) && BytesOf(s) == [98, 99]
  {
  }

  lemma SpeltPieces(p: seq<bv8>, q: seq<bv8>, r: seq<bv8>, c: seq<bv8>)
    requires p == PROGRAM1 && q == PROGRAM2 && r == PROGRAM3 && c == CHECK
    ensures Spelt(p + q + r) == "qw508d6qejx" + "tdg4y5r3zar" + "vary0c5xw7k" && Spelt(c) == "v8f3t4"
  {
    Spelt1(p);
    Spelt2(q);
    Spelt3(r);
    Spelt4(c);
    assert Spelt(p + q + r) == Spelt(p) + Spelt(q) + Spelt(r);
  }

  lemma Spelt1(p: seq<bv8>)
    requires p == PROGRAM1
    ensures Spelt(p) == "qw508d6qejx"
  {
  }

  lemma Spelt2(p: seq<bv8>)
    requires p == PROGRAM2
    ensures Spelt(p) == "tdg4y5r3zar"
  {
  }

  lemma Spelt3(p: seq<bv8>)
    requires p == PROGRAM3
    ensures Spelt(p) == "vary0c5xw7k"
  {
  }

  lemma Spelt4(p: seq<bv8>)
    requires p == CHECK
    ensures Spelt(p) == "v8f3t4"
  {
  }

  /** The standard's table of letters, row by row: the row adds 0, 8, 16 or 24 to the column. */
  function TableRow(row: nat): string {
    match row
    case 0 => "qpzry9x8"
    case 1 => "gf2tvdw0"
    case 2 => "s3jn54kh"
    case _ => "ce6mua7l"
  }

  lemma Table()
    ensures CHARSET == TableRow(0) + TableRow(1) + TableRow(2) + TableRow(3)
    ensures |TableRow(0)| == |TableRow(1)| == |TableRow(2)| == |TableRow(3)| == 8
  {
  }

  lemma InRows(a: string, b: string, c: string, d: string, row: nat, column: nat)
    requires row < 4 && column < 8 && |a| == |b| == |c| == |d| == 8
    ensures (a + b + c + d)[8 * row + column] == (if row == 0 then a else if row == 1 then b else if row == 2 then c else d)[column]
  {
  }

  lemma LetterAt(v: bv8, k: nat)
    requires v as int == k < |CHARSET|
    ensures Letter(v) == CHARSET[k]
  {
  }

  /** Each of the 32 letters is the one in the table. */
  lemma LettersAreTabled(v: bv8, row: nat, column: nat)
    requires row < 4 && column < 8 && v as int == 8 * row + column
    ensures |TableRow(row)| == 8 && Letter(v) == TableRow(row)[column]
  {
    Table();
    InRows(TableRow(0), TableRow(1), TableRow(2), TableRow(3), row, column);
    LetterAt(v, 8 * row + column);
  }
}
