/** The cache key: path, canonical query and encoding, and what two requests that share one have in common. */
module CacheKey {
  import opened Base
  import opened Strings

  /** A query parameter, decoded. */
  datatype Param = Param(key: string, value: string)

  datatype Request = Request(escapedPath: string, rawQuery: string, gzip: bool)

  const TRACKING := {
    "fbclid", "gclid", "mc_cid", "mc_eid", "igshid", "msclkid", "twclid", "yclid",
    "ref_src", "ref_url", "_ga", "_gl"}

  predicate IsTracking(key: string) {
    key in TRACKING || (|key| >= 4 && key[..4] == "utm_")
  }

  /** Nothing but a click's own parameters is left out of a key. */
  lemma TrackingIsAboutClicks(key: string)
    ensures IsTracking(key) <==>
      "utm_" <= key
      || key in {"fbclid", "gclid", "yclid", "twclid", "msclkid", "igshid"} || key in {"mc_cid", "mc_eid"}
      || key in {"ref_src", "ref_url"} || key in {"_ga", "_gl"}
  {
  }

  // Percent encoding, as net/url does it for query components.

  predicate Unreserved(c: char) {
    'a' <= c <= 'z' || 'A' <= c <= 'Z' || '0' <= c <= '9' || c == '-' || c == '_' || c == '.' || c == '~'
  }

  predicate Bytes(s: string) {
    forall i :: 0 <= i < |s| ==> s[i] as int < 256
  }

  function HexDigit(n: int): char
    requires 0 <= n < 16
  {
    "0123456789ABCDEF"[n]
  }

  function HexValue(c: char): Option<int> {
    if '0' <= c <= '9' then Some(c as int - '0' as int)
    else if 'a' <= c <= 'f' then Some(c as int - 'a' as int + 10)
    else if 'A' <= c <= 'F' then Some(c as int - 'A' as int + 10)
    else None
  }

  /** A byte's escape; a char that is no byte has none and stays. */
  function EscapeChar(c: char): string {
    if Unreserved(c) || c as int >= 256 then [c]
    else if c == ' ' then "+"
    else ['%', HexDigit(c as int / 16), HexDigit(c as int % 16)]
  }

  function Escape(s: string): string {
    if s == "" then "" else EscapeChar(s[0]) + Escape(s[1..])
  }

  /** `QueryUnescape`: None where an escape is malformed. */
  function Unescape(s: string): Option<string> {
    if s == "" then Some("")
    else if s[0] == '%' then
      if |s| < 3 || HexValue(s[1]).None? || HexValue(s[2]).None? then None
      else
        match Unescape(s[3..])
        case None => None
        case Some(rest) => Some([(HexValue(s[1]).value * 16 + HexValue(s[2]).value) as char] + rest)
    else
      match Unescape(s[1..])
      case None => None
      case Some(rest) => Some([if s[0] == '+' then ' ' else s[0]] + rest)
  }

  /** What follows the first `c`, nothing where there is none. */
  function After(s: string, c: char): string {
    if s == "" then "" else if s[0] == c then s[1..] else After(s[1..], c)
  }

  lemma CutShortens(s: string, c: char)
    requires s != ""
    ensures |After(s, c)| < |s|
  {
  }

  /** `ParseQuery`; Err where any pair is malformed. */
  function Parse(raw: string): Result<seq<Param>, ()>
    decreases |raw|
  {
    if raw == "" then Ok([])
    else
      CutShortens(raw, '&');
      var piece := UpTo(raw, '&');
      var rest := Parse(After(raw, '&'));
      if rest.Err? || ';' in piece then Err(())
      else if piece == "" then rest
      else
        var k, v := Unescape(UpTo(piece, '=')), Unescape(After(piece, '='));
        if k.None? || v.None? then Err(()) else Ok([Param(k.value, v.value)] + rest.value)
  }

  // Normalisation.

  function WithoutTracking(ps: seq<Param>): seq<Param> {
    if ps == [] then []
    else (if IsTracking(ps[0].key) then [] else [ps[0]]) + WithoutTracking(ps[1..])
  }

  function Without(ps: seq<Param>, key: string): seq<Param> {
    if ps == [] then []
    else (if ps[0].key == key then [] else [ps[0]]) + Without(ps[1..], key)
  }

  /** The values given for a key, in order. */
  function Values(ps: seq<Param>, key: string): seq<string> {
    if ps == [] then []
    else (if ps[0].key == key then [ps[0].value] else []) + Values(ps[1..], key)
  }

  function First(ps: seq<Param>, key: string): string {
    var vs := Values(ps, key);
    if vs == [] then "" else vs[0]
  }

  /** Inserts before the first parameter with a key not smaller, so parameters of one key keep their order. */
  function Insert(p: Param, ps: seq<Param>): seq<Param> {
    if ps == [] || !Before(ps[0].key, p.key) then [p] + ps
    else [ps[0]] + Insert(p, ps[1..])
  }

  /** `Values.Encode`'s order: by key, each key's values as they were given. */
  function ByKey(ps: seq<Param>): seq<Param> {
    if ps == [] then [] else Insert(ps[0], ByKey(ps[1..]))
  }

  function Kept(ps: seq<Param>): seq<Param> {
    var wanted := WithoutTracking(ps);
    if First(wanted, "network") == "all" then Without(wanted, "network") else wanted
  }

  function EncodePair(p: Param): string {
    Escape(p.key) + "=" + Escape(p.value)
  }

  predicate AllBytes(ps: seq<Param>) {
    forall p :: p in ps ==> Bytes(p.key) && Bytes(p.value)
  }

  function Encode(ps: seq<Param>): string {
    if ps == [] then ""
    else if |ps| == 1 then EncodePair(ps[0])
    else EncodePair(ps[0]) + "&" + Encode(ps[1..])
  }

  /** What a handler reads as the network: none for "all" as for absent. */
  function Network(ps: seq<Param>): string {
    var n := First(ps, "network");
    if n == "all" then "" else n
  }

  /** `canonicalQuery`: what cannot be parsed is left as it is. */
  function Canonical(raw: string): string {
    if raw == "" then ""
    else
      match Parse(raw)
      case Err(_) => raw
      case Ok(ps) => Encode(ByKey(Kept(ps)))
  }

  function Key(r: Request): string {
    var key := r.escapedPath + "?" + Canonical(r.rawQuery);
    if r.gzip then key + "\0gzip" else key
  }

  /** What the HTTP server hands on: an escaped path holds no `?`, and no part of a URL a NUL. */
  predicate FromServer(r: Request) {
    Bytes(r.rawQuery) && '?' !in r.escapedPath && '\0' !in r.escapedPath && '\0' !in r.rawQuery
  }

  // Bytes in, bytes out.

  lemma {:induction false} CutKeepsBytes(s: string, c: char)
    requires Bytes(s)
    ensures Bytes(UpTo(s, c)) && Bytes(After(s, c))
  {
    if s != "" { CutKeepsBytes(s[1..], c); }
  }

  lemma {:induction false} UnescapeKeepsBytes(s: string)
    requires Bytes(s) && Unescape(s).Some?
    ensures Bytes(Unescape(s).value)
  {
    if s != "" { UnescapeKeepsBytes(if s[0] == '%' then s[3..] else s[1..]); }
  }

  lemma {:induction false} ParseKeepsBytes(raw: string)
    requires Bytes(raw) && Parse(raw).Ok?
    ensures AllBytes(Parse(raw).value)
    decreases |raw|
  {
    if raw != "" {
      CutShortens(raw, '&');
      CutKeepsBytes(raw, '&');
      var piece := UpTo(raw, '&');
      ParseKeepsBytes(After(raw, '&'));
      if piece != "" {
        CutKeepsBytes(piece, '=');
        UnescapeKeepsBytes(UpTo(piece, '='));
        UnescapeKeepsBytes(After(piece, '='));
      }
    }
  }

  /** Normalising only drops and reorders parameters. */
  lemma {:induction false} KeptAreGiven(ps: seq<Param>, p: Param)
    requires p in ByKey(Kept(ps))
    ensures p in ps
  {
    ByKeyMembers(Kept(ps), p);
    var wanted := WithoutTracking(ps);
    if p !in wanted { WithoutMembers(wanted, "network", p); }
    WithoutTrackingMembers(ps, p);
  }

  lemma {:induction false} InsertMembers(q: Param, ps: seq<Param>, p: Param)
    requires p in Insert(q, ps)
    ensures p == q || p in ps
  {
    if ps != [] && Before(ps[0].key, q.key) && p != ps[0] { InsertMembers(q, ps[1..], p); }
  }

  lemma {:induction false} ByKeyMembers(ps: seq<Param>, p: Param)
    requires p in ByKey(ps)
    ensures p in ps
  {
    if ps != [] {
      InsertMembers(ps[0], ByKey(ps[1..]), p);
      if p != ps[0] { ByKeyMembers(ps[1..], p); }
    }
  }

  lemma {:induction false} WithoutMembers(ps: seq<Param>, key: string, p: Param)
    requires p in Without(ps, key)
    ensures p in ps
  {
    if ps != [] && p != ps[0] { WithoutMembers(ps[1..], key, p); }
  }

  lemma {:induction false} WithoutTrackingMembers(ps: seq<Param>, p: Param)
    requires p in WithoutTracking(ps)
    ensures p in ps
  {
    if ps != [] && p != ps[0] { WithoutTrackingMembers(ps[1..], p); }
  }

  lemma CanonicalIsBytes(raw: string)
    requires Bytes(raw) && Parse(raw).Ok?
    ensures AllBytes(ByKey(Kept(Parse(raw).value)))
  {
    ParseKeepsBytes(raw);
    forall p | p in ByKey(Kept(Parse(raw).value)) ensures p in Parse(raw).value {
      KeptAreGiven(Parse(raw).value, p);
    }
  }

  // Round trip.

  predicate Plain(s: string) {
    forall i :: 0 <= i < |s| ==> Unreserved(s[i]) || s[i] == '%' || s[i] == '+'
  }

  lemma CharRoundTrips(c: char, rest: string, t: string)
    requires c as int < 256 && Unescape(rest) == Some(t)
    ensures Unescape(EscapeChar(c) + rest) == Some([c] + t)
  {
    var s := EscapeChar(c) + rest;
    if Unreserved(c) || c == ' ' {
      assert s[1..] == rest;
    } else {
      HexRoundTrips(c as int);
      assert s[0] == '%' && s[1] == HexDigit(c as int / 16) && s[2] == HexDigit(c as int % 16) && s[3..] == rest;
    }
  }

  lemma {:induction false} EscapeRoundTrips(s: string)
    requires Bytes(s)
    ensures Unescape(Escape(s)) == Some(s)
  {
    if s != "" {
      EscapeRoundTrips(s[1..]);
      CharRoundTrips(s[0], Escape(s[1..]), s[1..]);
      assert s == [s[0]] + s[1..];
    }
  }

  lemma {:induction false} EscapeIsPlain(s: string)
    requires Bytes(s)
    ensures Plain(Escape(s))
  {
    if s != "" {
      EscapeIsPlain(s[1..]);
      HexRoundTrips(s[0] as int);
    }
  }

  lemma PlainLacks(s: string, c: char)
    requires Plain(s) && !Unreserved(c) && c != '%' && c != '+'
    ensures c !in s
  {
  }

  lemma HexRoundTrips(n: int)
    requires 0 <= n < 256
    ensures HexValue(HexDigit(n / 16)) == Some(n / 16) && HexValue(HexDigit(n % 16)) == Some(n % 16)
    ensures Unreserved(HexDigit(n / 16)) && Unreserved(HexDigit(n % 16))
  {
  }

  lemma {:induction false} CutAt(a: string, c: char, b: string)
    requires c !in a
    ensures UpTo(a + [c] + b, c) == a && After(a + [c] + b, c) == b
    ensures UpTo(a, c) == a && After(a, c) == ""
  {
    if a == "" {
      assert a + [c] + b == [c] + b;
    } else {
      CutAt(a[1..], c, b);
      assert (a + [c] + b)[1..] == a[1..] + [c] + b;
    }
  }

  /** An encoded pair is one piece, and cuts back into its key and value. */
  lemma PairIsOnePiece(p: Param)
    requires Bytes(p.key) && Bytes(p.value)
    ensures var piece := EncodePair(p);
      && piece != "" && '&' !in piece && ';' !in piece
      && Unescape(UpTo(piece, '=')) == Some(p.key) && Unescape(After(piece, '=')) == Some(p.value)
  {
    var k, v := Escape(p.key), Escape(p.value);
    EscapeRoundTrips(p.key);
    EscapeRoundTrips(p.value);
    EscapeIsPlain(p.key);
    EscapeIsPlain(p.value);
    PlainLacks(k, '=');
    PlainLacks(k, '&');
    PlainLacks(v, '&');
    PlainLacks(k, ';');
    PlainLacks(v, ';');
    CutAt(k, '=', v);
    assert EncodePair(p) == k + ['='] + v;
  }

  lemma {:induction false} EncodeParses(ps: seq<Param>)
    requires AllBytes(ps)
    ensures Parse(Encode(ps)) == Ok(ps)
  {
    if ps != [] {
      var piece := EncodePair(ps[0]);
      PairIsOnePiece(ps[0]);
      EncodeParses(ps[1..]);
      assert ps == [ps[0]] + ps[1..];
      if |ps| == 1 {
        CutAt(piece, '&', "");
        assert Encode(ps) == piece;
      } else {
        CutAt(piece, '&', Encode(ps[1..]));
        assert Encode(ps) == piece + ['&'] + Encode(ps[1..]);
      }
    }
  }

  // Sorting and dropping keep what a handler can read.

  lemma {:induction false} InsertKeepsValues(p: Param, ps: seq<Param>, key: string)
    ensures Values(Insert(p, ps), key) == (if p.key == key then [p.value] else []) + Values(ps, key)
  {
    if ps != [] && Before(ps[0].key, p.key) {
      InsertKeepsValues(p, ps[1..], key);
      BeforeIsStrict(p.key);
      assert Insert(p, ps)[1..] == Insert(p, ps[1..]);
    } else {
      assert ([p] + ps)[1..] == ps;
    }
  }

  lemma {:induction false} ByKeyKeepsValues(ps: seq<Param>, key: string)
    ensures Values(ByKey(ps), key) == Values(ps, key)
  {
    if ps != [] {
      ByKeyKeepsValues(ps[1..], key);
      InsertKeepsValues(ps[0], ByKey(ps[1..]), key);
    }
  }

  lemma {:induction false} WithoutTrackingKeepsValues(ps: seq<Param>, key: string)
    requires !IsTracking(key)
    ensures Values(WithoutTracking(ps), key) == Values(ps, key)
  {
    if ps != [] {
      WithoutTrackingKeepsValues(ps[1..], key);
      if !IsTracking(ps[0].key) { assert ([ps[0]] + WithoutTracking(ps[1..]))[1..] == WithoutTracking(ps[1..]); }
      else { assert [] + WithoutTracking(ps[1..]) == WithoutTracking(ps[1..]); }
    }
  }

  lemma {:induction false} WithoutKeepsValues(ps: seq<Param>, dropped: string, key: string)
    ensures Values(Without(ps, dropped), key) == if key == dropped then [] else Values(ps, key)
  {
    if ps != [] {
      WithoutKeepsValues(ps[1..], dropped, key);
      if ps[0].key != dropped { assert ([ps[0]] + Without(ps[1..], dropped))[1..] == Without(ps[1..], dropped); }
      else { assert [] + Without(ps[1..], dropped) == Without(ps[1..], dropped); }
    }
  }

  /** What the canonical parameters still say: every value but tracking ones, and the network as handlers resolve it. */
  lemma KeptKeepsMeaning(ps: seq<Param>, key: string)
    ensures !IsTracking(key) && key != "network" ==> Values(ByKey(Kept(ps)), key) == Values(ps, key)
    ensures Network(ByKey(Kept(ps))) == Network(ps)
  {
    var wanted := WithoutTracking(ps);
    assert !IsTracking("network") by {
      assert "network"[..4][0] == 'n' && "ref_src"[0] != 'n' && "ref_url"[0] != 'n' && "msclkid"[0] != 'n';
    }
    WithoutTrackingKeepsValues(ps, "network");
    WithoutKeepsValues(wanted, "network", "network");
    ByKeyKeepsValues(Kept(ps), "network");
    if !IsTracking(key) && key != "network" {
      WithoutTrackingKeepsValues(ps, key);
      WithoutKeepsValues(wanted, "network", key);
      ByKeyKeepsValues(Kept(ps), key);
    }
  }

  lemma {:induction false} EncodedLacksNul(ps: seq<Param>)
    requires AllBytes(ps)
    ensures '\0' !in Encode(ps)
  {
    if ps != [] {
      EscapeIsPlain(ps[0].key);
      EscapeIsPlain(ps[0].value);
      PlainLacks(Escape(ps[0].key), '\0');
      PlainLacks(Escape(ps[0].value), '\0');
      EncodedLacksNul(ps[1..]);
    }
  }

  lemma CanonicalLacksNul(raw: string)
    requires Bytes(raw) && '\0' !in raw
    ensures '\0' !in Canonical(raw)
  {
    if raw != "" && Parse(raw).Ok? {
      CanonicalIsBytes(raw);
      EncodedLacksNul(ByKey(Kept(Parse(raw).value)));
    }
  }

  /** A canonical query says whether the raw one could be parsed: it parses exactly when that did. */
  lemma CanonicalParses(raw: string)
    requires Bytes(raw)
    ensures match Parse(raw)
            case Err(_) => Canonical(raw) == raw && Parse(Canonical(raw)).Err?
            case Ok(ps) => Parse(Canonical(raw)) == Ok(ByKey(Kept(ps)))
  {
    if raw != "" && Parse(raw).Ok? {
      CanonicalIsBytes(raw);
      EncodeParses(ByKey(Kept(Parse(raw).value)));
    }
  }

  /** What a key holds behind the path. */
  function Tail(c: string, gzip: bool): string { if gzip then c + "\0gzip" else c }

  lemma TailParts(c: string, gzip: bool)
    requires '\0' !in c
    ensures UpTo(Tail(c, gzip), '\0') == c && (gzip <==> '\0' in Tail(c, gzip))
  {
    CutAt(c, '\0', "gzip");
    var marked := c + ['\0'] + "gzip";
    assert marked == c + "\0gzip" && marked[|c|] == '\0';
  }

  lemma KeySplits(r: Request)
    ensures Key(r) == r.escapedPath + ['?'] + Tail(Canonical(r.rawQuery), r.gzip)
  {
  }

  lemma KeyParts(r: Request)
    requires FromServer(r)
    ensures UpTo(Key(r), '?') == r.escapedPath
    ensures UpTo(After(Key(r), '?'), '\0') == Canonical(r.rawQuery)
    ensures r.gzip <==> '\0' in After(Key(r), '?')
  {
    CanonicalLacksNul(r.rawQuery);
    TailParts(Canonical(r.rawQuery), r.gzip);
    KeySplits(r);
    CutAt(r.escapedPath, '?', Tail(Canonical(r.rawQuery), r.gzip));
  }

  /**
   Two requests with one key are the same question: the same escaped path and
   encoding, the same resolved network, and the same values in the same order
   for every parameter that is not a tracking one. Queries that cannot be
   parsed share a key only when they are the same text.
   */
  lemma EqualKeysAskTheSame(q: Request, r: Request, param: string)
    requires FromServer(q) && FromServer(r) && Key(q) == Key(r)
    ensures q.escapedPath == r.escapedPath && q.gzip == r.gzip
    ensures Parse(q.rawQuery).Ok? <==> Parse(r.rawQuery).Ok?
    ensures Parse(q.rawQuery).Err? ==> q.rawQuery == r.rawQuery
    ensures Parse(q.rawQuery).Ok? ==>
      var ps, qs := Parse(q.rawQuery).value, Parse(r.rawQuery).value;
      Network(ps) == Network(qs) && (!IsTracking(param) && param != "network" ==> Values(ps, param) == Values(qs, param))
  {
    KeyParts(q);
    KeyParts(r);
    CanonicalParses(q.rawQuery);
    CanonicalParses(r.rawQuery);
    if Parse(q.rawQuery).Ok? {
      KeptKeepsMeaning(Parse(q.rawQuery).value, param);
      KeptKeepsMeaning(Parse(r.rawQuery).value, param);
    }
  }

  // And no finer than that.

  ghost predicate SortedByKey(ps: seq<Param>) {
    forall i, j :: 0 <= i < j < |ps| ==> !Before(ps[j].key, ps[i].key)
  }

  lemma {:induction false} InsertSorts(p: Param, ps: seq<Param>)
    requires SortedByKey(ps)
    ensures SortedByKey(Insert(p, ps))
  {
    var r := Insert(p, ps);
    if ps == [] || !Before(ps[0].key, p.key) {
      forall j | 0 < j < |r| ensures !Before(r[j].key, p.key) {
        if j > 1 { NotBelow(p.key, ps[0].key, r[j].key); }
      }
    } else {
      InsertSorts(p, ps[1..]);
      forall j | 0 < j < |r| ensures !Before(r[j].key, ps[0].key) {
        assert r[j] == Insert(p, ps[1..])[j - 1];
        InsertMembers(p, ps[1..], r[j]);
        BeforeIsStrict(p.key);
        if r[j] == p && Before(p.key, ps[0].key) { BeforeIsTransitive(p.key, ps[0].key, p.key); }
      }
    }
  }

  lemma NotBelow(a: string, b: string, c: string)
    requires !Before(b, a) && !Before(c, b)
    ensures !Before(c, a)
  {
    BeforeIsTotal(a, b);
    BeforeIsTotal(b, c);
    BeforeIsStrict(a);
    if Before(a, b) && Before(b, c) { BeforeIsTransitive(a, b, c); }
    if Before(a, c) && Before(c, a) { BeforeIsTransitive(a, c, a); }
  }

  lemma {:induction false} ByKeySorts(ps: seq<Param>)
    ensures SortedByKey(ByKey(ps))
  {
    if ps != [] {
      ByKeySorts(ps[1..]);
      InsertSorts(ps[0], ByKey(ps[1..]));
    }
  }

  ghost predicate SameValues(a: seq<Param>, b: seq<Param>) {
    forall key :: Values(a, key) == Values(b, key)
  }

  lemma {:induction false} NoValues(ps: seq<Param>, key: string)
    requires forall i :: 0 <= i < |ps| ==> ps[i].key != key
    ensures Values(ps, key) == []
  {
    if ps != [] { NoValues(ps[1..], key); }
  }

  /** Sorted parameters start with a key that no other sorted list with the same values starts above. */
  lemma StartsNoHigher(a: seq<Param>, b: seq<Param>)
    requires SortedByKey(b) && SameValues(a, b) && a != []
    ensures b != [] && !Before(a[0].key, b[0].key)
  {
    var key := a[0].key;
    assert Values(a, key)[0] == a[0].value;
    BeforeIsStrict(key);
    if b == [] || Before(key, b[0].key) {
      forall i | 0 <= i < |b| ensures b[i].key != key {
        assert i > 0 ==> !Before(b[i].key, b[0].key);
      }
      NoValues(b, key);
    }
  }

  lemma {:induction false} SortedListsAreOne(a: seq<Param>, b: seq<Param>)
    requires SortedByKey(a) && SortedByKey(b) && SameValues(a, b)
    ensures a == b
  {
    if a == [] {
      if b != [] { StartsNoHigher(b, a); }
    } else {
      StartsNoHigher(a, b);
      StartsNoHigher(b, a);
      BeforeIsTotal(a[0].key, b[0].key);
      assert Values(a, a[0].key)[0] == a[0].value && Values(b, a[0].key)[0] == b[0].value;
      forall key ensures Values(a[1..], key) == Values(b[1..], key) {
        assert Values(a, key) == Values(b, key);
        if key == a[0].key { assert Values(a, key)[1..] == Values(a[1..], key) && Values(b, key)[1..] == Values(b[1..], key); }
        else { assert [] + Values(a[1..], key) == Values(a[1..], key) && [] + Values(b[1..], key) == Values(b[1..], key); }
      }
      SortedListsAreOne(a[1..], b[1..]);
      assert a == [a[0]] + a[1..] && b == [b[0]] + b[1..];
    }
  }

  /** The networks asked for: none where the first is "all". */
  function Networks(ps: seq<Param>): seq<string> {
    var ns := Values(ps, "network");
    if ns != [] && ns[0] == "all" then [] else ns
  }

  /** The same values in the same order for every parameter but tracking ones, and the same networks. */
  ghost predicate SameQuestion(ps: seq<Param>, qs: seq<Param>) {
    && Networks(ps) == Networks(qs)
    && forall key :: !IsTracking(key) && key != "network" ==> Values(ps, key) == Values(qs, key)
  }

  lemma {:induction false} TrackingHasNoValues(ps: seq<Param>, key: string)
    requires IsTracking(key)
    ensures Values(WithoutTracking(ps), key) == []
  {
    if ps != [] {
      TrackingHasNoValues(ps[1..], key);
      if !IsTracking(ps[0].key) { assert ([ps[0]] + WithoutTracking(ps[1..]))[1..] == WithoutTracking(ps[1..]); }
      else { assert [] + WithoutTracking(ps[1..]) == WithoutTracking(ps[1..]); }
    }
  }

  /** What a canonical list holds under each key. */
  lemma CanonicalValues(ps: seq<Param>, key: string)
    ensures Values(ByKey(Kept(ps)), key) == if IsTracking(key) then [] else if key == "network" then Networks(ps) else Values(ps, key)
  {
    var wanted := WithoutTracking(ps);
    KeptKeepsMeaning(ps, key);
    ByKeyKeepsValues(Kept(ps), key);
    WithoutKeepsValues(wanted, "network", key);
    if IsTracking(key) { TrackingHasNoValues(ps, key); }
    else if key == "network" { WithoutTrackingKeepsValues(ps, key); }
    if key == "network" { NetworkIsKept(ps); }
  }

  lemma NetworkIsKept(ps: seq<Param>)
    ensures !IsTracking("network") && First(WithoutTracking(ps), "network") == First(ps, "network")
  {
    assert !IsTracking("network") by {
      assert "network"[..4][0] == 'n' && "ref_src"[0] != 'n' && "ref_url"[0] != 'n' && "msclkid"[0] != 'n';
    }
    WithoutTrackingKeepsValues(ps, "network");
  }

  lemma SameQuestionSameList(ps: seq<Param>, qs: seq<Param>)
    requires SameQuestion(ps, qs)
    ensures ByKey(Kept(ps)) == ByKey(Kept(qs))
  {
    forall key ensures Values(ByKey(Kept(ps)), key) == Values(ByKey(Kept(qs)), key) {
      CanonicalValues(ps, key);
      CanonicalValues(qs, key);
    }
    ByKeySorts(Kept(ps));
    ByKeySorts(Kept(qs));
    SortedListsAreOne(ByKey(Kept(ps)), ByKey(Kept(qs)));
  }

  lemma SameListSameQuestion(ps: seq<Param>, qs: seq<Param>)
    requires ByKey(Kept(ps)) == ByKey(Kept(qs))
    ensures SameQuestion(ps, qs)
  {
    NetworkIsKept(ps);
    CanonicalValues(ps, "network");
    CanonicalValues(qs, "network");
    forall key | !IsTracking(key) && key != "network" ensures Values(ps, key) == Values(qs, key) {
      CanonicalValues(ps, key);
      CanonicalValues(qs, key);
    }
  }

  lemma SameCanonical(x: string, y: string)
    requires Bytes(x) && Bytes(y)
    ensures Canonical(x) == Canonical(y) <==>
      if Parse(x).Ok? && Parse(y).Ok? then ByKey(Kept(Parse(x).value)) == ByKey(Kept(Parse(y).value))
      else x == y
  {
    CanonicalParses(x);
    CanonicalParses(y);
  }

  /**
   Two requests share a key exactly when they are the same question: so
   parameters may come in any order, carry any tracking, and say "all"
   networks or none; and nothing else is told apart less.
   */
  lemma KeysAgreeExactlyWhen(q: Request, r: Request)
    requires FromServer(q) && FromServer(r)
    ensures Key(q) == Key(r) <==>
      && q.escapedPath == r.escapedPath && q.gzip == r.gzip
      && if Parse(q.rawQuery).Ok? && Parse(r.rawQuery).Ok?
         then SameQuestion(Parse(q.rawQuery).value, Parse(r.rawQuery).value)
         else q.rawQuery == r.rawQuery
  {
    KeyParts(q);
    KeyParts(r);
    KeySplits(q);
    KeySplits(r);
    SameCanonical(q.rawQuery, r.rawQuery);
    if Parse(q.rawQuery).Ok? && Parse(r.rawQuery).Ok? {
      var ps, qs := Parse(q.rawQuery).value, Parse(r.rawQuery).value;
      if SameQuestion(ps, qs) { SameQuestionSameList(ps, qs); }
      if ByKey(Kept(ps)) == ByKey(Kept(qs)) { SameListSameQuestion(ps, qs); }
    }
  }
}
