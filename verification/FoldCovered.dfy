/** Folding the realms an app is made of into the app's card: which cards go, and what goes with them. */
module FoldCovered {
  import opened Base
  import opened Cards

  /** A pattern names its path, or with a trailing slash and star everything below it. */
  predicate CoversPath(pattern: string, path: string) {
    if |pattern| >= 2 && pattern[|pattern| - 2..] == "/*" then pattern[..|pattern| - 2] + "/" <= path else pattern == path
  }

  /** Whether card `c` may become a part of card `p`: another card, on a chain, that covers nothing itself. */
  predicate MayJoin(cards: seq<Card>, p: nat, pat: string, c: nat)
    requires p < |cards| && c < |cards|
  {
    c != p && cards[c].path != "" && cards[c].covers == [] && CoversPath(pat, cards[c].path)
  }

  /** The claims of one pattern on the first `n` cards, after the claims already made. */
  function ClaimCards(cards: seq<Card>, p: nat, pat: string, n: nat, held: map<string, nat>): map<string, nat>
    requires p < |cards| && n <= |cards|
  {
    if n == 0 then held
    else
      var m := ClaimCards(cards, p, pat, n - 1, held);
      if MayJoin(cards, p, pat, n - 1) && cards[n - 1].path !in m then m[cards[n - 1].path := p] else m
  }

  function ClaimPatterns(cards: seq<Card>, p: nat, k: nat, held: map<string, nat>): map<string, nat>
    requires p < |cards| && k <= |cards[p].covers|
  {
    if k == 0 then held else ClaimCards(cards, p, cards[p].covers[k - 1], |cards|, ClaimPatterns(cards, p, k - 1, held))
  }

  /** The claims of the first `n` cards. */
  function Claims(cards: seq<Card>, n: nat): map<string, nat>
    requires n <= |cards|
  {
    if n == 0 then map[] else ClaimPatterns(cards, n - 1, |cards[n - 1].covers|, Claims(cards, n - 1))
  }

  /** The `parentOf` map. */
  method MapParents(cards: seq<Card>) returns (parentOf: map<string, nat>)
    ensures parentOf == Claims(cards, |cards|)
  {
    parentOf := map[];
    for p := 0 to |cards|
      invariant parentOf == Claims(cards, p)
    {
      var pats := cards[p].covers;
      for k := 0 to |pats|
        invariant parentOf == ClaimPatterns(cards, p, k, Claims(cards, p))
      {
        ghost var held := parentOf;
        for c := 0 to |cards|
          invariant parentOf == ClaimCards(cards, p, pats[k], c, held)
        {
          if c == p || cards[c].path == "" {
          } else if |cards[c].covers| > 0 {
          } else if cards[c].path in parentOf {
          } else if CoversPath(pats[k], cards[c].path) {
            parentOf := parentOf[cards[c].path := p];
          }
        }
      }
    }
  }

  // Who claims whom.

  /** Card `p` could have the path as a part, by this pattern of its list. */
  ghost predicate WantsBy(cards: seq<Card>, p: nat, pat: string, path: string, n: nat)
    requires p < |cards| && n <= |cards|
  {
    exists c :: 0 <= c < n && cards[c].path == path && MayJoin(cards, p, pat, c)
  }

  ghost predicate Wants(cards: seq<Card>, p: nat, path: string)
    requires p < |cards|
  {
    exists j :: 0 <= j < |cards[p].covers| && WantsBy(cards, p, cards[p].covers[j], path, |cards|)
  }

  /** What a card's claims do to the map: nothing for paths already claimed, and `p` for the others it wants. */
  ghost predicate ClaimStep(held: map<string, nat>, m: map<string, nat>, p: nat, path: string, wanted: bool) {
    && (path in held ==> path in m && m[path] == held[path])
    && (path !in held ==> (path in m <==> wanted) && (path in m ==> m[path] == p))
  }

  lemma {:induction false} ClaimCardsMeans(cards: seq<Card>, p: nat, pat: string, n: nat, held: map<string, nat>, path: string)
    requires p < |cards| && n <= |cards|
    ensures ClaimStep(held, ClaimCards(cards, p, pat, n, held), p, path, WantsBy(cards, p, pat, path, n))
  {
    if n > 0 {
      ClaimCardsMeans(cards, p, pat, n - 1, held, path);
      assert WantsBy(cards, p, pat, path, n) <==>
        WantsBy(cards, p, pat, path, n - 1) || (cards[n - 1].path == path && MayJoin(cards, p, pat, n - 1));
    }
  }

  ghost predicate WantsUpto(cards: seq<Card>, p: nat, path: string, k: nat)
    requires p < |cards| && k <= |cards[p].covers|
  {
    exists j :: 0 <= j < k && WantsBy(cards, p, cards[p].covers[j], path, |cards|)
  }

  lemma {:induction false} ClaimPatternsMeans(cards: seq<Card>, p: nat, k: nat, held: map<string, nat>, path: string)
    requires p < |cards| && k <= |cards[p].covers|
    ensures ClaimStep(held, ClaimPatterns(cards, p, k, held), p, path, WantsUpto(cards, p, path, k))
  {
    if k > 0 {
      ClaimPatternsMeans(cards, p, k - 1, held, path);
      ClaimCardsMeans(cards, p, cards[p].covers[k - 1], |cards|, ClaimPatterns(cards, p, k - 1, held), path);
      assert WantsUpto(cards, p, path, k) <==>
        WantsUpto(cards, p, path, k - 1) || WantsBy(cards, p, cards[p].covers[k - 1], path, |cards|);
    }
  }

  ghost predicate NoneWants(cards: seq<Card>, n: nat, path: string)
    requires n <= |cards|
  {
    forall q :: 0 <= q < n ==> !Wants(cards, q, path)
  }

  ghost predicate FirstWins(cards: seq<Card>, m: map<string, nat>, n: nat, path: string)
    requires n <= |cards|
  {
    if path in m then m[path] < n && Wants(cards, m[path], path) && NoneWants(cards, m[path], path) else NoneWants(cards, n, path)
  }

  lemma FirstWinsStep(cards: seq<Card>, held: map<string, nat>, m: map<string, nat>, n: nat, path: string)
    requires n < |cards| && FirstWins(cards, held, n, path) && ClaimStep(held, m, n, path, Wants(cards, n, path))
    ensures FirstWins(cards, m, n + 1, path)
  {
  }

  /** The first card that wants a path gets it; a path nobody wants is nobody's. */
  lemma {:induction false} FirstClaimWins(cards: seq<Card>, n: nat, path: string)
    requires n <= |cards|
    ensures FirstWins(cards, Claims(cards, n), n, path)
  {
    if n > 0 {
      var held, m := Claims(cards, n - 1), Claims(cards, n);
      FirstClaimWins(cards, n - 1, path);
      ClaimPatternsMeans(cards, n - 1, |cards[n - 1].covers|, held, path);
      assert Wants(cards, n - 1, path) == WantsUpto(cards, n - 1, path, |cards[n - 1].covers|);
      FirstWinsStep(cards, held, m, n - 1, path);
    }
  }

  // The pass, for any map of paths to parents.

  function Part(c: Card): Card { c.(parts := [], previous := []) }

  predicate Joins(cards: seq<Card>, m: map<string, nat>, i: nat)
    requires i < |cards|
  {
    cards[i].path in m
  }

  predicate JoinsInto(cards: seq<Card>, m: map<string, nat>, i: nat, k: nat)
    requires i < |cards|
  {
    cards[i].path in m && m[cards[i].path] == k
  }

  /** What the first `n` cards put into card `k`, in order. */
  function PartsOf(cards: seq<Card>, m: map<string, nat>, k: nat, n: nat): seq<Card>
    requires n <= |cards|
  {
    if n == 0 then [] else PartsOf(cards, m, k, n - 1) + if JoinsInto(cards, m, n - 1, k) then [Part(cards[n - 1])] else []
  }

  function Holding(cards: seq<Card>, m: map<string, nat>, k: nat, n: nat): Card
    requires k < |cards| && n <= |cards|
  {
    cards[k].(parts := cards[k].parts + PartsOf(cards, m, k, n))
  }

  function Standing(cards: seq<Card>, m: map<string, nat>, n: nat): seq<nat>
    requires n <= |cards|
  {
    if n == 0 then [] else Standing(cards, m, n - 1) + if Joins(cards, m, n - 1) then [] else [n - 1]
  }

  ghost predicate Held(was: seq<Card>, m: map<string, nat>, now: seq<Card>, n: nat) {
    |now| == |was| && n <= |was| && forall k :: 0 <= k < |was| ==> now[k] == Holding(was, m, k, n)
  }

  function Hung(now: seq<Card>, i: nat, into: nat): seq<Card>
    requires i < |now| && into < |now|
  {
    now[into := now[into].(parts := now[into].parts + [Part(now[i])])]
  }

  lemma HeldMore(was: seq<Card>, m: map<string, nat>, now: seq<Card>, i: nat, into: nat)
    requires Held(was, m, now, i) && i < |was| && into < |was| && JoinsInto(was, m, i, into)
    ensures Held(was, m, Hung(now, i, into), i + 1)
  {
    assert Part(now[i]) == Part(was[i]);
    forall k | 0 <= k < |was| ensures Hung(now, i, into)[k] == Holding(was, m, k, i + 1) {
      assert JoinsInto(was, m, i, k) <==> k == into;
    }
  }

  lemma HeldSame(was: seq<Card>, m: map<string, nat>, now: seq<Card>, i: nat)
    requires Held(was, m, now, i) && i < |was| && !Joins(was, m, i)
    ensures Held(was, m, now, i + 1)
  {
  }

  method JoinOne(cards: array<Card>, parentOf: map<string, nat>, i: nat, out0: seq<nat>, ghost was: seq<Card>) returns (out: seq<nat>)
    requires forall s :: s in parentOf ==> parentOf[s] < |was|
    requires Held(was, parentOf, cards[..], i) && i < |was| && out0 == Standing(was, parentOf, i)
    modifies cards
    ensures Held(was, parentOf, cards[..], i + 1) && out == Standing(was, parentOf, i + 1)
  {
    ghost var now := cards[..];
    var c := cards[i];
    assert c == now[i] && now[i].path == was[i].path;
    out := out0;
    if c.path in parentOf {
      var parent := parentOf[c.path];
      HeldMore(was, parentOf, now, i, parent);
      cards[parent] := cards[parent].(parts := cards[parent].parts + [Part(c)]);
      assert cards[..] == Hung(now, i, parent);
    } else {
      HeldSame(was, parentOf, now, i);
      out := out + [i];
    }
  }

  lemma HeldStarts(was: seq<Card>, m: map<string, nat>)
    ensures Held(was, m, was, 0)
  {
  }

  /** The second loop. */
  method JoinAll(cards: array<Card>, parentOf: map<string, nat>) returns (out: seq<nat>)
    requires forall s :: s in parentOf ==> parentOf[s] < cards.Length
    modifies cards
    ensures Held(old(cards[..]), parentOf, cards[..], cards.Length)
    ensures out == Standing(old(cards[..]), parentOf, cards.Length)
  {
    ghost var was := cards[..];
    HeldStarts(was, parentOf);
    out := [];
    for i := 0 to cards.Length
      invariant Held(was, parentOf, cards[..], i) && out == Standing(was, parentOf, i)
    {
      out := JoinOne(cards, parentOf, i, out, was);
    }
  }

  /** `foldCovered`: the cards as they stand after it, and which of them the page keeps. */
  method FoldCoveredCards(cards: array<Card>) returns (out: seq<nat>)
    modifies cards
    ensures Held(old(cards[..]), Claims(old(cards[..]), cards.Length), cards[..], cards.Length)
    ensures out == Standing(old(cards[..]), Claims(old(cards[..]), cards.Length), cards.Length)
  {
    var parentOf := MapParents(cards[..]);
    forall s | s in parentOf ensures parentOf[s] < cards.Length {
      FirstClaimWins(cards[..], cards.Length, s);
    }
    out := JoinAll(cards, parentOf);
  }

  // What is kept.

  /** Only off-chain cards, which have no path, share one. */
  ghost predicate DistinctPaths(cards: seq<Card>) {
    forall i, j :: 0 <= i < j < |cards| && cards[i].path == cards[j].path ==> cards[i].path == ""
  }

  /** Which of the first `n` cards became parts of card `k`. */
  function Sources(cards: seq<Card>, m: map<string, nat>, k: nat, n: nat): (r: seq<nat>)
    requires n <= |cards|
    ensures |r| == |PartsOf(cards, m, k, n)|
    ensures forall i :: 0 <= i < |r| ==> r[i] < n && PartsOf(cards, m, k, n)[i] == Part(cards[r[i]])
  {
    if n == 0 then [] else Sources(cards, m, k, n - 1) + if JoinsInto(cards, m, n - 1, k) then [n - 1] else []
  }

  lemma {:induction false} SourcesBelow(cards: seq<Card>, m: map<string, nat>, k: nat, n: nat)
    requires n <= |cards|
    ensures forall i :: i in Sources(cards, m, k, n) ==> i < n
  {
    if n > 0 { SourcesBelow(cards, m, k, n - 1); }
  }

  lemma {:induction false} StandingBelow(cards: seq<Card>, m: map<string, nat>, n: nat)
    requires n <= |cards|
    ensures forall i :: i in Standing(cards, m, n) ==> i < n
  {
    if n > 0 { StandingBelow(cards, m, n - 1); }
  }

  lemma {:induction false} SourcesAre(cards: seq<Card>, m: map<string, nat>, k: nat, n: nat, i: nat)
    requires i < n <= |cards|
    ensures i in Sources(cards, m, k, n) <==> JoinsInto(cards, m, i, k)
  {
    SourcesBelow(cards, m, k, n - 1);
    if i < n - 1 { SourcesAre(cards, m, k, n - 1, i); }
  }

  lemma {:induction false} SourcesAreDistinct(cards: seq<Card>, m: map<string, nat>, k: nat, n: nat)
    requires n <= |cards|
    ensures Distinct(Sources(cards, m, k, n))
  {
    if n > 0 {
      SourcesAreDistinct(cards, m, k, n - 1);
      SourcesBelow(cards, m, k, n - 1);
    }
  }

  lemma {:induction false} StandingAre(cards: seq<Card>, m: map<string, nat>, n: nat, i: nat)
    requires i < n <= |cards|
    ensures Distinct(Standing(cards, m, n)) && (i in Standing(cards, m, n) <==> !Joins(cards, m, i))
  {
    StandingBelow(cards, m, n - 1);
    if n > 1 { StandingAre(cards, m, n - 1, if i < n - 1 then i else 0); }
    if !Joins(cards, m, n - 1) { DistinctConcat(Standing(cards, m, n - 1), [n - 1]); }
  }

  /** A map of claims: each claimed path belongs to some card that covers nothing, and goes to a card that covers something. */
  ghost predicate Claiming(cards: seq<Card>, m: map<string, nat>) {
    forall s :: s in m ==> s != "" && m[s] < |cards| && cards[m[s]].covers != [] && Coverable(cards, m[s], s)
  }

  ghost predicate Coverable(cards: seq<Card>, p: nat, path: string) {
    exists c :: 0 <= c < |cards| && c != p && cards[c].path == path && cards[c].covers == []
  }

  lemma ClaimsAreClaiming(cards: seq<Card>)
    ensures Claiming(cards, Claims(cards, |cards|))
  {
    var m := Claims(cards, |cards|);
    forall s | s in m
      ensures s != "" && m[s] < |cards| && cards[m[s]].covers != [] && Coverable(cards, m[s], s)
    {
      FirstClaimWins(cards, |cards|, s);
      var j :| 0 <= j < |cards[m[s]].covers| && WantsBy(cards, m[s], cards[m[s]].covers[j], s, |cards|);
      var c :| 0 <= c < |cards| && cards[c].path == s && MayJoin(cards, m[s], cards[m[s]].covers[j], c);
    }
  }

  lemma ClaimedCoversNothing(cards: seq<Card>, m: map<string, nat>, q: nat)
    requires DistinctPaths(cards) && Claiming(cards, m) && q < |cards| && cards[q].path in m
    ensures cards[q].covers == [] && m[cards[q].path] != q
  {
    var s := cards[q].path;
    var c :| 0 <= c < |cards| && c != m[s] && cards[c].path == s && cards[c].covers == [];
    assert c == q;
  }

  lemma ParentStands(cards: seq<Card>, m: map<string, nat>, i: nat)
    requires DistinctPaths(cards) && Claiming(cards, m) && i < |cards| && Joins(cards, m, i)
    ensures m[cards[i].path] != i && m[cards[i].path] < |cards| && !Joins(cards, m, m[cards[i].path])
  {
    ClaimedCoversNothing(cards, m, i);
    if Joins(cards, m, m[cards[i].path]) { ClaimedCoversNothing(cards, m, m[cards[i].path]); }
  }

  /** Every card is on the page once: standing itself, or a part of one standing card and of no other. */
  lemma EveryCardOnce(cards: seq<Card>, m: map<string, nat>, i: nat)
    requires DistinctPaths(cards) && m == Claims(cards, |cards|) && i < |cards|
    ensures var page := Standing(cards, m, |cards|);
      if Joins(cards, m, i)
      then var p := m[cards[i].path]; i !in page && p in page && forall k :: i in Sources(cards, m, k, |cards|) <==> k == p
      else i in page && forall k :: i !in Sources(cards, m, k, |cards|)
  {
    ClaimsAreClaiming(cards);
    OnceEach(cards, m, i);
  }

  lemma OnceEach(cards: seq<Card>, m: map<string, nat>, i: nat)
    requires DistinctPaths(cards) && Claiming(cards, m) && i < |cards|
    ensures var page := Standing(cards, m, |cards|);
      if Joins(cards, m, i)
      then var p := m[cards[i].path]; i !in page && p in page && forall k :: i in Sources(cards, m, k, |cards|) <==> k == p
      else i in page && forall k :: i !in Sources(cards, m, k, |cards|)
  {
    StandingAre(cards, m, |cards|, i);
    forall k ensures i in Sources(cards, m, k, |cards|) <==> JoinsInto(cards, m, i, k) {
      SourcesAre(cards, m, k, |cards|, i);
    }
    if Joins(cards, m, i) {
      ParentStands(cards, m, i);
      StandingAre(cards, m, |cards|, m[cards[i].path]);
    }
  }

  /** With two cards of one path, one covering it, both leave the page: the part hangs on a parent folded into itself. */
  lemma TwinsVanish(cards: seq<Card>, m: map<string, nat>)
    requires |cards| == 2 && cards[0].path == cards[1].path != "" && cards[1].covers == []
    requires cards[0].covers == [cards[0].path] && CoversPath(cards[0].path, cards[0].path)
    requires m == Claims(cards, |cards|)
    ensures Standing(cards, m, |cards|) == []
  {
    var path := cards[0].path;
    assert MayJoin(cards, 0, path, 1);
    assert WantsBy(cards, 0, cards[0].covers[0], path, 2);
    assert Wants(cards, 0, path);
    FirstClaimWins(cards, 2, path);
    BothJoin(cards, m);
  }

  lemma BothJoin(cards: seq<Card>, m: map<string, nat>)
    requires |cards| == 2 && Joins(cards, m, 0) && Joins(cards, m, 1)
    ensures Standing(cards, m, |cards|) == []
  {
    assert Standing(cards, m, 1) == Standing(cards, m, 0) + [];
  }

  /** The realms a card shows: itself, its previous generations, its parts and theirs. */
  ghost predicate Shows(c: Card, x: string) {
    || x == c.path
    || (exists g :: g in c.previous && x == g.path)
    || (exists q :: q in c.parts && ShowsPart(q, x))
  }

  ghost predicate ShowsPart(q: Card, x: string) {
    x == q.path || exists g :: g in q.previous && x == g.path
  }

  ghost predicate PageShows(cards: seq<Card>, page: seq<nat>, x: string) {
    exists k :: k in page && 0 <= k < |cards| && Shows(cards[k], x)
  }

  /** The path belongs to a card that joined card `k`. */
  ghost predicate Brought(cards: seq<Card>, m: map<string, nat>, k: nat, x: string) {
    exists i :: 0 <= i < |cards| && JoinsInto(cards, m, i, k) && x == cards[i].path
  }

  /**
   * What the page shows after the fold: what the standing cards showed, and the paths of the parts.
   * The previous generations and parts a part had are gone unless a standing card has them too.
   */
  lemma FoldShowsExactly(was: seq<Card>, m: map<string, nat>, now: seq<Card>, x: string)
    requires DistinctPaths(was) && m == Claims(was, |was|) && Held(was, m, now, |was|)
    ensures PageShows(now, Standing(was, m, |was|), x) <==>
      PageShows(was, Standing(was, m, |was|), x) || exists i :: 0 <= i < |was| && Joins(was, m, i) && x == was[i].path
  {
    ClaimsAreClaiming(was);
    ShownAfter(was, m, now, x);
  }

  lemma ShownAfter(was: seq<Card>, m: map<string, nat>, now: seq<Card>, x: string)
    requires DistinctPaths(was) && Claiming(was, m) && Held(was, m, now, |was|)
    ensures PageShows(now, Standing(was, m, |was|), x) <==>
      PageShows(was, Standing(was, m, |was|), x) || exists i :: 0 <= i < |was| && Joins(was, m, i) && x == was[i].path
  {
    var page := Standing(was, m, |was|);
    if PageShows(now, page, x) {
      var k :| k in page && 0 <= k < |now| && Shows(now[k], x);
      HolderShows(was, m, k, x);
      if !Shows(was[k], x) {
        var i :| 0 <= i < |was| && JoinsInto(was, m, i, k) && x == was[i].path;
        assert Joins(was, m, i);
      }
    }
    if PageShows(was, page, x) {
      var k :| k in page && 0 <= k < |was| && Shows(was[k], x);
      HolderShows(was, m, k, x);
      assert Shows(now[k], x);
    }
    forall i | 0 <= i < |was| && Joins(was, m, i) && x == was[i].path ensures PageShows(now, page, x) {
      PartIsShown(was, m, now, i);
    }
  }

  lemma PartIsShown(was: seq<Card>, m: map<string, nat>, now: seq<Card>, i: nat)
    requires DistinctPaths(was) && Claiming(was, m) && Held(was, m, now, |was|) && i < |was| && Joins(was, m, i)
    ensures PageShows(now, Standing(was, m, |was|), was[i].path)
  {
    OnceEach(was, m, i);
    ParentStands(was, m, i);
    var p, x := m[was[i].path], was[i].path;
    assert JoinsInto(was, m, i, p);
    assert Brought(was, m, p, x);
    HolderShows(was, m, p, x);
    assert Shows(now[p], x);
  }

  lemma HolderShows(was: seq<Card>, m: map<string, nat>, k: nat, x: string)
    requires k < |was|
    ensures Shows(Holding(was, m, k, |was|), x) <==> Shows(was[k], x) || Brought(was, m, k, x)
  {
    var h, parts := Holding(was, m, k, |was|), PartsOf(was, m, k, |was|);
    forall q | q in h.parts && q !in was[k].parts ensures ShowsPart(q, x) ==> Brought(was, m, k, x) {
      PartIsBrought(was, m, k, q);
    }
    forall i | 0 <= i < |was| && JoinsInto(was, m, i, k) ensures Part(was[i]) in h.parts {
      BroughtIsPart(was, m, k, i);
    }
    if Brought(was, m, k, x) {
      var i :| 0 <= i < |was| && JoinsInto(was, m, i, k) && x == was[i].path;
      assert ShowsPart(Part(was[i]), x);
    }
    forall q | q in was[k].parts ensures q in h.parts {
    }
  }

  lemma PartIsBrought(was: seq<Card>, m: map<string, nat>, k: nat, q: Card)
    requires k < |was| && q in PartsOf(was, m, k, |was|)
    ensures q.previous == [] && Brought(was, m, k, q.path)
  {
    var parts, src := PartsOf(was, m, k, |was|), Sources(was, m, k, |was|);
    var j :| 0 <= j < |parts| && parts[j] == q;
    assert src[j] in src;
    SourcesAre(was, m, k, |was|, src[j]);
  }

  lemma BroughtIsPart(was: seq<Card>, m: map<string, nat>, k: nat, i: nat)
    requires k < |was| && i < |was| && JoinsInto(was, m, i, k)
    ensures Part(was[i]) in PartsOf(was, m, k, |was|)
  {
    var parts, src := PartsOf(was, m, k, |was|), Sources(was, m, k, |was|);
    SourcesAre(was, m, k, |was|, i);
    var j :| 0 <= j < |src| && src[j] == i;
    assert parts[j] == Part(was[i]);
  }
}
