/** Folding older generations into the card that survives them: where every card goes, and when one is lost. */
module Collapse {
  import opened Base
  import opened Generations
  import opened Cards

  // Who replaces whom.

  /** The last of the first `n` cards whose list names the path. */
  function Replacer(cards: seq<Card>, path: string, n: nat): (r: Option<nat>)
    requires n <= |cards|
    ensures r.Some? ==> r.value < n && path in cards[r.value].supersedes
    ensures r.None? ==> forall i :: 0 <= i < n ==> path !in cards[i].supersedes
  {
    if n == 0 then None else if path in cards[n - 1].supersedes then Some(n - 1) else Replacer(cards, path, n - 1)
  }

  function Next(cards: seq<Card>, i: nat): (r: Option<nat>)
    requires i < |cards|
    ensures r.Some? ==> r.value < |cards| && cards[i].path in cards[r.value].supersedes
  {
    Replacer(cards, cards[i].path, |cards|)
  }

  /** A card leaves the page when its path is replaced; a card without a path stays. */
  predicate Folds(cards: seq<Card>, i: nat)
    requires i < |cards|
  {
    Next(cards, i).Some? && cards[i].path != ""
  }

  /** The search for the survivor, `seen` steps in; it gives up after one step more than there are cards. */
  function Climb(cards: seq<Card>, i: nat, seen: nat): (r: nat)
    requires i < |cards|
    ensures r < |cards|
    decreases |cards| + 1 - seen
  {
    match Next(cards, i)
    case None => i
    case Some(j) => if j == i then i else if seen + 1 > |cards| then j else Climb(cards, j, seen + 1)
  }

  /** The card a folded card ends up in. */
  function Survivor(cards: seq<Card>, i: nat): (r: nat)
    requires i < |cards| && Folds(cards, i)
    ensures r < |cards|
  {
    Climb(cards, Next(cards, i).value, 0)
  }

  function Stripped(c: Card): Card { c.(previous := []) }

  predicate GoesInto(cards: seq<Card>, i: nat, k: nat)
    requires i < |cards|
  {
    Folds(cards, i) && Survivor(cards, i) == k
  }

  /** What the first `n` cards put into card `k`, in order. */
  function FoldedInto(cards: seq<Card>, k: nat, n: nat): seq<Card>
    requires n <= |cards|
  {
    if n == 0 then [] else FoldedInto(cards, k, n - 1) + if GoesInto(cards, n - 1, k) then [Stripped(cards[n - 1])] else []
  }

  function Holding(cards: seq<Card>, k: nat, n: nat): Card
    requires k < |cards| && n <= |cards|
  {
    cards[k].(previous := cards[k].previous + FoldedInto(cards, k, n))
  }

  /** The cards left standing among the first `n`. */
  function Standing(cards: seq<Card>, n: nat): (r: seq<nat>)
    requires n <= |cards|
    ensures forall k :: 0 <= k < |r| ==> r[k] < n && !Folds(cards, r[k])
  {
    if n == 0 then [] else Standing(cards, n - 1) + if Folds(cards, n - 1) then [] else [n - 1]
  }

  // The pass.

  /** The `replaced` map: for each replaced path, the last card that names it. */
  ghost predicate Maps(cards: seq<Card>, replaced: map<string, nat>, n: nat)
    requires n <= |cards|
  {
    forall s :: Replacer(cards, s, n) == if s in replaced then Some(replaced[s]) else None
  }

  method MapReplaced(cards: seq<Card>) returns (replaced: map<string, nat>)
    ensures Maps(cards, replaced, |cards|)
  {
    replaced := map[];
    for i := 0 to |cards|
      invariant Maps(cards, replaced, i)
    {
      var olds := cards[i].supersedes;
      ghost var before := replaced;
      for k := 0 to |olds|
        invariant forall s :: s in replaced <==> s in before || s in olds[..k]
        invariant forall s :: s in replaced ==> replaced[s] == if s in olds[..k] then i else before[s]
      {
        assert olds[..k + 1] == olds[..k] + [olds[k]];
        replaced := replaced[olds[k] := i];
      }
      assert olds[..|olds|] == olds;
    }
  }

  /** The `survivor` closure: follows the replacements, and stops rather than spin. */
  method FindSurvivor(cards: seq<Card>, replaced: map<string, nat>, start: nat) returns (c: nat)
    requires Maps(cards, replaced, |cards|) && start < |cards|
    ensures c == Climb(cards, start, 0)
  {
    c := start;
    var seen := 0;
    while true
      invariant c < |cards| && seen <= |cards| && Climb(cards, c, seen) == Climb(cards, start, 0)
      decreases |cards| + 1 - seen
    {
      assert Next(cards, c) == if cards[c].path in replaced then Some(replaced[cards[c].path]) else None;
      if cards[c].path !in replaced || replaced[cards[c].path] == c { return; }
      c := replaced[cards[c].path];
      seen := seen + 1;
      if seen > |cards| { return; }
    }
  }

  lemma MapSays(cards: seq<Card>, replaced: map<string, nat>, i: nat)
    requires Maps(cards, replaced, |cards|) && i < |cards|
    ensures Next(cards, i) == if cards[i].path in replaced then Some(replaced[cards[i].path]) else None
    ensures Folds(cards, i) <==> cards[i].path in replaced && cards[i].path != ""
  {
  }

  ghost predicate Held(was: seq<Card>, now: seq<Card>, n: nat) {
    |now| == |was| && n <= |was| && forall k :: 0 <= k < |was| ==> now[k] == Holding(was, k, n)
  }

  lemma HeldSame(was: seq<Card>, now: seq<Card>, i: nat)
    requires Held(was, now, i) && i < |was| && !Folds(was, i)
    ensures Held(was, now, i + 1)
  {
  }

  function Hung(now: seq<Card>, i: nat, into: nat): seq<Card>
    requires i < |now| && into < |now|
  {
    now[into := now[into].(previous := now[into].previous + [Stripped(now[i])])]
  }

  lemma HeldMore(was: seq<Card>, now: seq<Card>, i: nat, into: nat)
    requires Held(was, now, i) && i < |was| && into < |was| && GoesInto(was, i, into)
    ensures Held(was, Hung(now, i, into), i + 1)
  {
    assert Stripped(now[i]) == Stripped(was[i]);
    forall k | 0 <= k < |was| ensures Hung(now, i, into)[k] == Holding(was, k, i + 1) {
      assert GoesInto(was, i, k) <==> k == into;
    }
  }

  /** The first pass: hangs every replaced card on its survivor, without its own previous generations. */
  method FoldAll(cards: array<Card>, replaced: map<string, nat>)
    requires Maps(cards[..], replaced, cards.Length)
    modifies cards
    ensures Held(old(cards[..]), cards[..], cards.Length)
  {
    ghost var was := cards[..];
    for i := 0 to cards.Length
      invariant Held(was, cards[..], i)
    {
      FoldOne(cards, replaced, i, was);
    }
  }

  method FoldOne(cards: array<Card>, replaced: map<string, nat>, i: nat, ghost was: seq<Card>)
    requires Maps(was, replaced, |was|) && Held(was, cards[..], i) && i < |was|
    modifies cards
    ensures Held(was, cards[..], i + 1)
  {
    ghost var now := cards[..];
    var c := cards[i];
    MapSays(was, replaced, i);
    assert now[i].path == was[i].path;
    if c.path in replaced && c.path != "" {
      SameMaps(was, now, replaced);
      var into := FindSurvivor(cards[..], replaced, replaced[c.path]);
      SameClimb(was, now, replaced[c.path], 0);
      HeldMore(was, now, i, into);
      cards[into] := cards[into].(previous := cards[into].previous + [Stripped(c)]);
      assert cards[..] == Hung(now, i, into);
    } else {
      HeldSame(was, now, i);
    }
  }

  lemma SameMaps(was: seq<Card>, now: seq<Card>, replaced: map<string, nat>)
    requires Maps(was, replaced, |was|) && |now| == |was|
    requires forall i :: 0 <= i < |was| ==> was[i].supersedes == now[i].supersedes
    ensures Maps(now, replaced, |now|)
  {
    forall s ensures Replacer(now, s, |now|) == if s in replaced then Some(replaced[s]) else None {
      SameReplacer(was, now, s, |was|);
    }
  }

  lemma {:induction false} SameReplacer(a: seq<Card>, b: seq<Card>, s: string, n: nat)
    requires |a| == |b| && n <= |a| && forall i :: 0 <= i < |a| ==> a[i].supersedes == b[i].supersedes
    ensures Replacer(a, s, n) == Replacer(b, s, n)
  {
    if n > 0 { SameReplacer(a, b, s, n - 1); }
  }

  lemma {:induction false} SameClimb(a: seq<Card>, b: seq<Card>, i: nat, seen: nat)
    requires |a| == |b| && i < |a|
    requires forall i :: 0 <= i < |a| ==> a[i].path == b[i].path && a[i].supersedes == b[i].supersedes
    ensures Climb(a, i, seen) == Climb(b, i, seen)
    decreases |a| + 1 - seen
  {
    SameReplacer(a, b, a[i].path, |a|);
    if Next(a, i).Some? && Next(a, i).value != i && seen + 1 <= |a| { SameClimb(a, b, Next(a, i).value, seen + 1); }
  }

  /** `collapseSuperseded`: the cards as they stand after it, and which of them the page keeps. */
  method CollapseSuperseded(cards: array<Card>) returns (out: seq<nat>)
    modifies cards
    ensures Held(old(cards[..]), cards[..], cards.Length)
    ensures out == Standing(old(cards[..]), cards.Length)
  {
    ghost var was := cards[..];
    var replaced := MapReplaced(cards[..]);
    FoldAll(cards, replaced);
    out := KeepStanding(cards[..], replaced, was);
  }

  /** The second pass: the cards nothing replaces. */
  method KeepStanding(cards: seq<Card>, replaced: map<string, nat>, ghost was: seq<Card>) returns (out: seq<nat>)
    requires Maps(was, replaced, |was|) && Held(was, cards, |was|)
    ensures out == Standing(was, |was|)
  {
    out := [];
    for i := 0 to |cards|
      invariant out == Standing(was, i)
    {
      MapSays(was, replaced, i);
      assert cards[i] == Holding(was, i, |was|);
      if !(cards[i].path in replaced && cards[i].path != "") { out := out + [i]; }
    }
  }

  // Every card exactly once.

  /** Which of the first `n` cards went into card `k`. */
  function Sources(cards: seq<Card>, k: nat, n: nat): (r: seq<nat>)
    requires n <= |cards|
    ensures |r| == |FoldedInto(cards, k, n)|
    ensures forall i :: 0 <= i < |r| ==> r[i] < n && FoldedInto(cards, k, n)[i] == Stripped(cards[r[i]])
  {
    if n == 0 then [] else Sources(cards, k, n - 1) + if GoesInto(cards, n - 1, k) then [n - 1] else []
  }

  /** A folded card hangs once on its survivor and on no other card. */
  lemma FoldedOnce(cards: seq<Card>, k: nat, i: nat)
    requires i < |cards|
    ensures Distinct(Sources(cards, k, |cards|))
    ensures i in Sources(cards, k, |cards|) <==> GoesInto(cards, i, k)
  {
    SourcesAreDistinct(cards, k, |cards|);
    SourcesAre(cards, k, |cards|, i);
  }

  lemma {:induction false} SourcesAreDistinct(cards: seq<Card>, k: nat, n: nat)
    requires n <= |cards|
    ensures Distinct(Sources(cards, k, n))
  {
    if n > 0 {
      SourcesAreDistinct(cards, k, n - 1);
      SourcesBelow(cards, k, n - 1);
    }
  }

  lemma {:induction false} SourcesAre(cards: seq<Card>, k: nat, n: nat, i: nat)
    requires i < n <= |cards|
    ensures i in Sources(cards, k, n) <==> GoesInto(cards, i, k)
  {
    SourcesBelow(cards, k, n - 1);
    if i < n - 1 { SourcesAre(cards, k, n - 1, i); }
  }

  lemma SourcesBelow(cards: seq<Card>, k: nat, n: nat)
    requires n <= |cards|
    ensures forall i :: i in Sources(cards, k, n) ==> i < n
  {
  }

  lemma StandingBelow(cards: seq<Card>, n: nat)
    requires n <= |cards|
    ensures forall i :: i in Standing(cards, n) ==> i < n
  {
  }

  /** A card nothing replaces stands in the page once. */
  lemma {:induction false} StandingOnce(cards: seq<Card>, n: nat, i: nat)
    requires i < n <= |cards|
    ensures Distinct(Standing(cards, n)) && (i in Standing(cards, n) <==> !Folds(cards, i))
  {
    StandingBelow(cards, n - 1);
    if n > 1 { StandingOnce(cards, n - 1, if i < n - 1 then i else 0); }
  }

  // When a card is lost.

  /** A folded card whose survivor is itself folded hangs on nothing the page shows. */
  predicate Lost(cards: seq<Card>, i: nat)
    requires i < |cards|
  {
    Folds(cards, i) && Folds(cards, Survivor(cards, i))
  }

  /** A chain of replacements. */
  ghost predicate Chain(cards: seq<Card>, p: seq<nat>) {
    && (forall i :: 0 <= i < |p| ==> p[i] < |cards|)
    && (forall i :: 0 < i < |p| ==> Next(cards, p[i - 1]) == Some(p[i]))
  }

  /** Following the replacements of `i` comes back to a card it has been through. */
  ghost predicate ComesBack(cards: seq<Card>, i: nat) {
    exists p :: Returns(cards, i, p)
  }

  ghost predicate Returns(cards: seq<Card>, i: nat, p: seq<nat>) {
    |p| >= 2 && p[0] == i && Chain(cards, p) && p[|p| - 1] in p[..|p| - 1]
  }

  lemma ChainWithoutReturnIsDistinct(cards: seq<Card>, i: nat, p: seq<nat>)
    requires Chain(cards, p) && p != [] && p[0] == i && !ComesBack(cards, i)
    ensures Distinct(p) && |p| <= |cards|
  {
    forall j, k | 0 <= j < k < |p| ensures p[j] != p[k] {
      if p[j] == p[k] {
        var q := p[..k + 1];
        assert q[..|q| - 1][j] == q[|q| - 1];
        assert Returns(cards, i, q);
      }
    }
    DistinctFit(p, Indices(|cards|));
  }

  /** Where no chain returns, the climb ends at a card nothing replaces. */
  lemma {:induction false} ClimbArrives(cards: seq<Card>, i: nat, p: seq<nat>, seen: nat)
    requires Chain(cards, p) && p != [] && p[0] == i && !ComesBack(cards, i) && |p| > seen
    ensures Next(cards, Climb(cards, p[|p| - 1], seen)).None?
    decreases |cards| - |p|
  {
    ChainWithoutReturnIsDistinct(cards, i, p);
    var c := p[|p| - 1];
    if Next(cards, c).Some? {
      var q := p + [Next(cards, c).value];
      assert Chain(cards, q);
      ChainWithoutReturnIsDistinct(cards, i, q);
      assert q[|p|] != q[|p| - 1];
      ClimbArrives(cards, i, q, seen + 1);
    }
  }

  /** Where a chain returns, the climb never leaves its cards, and each of them is replaced. */
  lemma {:induction false} ClimbStays(cards: seq<Card>, p: seq<nat>, c: nat, seen: nat)
    requires Chain(cards, p) && |p| >= 2 && p[|p| - 1] in p[..|p| - 1] && c in p
    ensures Climb(cards, c, seen) in p
    decreases |cards| + 1 - seen
  {
    NextStays(cards, p, c);
    var j := Next(cards, c).value;
    if j != c && seen + 1 <= |cards| { ClimbStays(cards, p, j, seen + 1); }
  }

  lemma NextStays(cards: seq<Card>, p: seq<nat>, c: nat)
    requires Chain(cards, p) && |p| >= 2 && p[|p| - 1] in p[..|p| - 1] && c in p
    ensures c < |cards| && Next(cards, c).Some? && Next(cards, c).value in p
  {
    var i :| 0 <= i < |p| && p[i] == c;
    if i == |p| - 1 {
      var k :| 0 <= k < |p| - 1 && p[..|p| - 1][k] == p[|p| - 1];
      assert Next(cards, p[k]) == Some(p[k + 1]);
    } else {
      assert Next(cards, p[i]) == Some(p[i + 1]);
    }
  }

  /**
   * A folded card is lost exactly when following its replacements comes back to a card.
   * An empty path is never listed as replaced, as the registry's entries are realm paths.
   */
  lemma LostExactlyWhenCircular(cards: seq<Card>, i: nat)
    requires i < |cards| && Folds(cards, i)
    requires forall k :: 0 <= k < |cards| ==> "" !in cards[k].supersedes
    ensures Lost(cards, i) <==> ComesBack(cards, i)
  {
    var j := Next(cards, i).value;
    if ComesBack(cards, i) {
      var p :| Returns(cards, i, p);
      assert p[0] in p;
      NextStays(cards, p, i);
      ClimbStays(cards, p, j, 0);
      NextStays(cards, p, Survivor(cards, i));
    } else {
      KeptWhenNotCircular(cards, i);
    }
  }

  /** And whatever the lists hold, a card is kept when nothing is circular from it. */
  lemma KeptWhenNotCircular(cards: seq<Card>, i: nat)
    requires i < |cards| && Folds(cards, i) && !ComesBack(cards, i)
    ensures !Lost(cards, i)
  {
    assert Chain(cards, [i, Next(cards, i).value]);
    ClimbArrives(cards, i, [i, Next(cards, i).value], 0);
  }

  /** A card that is not lost is on the page once: standing itself, or hanging on one standing card and on no other. */
  lemma EveryCardOnce(cards: seq<Card>, i: nat)
    requires i < |cards| && !Lost(cards, i)
    ensures var page := Standing(cards, |cards|);
      if Folds(cards, i)
      then i !in page && Survivor(cards, i) in page && forall k :: i in Sources(cards, k, |cards|) <==> k == Survivor(cards, i)
      else i in page && forall k :: i !in Sources(cards, k, |cards|)
  {
    StandingOnce(cards, |cards|, i);
    forall k ensures i in Sources(cards, k, |cards|) <==> GoesInto(cards, i, k) {
      FoldedOnce(cards, k, i);
    }
    if Folds(cards, i) { StandingOnce(cards, |cards|, Survivor(cards, i)); }
  }

  // Derived edges never make a card circular by themselves.

  /** A strict order on the cards. */
  ghost predicate StrictOrder(r: (nat, nat) -> bool) {
    (forall a :: !r(a, a)) && (forall a, b, c :: r(a, b) && r(b, c) ==> r(a, c))
  }

  /** The order agrees with the curated lists and with the generations of each family. */
  ghost predicate Agrees(cards: seq<Card>, r: (nat, nat) -> bool) {
    && (forall i, j :: 0 <= i < |cards| && 0 <= j < |cards| && cards[j].path in cards[i].supersedes ==> r(i, j))
    && (forall i, j :: 0 <= i < |cards| && 0 <= j < |cards| && Later(cards, i, j) ==> r(i, j))
  }

  /** The cards' paths and lists as the derived edges leave them, whatever else became of the cards. */
  ghost predicate Wired(cards: seq<Card>, edges: seq<Edge>, after: seq<Card>)
    requires AllInside(cards, edges)
  {
    |after| == |cards| && forall k :: 0 <= k < |cards| ==>
      after[k].path == cards[k].path && after[k].supersedes == Linked(cards, edges)[k].supersedes
  }

  lemma DerivedStepsClimb(cards: seq<Card>, edges: seq<Edge>, after: seq<Card>, r: (nat, nat) -> bool, i: nat, j: nat)
    requires Sound(cards, edges) && Wired(cards, edges, after) && Agrees(cards, r)
    requires i < |cards| && Next(after, i) == Some(j)
    ensures r(j, i)
  {
    ListsAfter(cards, edges, j, after[i].path);
    ListsAfter(cards, edges, i, "");
    if cards[i].path !in cards[j].supersedes {
      var k :| 0 <= k < |edges| && edges[k].newer == j && cards[edges[k].older].path == cards[i].path;
      assert Later(cards, j, i);
    }
  }

  lemma {:induction false} ChainClimbs(cards: seq<Card>, edges: seq<Edge>, after: seq<Card>, r: (nat, nat) -> bool, p: seq<nat>, a: nat, b: nat)
    requires Sound(cards, edges) && Wired(cards, edges, after) && Agrees(cards, r) && StrictOrder(r)
    requires Chain(after, p) && a < b < |p|
    ensures r(p[b], p[a])
    decreases b
  {
    DerivedStepsClimb(cards, edges, after, r, p[b - 1], p[b]);
    if a < b - 1 { ChainClimbs(cards, edges, after, r, p, a, b - 1); }
  }

  /**
   * No card is lost by deriving and folding: if some strict order agrees with the curated lists and the
   * generations, every folded card hangs on one the page shows.
   */
  lemma DerivingLosesNoCard(cards: seq<Card>, edges: seq<Edge>, after: seq<Card>, r: (nat, nat) -> bool, i: nat)
    requires Sound(cards, edges) && Wired(cards, edges, after) && Agrees(cards, r) && StrictOrder(r)
    requires i < |after| && Folds(after, i)
    ensures !Lost(after, i)
  {
    if ComesBack(after, i) {
      var p :| Returns(after, i, p);
      var k :| 0 <= k < |p| - 1 && p[..|p| - 1][k] == p[|p| - 1];
      ChainClimbs(cards, edges, after, r, p, k, |p| - 1);
    }
    KeptWhenNotCircular(after, i);
  }

  /** Without curated lists nothing more is needed. */
  lemma DerivedAloneLosesNoCard(cards: seq<Card>, edges: seq<Edge>, after: seq<Card>, i: nat)
    requires Sound(cards, edges) && Wired(cards, edges, after) && forall k :: 0 <= k < |cards| ==> cards[k].supersedes == []
    requires i < |after| && Folds(after, i)
    ensures !Lost(after, i)
  {
    var r := (a: nat, b: nat) => Later(cards, a, b);
    forall a: nat ensures !r(a, a) {
      if r(a, a) { GenerationNotBeforeItself(Generation(cards[a].path).value.gen); }
    }
    forall a: nat, b: nat, c: nat | r(a, b) && r(b, c) ensures r(a, c) {
      var x, y, z := Generation(cards[a].path).value.gen, Generation(cards[b].path).value.gen, Generation(cards[c].path).value.gen;
      LessIsEarlier(z, y);
      LessIsEarlier(y, x);
      LessIsEarlier(z, x);
      EarlierIsTransitive(z, y, x);
    }
    DerivingLosesNoCard(cards, edges, after, r, i);
  }

  lemma GenerationNotBeforeItself(g: seq<nat>)
    ensures !Less(g, g)
  {
    LessIsEarlier(g, g);
    EarlierIsStrict(g, g);
  }

  // Deriving and folding, over the lists as they were before.

  ghost predicate DerivedInto(cards: seq<Card>, e: Edge, x: string) {
    Inside(cards, e) && Justified(cards, e) && cards[e.older].path == x
  }

  /** Who will replace a path: the last card whose own list names it, or else the next generation of the card it is. */
  ghost function Planned(cards: seq<Card>, x: string): (r: Option<nat>)
    ensures r.Some? ==> r.value < |cards|
  {
    var listed := Replacer(cards, x, |cards|);
    if listed.Some? then listed
    else if exists e :: DerivedInto(cards, e, x) then (var e :| DerivedInto(cards, e, x); Some(e.newer))
    else None
  }

  /** Following those from card `i` comes back to a card. */
  ghost predicate PlanReturns(cards: seq<Card>, i: nat, p: seq<nat>) {
    && |p| >= 2 && p[0] == i && p[|p| - 1] in p[..|p| - 1]
    && (forall k :: 0 <= k < |p| ==> p[k] < |cards|)
    && (forall k :: 0 < k < |p| ==> Planned(cards, cards[p[k - 1]].path) == Some(p[k]))
  }

  ghost predicate PlanIsCircular(cards: seq<Card>, i: nat) {
    exists p :: PlanReturns(cards, i, p)
  }

  lemma {:induction false} ReplacerIsLast(cards: seq<Card>, x: string, n: nat, k: nat)
    requires k < n <= |cards| && x in cards[k].supersedes && forall j :: k < j < n ==> x !in cards[j].supersedes
    ensures Replacer(cards, x, n) == Some(k)
  {
    if k < n - 1 { ReplacerIsLast(cards, x, n - 1, k); }
  }

  lemma OneDerivedInto(cards: seq<Card>, d: Edge, e: Edge, x: string)
    requires DerivedInto(cards, d, x) && DerivedInto(cards, e, x)
    ensures d == e
  {
    OneEdgeIntoPath(cards, d, e);
  }

  lemma ListedHasNoEdge(cards: seq<Card>, e: Edge, x: string, k: nat)
    requires k < |cards| && x in cards[k].supersedes
    ensures !DerivedInto(cards, e, x)
  {
    ListedIsClaimed(cards, k, x);
  }

  lemma PlannedByEdge(cards: seq<Card>, e: Edge, x: string)
    requires Replacer(cards, x, |cards|).None? && DerivedInto(cards, e, x)
    ensures Planned(cards, x) == Some(e.newer)
  {
    var d :| DerivedInto(cards, d, x) && Planned(cards, x) == Some(d.newer);
    OneDerivedInto(cards, d, e, x);
  }

  /** The last list to name a path, when the edges `into` it are written into the lists. */
  lemma ReplacerWithEdge(cards: seq<Card>, after: seq<Card>, x: string, into: iset<Edge>)
    requires |after| == |cards|
    requires forall k :: 0 <= k < |cards| ==>
      (x in after[k].supersedes <==> x in cards[k].supersedes || exists e :: e in into && e.newer == k)
    requires forall e :: e in into ==> e.newer < |cards|
    requires forall d, e :: d in into && e in into ==> d == e
    requires forall k, e :: 0 <= k < |cards| && x in cards[k].supersedes ==> e !in into
    ensures Replacer(cards, x, |cards|).Some? ==> Replacer(after, x, |after|) == Replacer(cards, x, |cards|)
    ensures forall e :: e in into ==> Replacer(after, x, |after|) == Some(e.newer)
    ensures Replacer(cards, x, |cards|).None? && into == iset{} ==> Replacer(after, x, |after|).None?
  {
    forall e | e in into ensures Replacer(after, x, |after|) == Some(e.newer) {
      ReplacerIsLast(after, x, |after|, e.newer);
    }
    if into == iset{} { ReplacerKeepsLast(cards, after, x, |cards|); }
  }

  ghost function Into(cards: seq<Card>, x: string): iset<Edge> { iset e | DerivedInto(cards, e, x) }

  lemma PlannedIs(cards: seq<Card>, x: string)
    ensures Replacer(cards, x, |cards|).Some? ==> Planned(cards, x) == Replacer(cards, x, |cards|) && Into(cards, x) == iset{}
    ensures forall e :: Replacer(cards, x, |cards|).None? && e in Into(cards, x) ==> Planned(cards, x) == Some(e.newer)
    ensures Replacer(cards, x, |cards|).None? && Into(cards, x) == iset{} ==> Planned(cards, x).None?
    ensures forall k, e :: 0 <= k < |cards| && x in cards[k].supersedes ==> e !in Into(cards, x)
    ensures forall d, e :: d in Into(cards, x) && e in Into(cards, x) ==> d == e
    ensures forall e :: e in Into(cards, x) ==> e.newer < |cards|
  {
    forall e | Replacer(cards, x, |cards|).None? && DerivedInto(cards, e, x) ensures Planned(cards, x) == Some(e.newer) {
      PlannedByEdge(cards, e, x);
    }
    forall k, e | 0 <= k < |cards| && x in cards[k].supersedes ensures !DerivedInto(cards, e, x) {
      ListedHasNoEdge(cards, e, x, k);
    }
    forall d, e | DerivedInto(cards, d, x) && DerivedInto(cards, e, x) ensures d == e {
      OneDerivedInto(cards, d, e, x);
    }
    if Planned(cards, x).Some? && Replacer(cards, x, |cards|).None? {
      var e :| DerivedInto(cards, e, x);
      assert e in Into(cards, x);
    }
  }

  /** After deriving, a card's replacement is the planned one. */
  lemma NextIsPlanned(cards: seq<Card>, edges: seq<Edge>, after: seq<Card>, i: nat)
    requires Exact(cards, edges) && Wired(cards, edges, after) && i < |cards|
    ensures Next(after, i) == Planned(cards, cards[i].path)
  {
    var x := cards[i].path;
    var into := Into(cards, x);
    forall k | 0 <= k < |cards|
      ensures x in after[k].supersedes <==> x in cards[k].supersedes || exists e :: e in into && e.newer == k
    {
      ListsAfterNames(cards, edges, k, x);
    }
    PlannedIs(cards, x);
    ReplacerWithEdge(cards, after, x, into);
    if into != iset{} {
      var e :| e in into;
      assert Replacer(after, x, |after|) == Some(e.newer);
    }
  }

  lemma {:induction false} ReplacerKeepsLast(a: seq<Card>, b: seq<Card>, x: string, n: nat)
    requires n <= |a| == |b| && forall k :: 0 <= k < |a| ==> (x in a[k].supersedes <==> x in b[k].supersedes)
    ensures Replacer(a, x, n) == Replacer(b, x, n)
  {
    if n > 0 { ReplacerKeepsLast(a, b, x, n - 1); }
  }

  lemma ListsAfterNames(cards: seq<Card>, edges: seq<Edge>, k: nat, x: string)
    requires Exact(cards, edges) && k < |cards|
    ensures x in Linked(cards, edges)[k].supersedes <==>
      x in cards[k].supersedes || exists e :: e in Into(cards, x) && e.newer == k
  {
    ListsAfter(cards, edges, k, x);
    if exists j :: 0 <= j < |edges| && edges[j].newer == k && cards[edges[j].older].path == x {
      var j :| 0 <= j < |edges| && edges[j].newer == k && cards[edges[j].older].path == x;
      assert DerivedInto(cards, edges[j], x) && edges[j] in Into(cards, x);
    }
    if exists e :: e in Into(cards, x) && e.newer == k {
      var e :| e in Into(cards, x) && e.newer == k;
      assert DerivedInto(cards, e, x);
      var j :| 0 <= j < |edges| && edges[j] == e;
    }
  }

  lemma NoGenerationWithoutPath()
    ensures Generation("").None?
  {
    assert Trim("") == "" && Segments("") == [""];
  }

  /**
   Deriving and then folding lose a card exactly when following, from it, the
   lists as they were and the next generations comes back to a card.
   */
  lemma LostExactlyWhenPlanIsCircular(cards: seq<Card>, edges: seq<Edge>, after: seq<Card>, i: nat)
    requires Exact(cards, edges) && Wired(cards, edges, after) && i < |cards|
    requires forall k :: 0 <= k < |cards| ==> "" !in cards[k].supersedes
    ensures Lost(after, i) <==> cards[i].path != "" && PlanIsCircular(cards, i)
  {
    forall k | 0 <= k < |cards| ensures "" !in after[k].supersedes && Next(after, k) == Planned(cards, cards[k].path) {
      NextIsPlanned(cards, edges, after, k);
      ListsAfterNames(cards, edges, k, "");
      NoGenerationWithoutPath();
    }
    forall p ensures Returns(after, i, p) <==> PlanReturns(cards, i, p) {
      SameReturns(cards, after, i, p);
    }
    if Folds(after, i) { LostExactlyWhenCircular(after, i); }
    if PlanIsCircular(cards, i) {
      var p :| PlanReturns(cards, i, p);
      assert Planned(cards, cards[p[0]].path) == Some(p[1]);
    }
  }

  lemma SameReturns(cards: seq<Card>, after: seq<Card>, i: nat, p: seq<nat>)
    requires |after| == |cards| && forall k :: 0 <= k < |cards| ==> Next(after, k) == Planned(cards, cards[k].path)
    ensures Returns(after, i, p) <==> PlanReturns(cards, i, p)
  {
  }

  lemma PathsOfTwo(cards: seq<Card>)
    requires TwoGenerations(cards)
    ensures cards[0].path != "" && cards[1].path != "" && cards[0].path != cards[1].path
  {
    NoGenerationWithoutPath();
    GenerationNotBeforeItself(Generation(cards[0].path).value.gen);
  }

  /** The first generation's list names the second, and the second's names nothing. */
  predicate NamesItsSuccessor(cards: seq<Card>) {
    |cards| == 2 && cards[0].supersedes == [cards[1].path] && cards[1].supersedes == []
  }

  lemma UnlistedIsUnclaimed(cards: seq<Card>, x: string)
    requires forall k :: 0 <= k < |cards| ==> x !in cards[k].supersedes
    ensures x !in Claimed(cards) && Replacer(cards, x, |cards|).None?
  {
    forall c | c in cards ensures x !in c.supersedes {
      var k :| 0 <= k < |cards| && cards[k] == c;
    }
  }

  lemma PlanOfTwo(cards: seq<Card>)
    requires TwoGenerations(cards) && NamesItsSuccessor(cards)
    ensures Planned(cards, cards[0].path) == Some(1) && Planned(cards, cards[1].path) == Some(0)
    ensures cards[0].path != "" && cards[1].path != ""
  {
    PathsOfTwo(cards);
    UnlistedIsUnclaimed(cards, cards[0].path);
    TwoAreLinked(cards);
    PlannedByEdge(cards, Edge(1, 0), cards[0].path);
    ReplacerIsLast(cards, cards[1].path, |cards|, 0);
  }

  lemma PlanOfTwoIsCircular(cards: seq<Card>, i: nat)
    requires |cards| == 2 && i < 2 && Planned(cards, cards[0].path) == Some(1) && Planned(cards, cards[1].path) == Some(0)
    ensures PlanIsCircular(cards, i)
  {
    var p := [i, 1 - i, i];
    assert p[..2][0] == i;
    assert PlanReturns(cards, i, p);
  }

  lemma CircularPairIsLost(cards: seq<Card>, edges: seq<Edge>, after: seq<Card>)
    requires NamesItsSuccessor(cards) && cards[0].path != "" && cards[1].path != ""
    requires Planned(cards, cards[0].path) == Some(1) && Planned(cards, cards[1].path) == Some(0)
    requires Exact(cards, edges) && Wired(cards, edges, after)
    ensures Lost(after, 0) && Lost(after, 1)
  {
    PlanOfTwoIsCircular(cards, 0);
    PlanOfTwoIsCircular(cards, 1);
    LostExactlyWhenPlanIsCircular(cards, edges, after, 0);
    LostExactlyWhenPlanIsCircular(cards, edges, after, 1);
  }

  /** Such lists: a first generation that names the second as replaced. Both cards vanish from the page. */
  lemma BothGenerationsAreLost(cards: seq<Card>, edges: seq<Edge>, after: seq<Card>)
    requires TwoGenerations(cards) && NamesItsSuccessor(cards) && Exact(cards, edges) && Wired(cards, edges, after)
    ensures Lost(after, 0) && Lost(after, 1)
  {
    PlanOfTwo(cards);
    CircularPairIsLost(cards, edges, after);
  }
}
