/** The app directory's cards, and the supersede edges their paths imply. */
module Cards {
  import opened Base
  import opened Generations
  import opened Sorting

  /** A text and the source it came from. */
  datatype Field = Field(text: string, from: string)

  datatype Card = Card(
    path: string, deployedAt: string,
    name: Field, description: Field, checked: string, website: Field, category: Field,
    communityURL: string, inheritedFrom: string,
    supersedes: seq<string>, supersedesFrom: string, previous: seq<Card>,
    covers: seq<string>, parts: seq<Card>)

  const CURATED := "curated"
  const DERIVED := "derived"

  function MergeProvenance(have: string, add: string): string {
    if have == "" || have == add then add else CURATED + "+" + DERIVED
  }

  /** The paths some card's list names as replaced. */
  function Claimed(cards: seq<Card>): set<string> {
    set c, s | c in cards && s in c.supersedes :: s
  }

  // Families.

  datatype Member = Member(card: nat, gen: seq<nat>)

  /** The cards of one family among the first `n`, with their generations. */
  function Members(cards: seq<Card>, family: string, n: nat): seq<Member>
    requires n <= |cards|
  {
    if n == 0 then []
    else
      var rest := Members(cards, family, n - 1);
      match Generation(cards[n - 1].path)
      case Some(p) => if p.family == family then rest + [Member(n - 1, p.gen)] else rest
      case None => rest
  }

  predicate ByGeneration(a: Member, b: Member) { Less(a.gen, b.gen) }

  /** One family, earlier generations first, equal ones as they stood. */
  function Line(cards: seq<Card>, family: string): seq<Member> {
    StableSort(ByGeneration, Members(cards, family, |cards|))
  }

  /** `newer` is a later generation of the family of `older`. */
  predicate Later(cards: seq<Card>, newer: nat, older: nat) {
    && newer < |cards| && older < |cards|
    && Generation(cards[newer].path).Some? && Generation(cards[older].path).Some?
    && var a, b := Generation(cards[newer].path).value, Generation(cards[older].path).value;
       a.family == b.family && Less(b.gen, a.gen)
  }

  /** The chain does not contradict it: no later number deployed earlier. */
  predicate InDateOrder(cards: seq<Card>, newer: nat, older: nat)
    requires newer < |cards| && older < |cards|
  {
    var a, b := cards[newer].deployedAt, cards[older].deployedAt;
    a == "" || b == "" || !Before(a, b)
  }

  // Edges.

  datatype Edge = Edge(newer: nat, older: nat)

  predicate Inside(cards: seq<Card>, e: Edge) { e.newer < |cards| && e.older < |cards| }

  ghost predicate AllInside(cards: seq<Card>, edges: seq<Edge>) {
    forall k :: 0 <= k < |edges| ==> Inside(cards, edges[k])
  }

  function Gained(c: Card, path: string): Card {
    c.(supersedes := c.supersedes + [path], supersedesFrom := MergeProvenance(c.supersedesFrom, DERIVED))
  }

  /** The cards once the edges are written into them, one after the other. */
  ghost function Linked(cards: seq<Card>, edges: seq<Edge>): (r: seq<Card>)
    requires AllInside(cards, edges)
    ensures |r| == |cards|
  {
    if edges == [] then cards
    else
      var k := |edges| - 1;
      var r := Linked(cards, edges[..k]);
      r[edges[k].newer := Gained(r[edges[k].newer], cards[edges[k].older].path)]
  }

  function Labelled(c: Card): Card {
    if c.supersedes != [] && c.supersedesFrom == "" then c.(supersedesFrom := CURATED) else c
  }

  ghost predicate Adjacent(line: seq<Member>, newer: nat, older: nat) {
    exists i :: 0 < i < |line| && line[i - 1].card == older && line[i].card == newer
  }

  /** Consecutive generations: neighbours in the line of their family. */
  ghost predicate Neighbours(cards: seq<Card>, newer: nat, older: nat) {
    && older < |cards| && Generation(cards[older].path).Some?
    && Adjacent(Line(cards, Generation(cards[older].path).value.family), newer, older)
  }

  /**
   A derived edge: between neighbours in their family's line, the newer one of a
   strictly later generation and deployed no earlier, and into a path no curated list replaces.
   */
  ghost predicate Justified(cards: seq<Card>, e: Edge) {
    && Neighbours(cards, e.newer, e.older)
    && Later(cards, e.newer, e.older) && InDateOrder(cards, e.newer, e.older) && cards[e.older].path !in Claimed(cards)
  }

  ghost predicate Sound(cards: seq<Card>, edges: seq<Edge>) {
    && (forall k :: 0 <= k < |edges| ==> Inside(cards, edges[k]) && Justified(cards, edges[k]))
    && (forall j, k :: 0 <= j < k < |edges| ==> cards[edges[j].older].path != cards[edges[k].older].path)
  }

  /** The edges are all of those, and no others. */
  ghost predicate Exact(cards: seq<Card>, edges: seq<Edge>) {
    Sound(cards, edges) && forall e :: Inside(cards, e) && Justified(cards, e) ==> e in edges
  }

  ghost function Replaced(cards: seq<Card>, edges: seq<Edge>): set<string>
    requires AllInside(cards, edges)
  {
    set k | 0 <= k < |edges| :: cards[edges[k].older].path
  }

  /** Two neighbours in a line: if they may be linked, the older one is replaced. */
  ghost predicate PairSettled(cards: seq<Card>, gone: set<string>, older: Member, newer: Member) {
    Later(cards, newer.card, older.card) && InDateOrder(cards, newer.card, older.card) ==> cards[older.card].path in gone
  }

  ghost predicate LineSettled(cards: seq<Card>, gone: set<string>, line: seq<Member>, n: nat) {
    forall i :: 0 < i < n && i < |line| ==> PairSettled(cards, gone, line[i - 1], line[i])
  }

  ghost predicate Settled(cards: seq<Card>, gone: set<string>, family: string) {
    LineSettled(cards, gone, Line(cards, family), |Members(cards, family, |cards|)|)
  }

  lemma StaysSettled(cards: seq<Card>, gone: set<string>, more: set<string>, line: seq<Member>, n: nat)
    requires LineSettled(cards, gone, line, n) && gone <= more
    ensures LineSettled(cards, more, line, n)
  {
    forall i | 0 < i < n && i < |line| ensures PairSettled(cards, more, line[i - 1], line[i]) {
      assert PairSettled(cards, gone, line[i - 1], line[i]);
    }
  }

  ghost predicate AreMembers(cards: seq<Card>, family: string, line: seq<Member>) {
    forall m :: m in line ==> m.card < |cards| && Generation(cards[m.card].path) == Some(Place(family, m.gen))
  }

  lemma {:induction false} MembersBelong(cards: seq<Card>, family: string, n: nat)
    requires n <= |cards|
    ensures AreMembers(cards, family, Members(cards, family, n))
  {
    if n > 0 { MembersBelong(cards, family, n - 1); }
  }

  lemma SameBagSameElements<T>(a: seq<T>, b: seq<T>, x: T)
    requires multiset(a) == multiset(b)
    ensures x in a <==> x in b
  {
    assert x in a <==> x in multiset(a);
    assert x in b <==> x in multiset(b);
  }

  lemma ByGenerationIsStrictWeak()
    ensures StrictWeak(ByGeneration)
  {
    forall a: Member, b: Member, c: Member ensures Lawful(ByGeneration, a, b, c) {
      LessIsEarlier(a.gen, b.gen);
      LessIsEarlier(b.gen, a.gen);
      LessIsEarlier(c.gen, b.gen);
      LessIsEarlier(a.gen, c.gen);
      EarlierIsStrict(a.gen, b.gen);
      if Earlier(a.gen, b.gen) && !Earlier(c.gen, b.gen) { NotEarlierThanLater(a.gen, b.gen, c.gen); }
    }
  }

  lemma NotEarlierThanLater(a: seq<nat>, b: seq<nat>, c: seq<nat>)
    requires Earlier(a, b) && !Earlier(c, b)
    ensures Earlier(a, c)
  {
    EarlierIsStrict(b, c);
    if Earlier(b, c) {
      EarlierIsTransitive(a, b, c);
    } else {
      var k: nat :| EarlierAt(a, b, k);
      assert EarlierAt(a, c, k);
    }
  }

  lemma LineBelongs(cards: seq<Card>, family: string)
    ensures AreMembers(cards, family, Line(cards, family))
  {
    var ms := Members(cards, family, |cards|);
    MembersBelong(cards, family, |cards|);
    ByGenerationIsStrictWeak();
    SortIsStable(ByGeneration, ms);
    forall m | m in Line(cards, family) ensures m in ms {
      SameBagSameElements(Line(cards, family), ms, m);
    }
  }

  lemma LineIsOrdered(cards: seq<Card>, family: string)
    ensures Ordered(ByGeneration, Line(cards, family))
  {
    ByGenerationIsStrictWeak();
    SortIsStable(ByGeneration, Members(cards, family, |cards|));
  }

  /** A path has at most one derived edge into it, even when several cards carry it. */
  lemma OneEdgeIntoPath(cards: seq<Card>, d: Edge, e: Edge)
    requires Inside(cards, d) && Inside(cards, e) && Justified(cards, d) && Justified(cards, e)
    requires cards[d.older].path == cards[e.older].path
    ensures d == e
  {
    var family := Generation(cards[d.older].path).value.family;
    var line := Line(cards, family);
    LineBelongs(cards, family);
    LineIsOrdered(cards, family);
    var i :| 0 < i < |line| && line[i - 1].card == d.older && line[i].card == d.newer;
    var j :| 0 < j < |line| && line[j - 1].card == e.older && line[j].card == e.newer;
    assert line[i - 1] in line && line[i] in line && line[j - 1] in line && line[j] in line;
    LastOfEqual(line, i, j);
    LastOfEqual(line, j, i);
  }

  /** In an ordered line only the last of several equal generations has a later neighbour. */
  lemma LastOfEqual(line: seq<Member>, i: nat, j: nat)
    requires Ordered(ByGeneration, line) && 0 < i < |line| && 0 < j < |line|
    ensures i < j ==> !(line[i - 1].gen == line[j - 1].gen && Less(line[i - 1].gen, line[i].gen))
  {
    LessIsEarlier(line[i - 1].gen, line[i - 1].gen);
    EarlierIsStrict(line[i - 1].gen, line[i - 1].gen);
    assert i < j - 1 ==> !ByGeneration(line[j - 1], line[i]);
  }

  /** What the pass leaves settled is linked. */
  lemma SettledIsExact(cards: seq<Card>, edges: seq<Edge>)
    requires Sound(cards, edges) && forall f :: Settled(cards, Claimed(cards) + Replaced(cards, edges), f)
    ensures Exact(cards, edges)
  {
    var gone := Claimed(cards) + Replaced(cards, edges);
    forall e | Inside(cards, e) && Justified(cards, e) ensures e in edges {
      var family := Generation(cards[e.older].path).value.family;
      var line := Line(cards, family);
      var i :| 0 < i < |line| && line[i - 1].card == e.older && line[i].card == e.newer;
      LineIsLong(cards, family);
      assert Settled(cards, gone, family) && PairSettled(cards, gone, line[i - 1], line[i]);
      var k :| 0 <= k < |edges| && cards[edges[k].older].path == cards[e.older].path;
      OneEdgeIntoPath(cards, edges[k], e);
    }
  }

  lemma LineIsLong(cards: seq<Card>, family: string)
    ensures |Line(cards, family)| == |Members(cards, family, |cards|)|
  {
  }

  // The pass itself.

  lemma ReplacedMore(cards: seq<Card>, edges: seq<Edge>, e: Edge)
    requires AllInside(cards, edges) && Inside(cards, e)
    ensures AllInside(cards, edges + [e])
    ensures Replaced(cards, edges + [e]) == Replaced(cards, edges) + {cards[e.older].path}
  {
    var more := edges + [e];
    forall s ensures s in Replaced(cards, more) <==> s in Replaced(cards, edges) + {cards[e.older].path} {
      if s in Replaced(cards, edges) {
        var k :| 0 <= k < |edges| && cards[edges[k].older].path == s;
        assert more[k] == edges[k];
      }
      if s == cards[e.older].path { assert more[|edges|] == e; }
    }
  }

  /** One more edge. */
  lemma LinkOne(cards: seq<Card>, edges: seq<Edge>, e: Edge)
    requires Sound(cards, edges) && Inside(cards, e) && Justified(cards, e)
    requires cards[e.older].path !in Replaced(cards, edges)
    ensures Sound(cards, edges + [e])
    ensures var r := Linked(cards, edges);
      Linked(cards, edges + [e]) == r[e.newer := Gained(r[e.newer], cards[e.older].path)]
  {
    var more := edges + [e];
    assert more[..|more| - 1] == edges;
    forall j, k | 0 <= j < k < |more| ensures cards[more[j].older].path != cards[more[k].older].path {
      if k == |edges| { assert cards[edges[j].older].path in Replaced(cards, edges); }
    }
  }

  /** What the pass has done so far. */
  ghost predicate SoFar(before: seq<Card>, now: seq<Card>, claimed: set<string>, edges: seq<Edge>) {
    Sound(before, edges) && now == Linked(before, edges) && claimed == Claimed(before) + Replaced(before, edges)
  }

  lemma {:induction false} LinkedKeepsDates(cards: seq<Card>, edges: seq<Edge>, i: nat)
    requires AllInside(cards, edges) && i < |cards|
    ensures Linked(cards, edges)[i].path == cards[i].path && Linked(cards, edges)[i].deployedAt == cards[i].deployedAt
  {
    if edges != [] { LinkedKeepsDates(cards, edges[..|edges| - 1], i); }
  }

  /** One turn of the inner loop: links two neighbours when nothing speaks against it. */
  method LinkPair(cards: array<Card>, claimed0: set<string>, older: Member, newer: Member, ghost before: seq<Card>, ghost edges0: seq<Edge>)
    returns (claimed: set<string>, ghost edges: seq<Edge>)
    requires SoFar(before, cards[..], claimed0, edges0) && older.card < |before| && newer.card < |before|
    requires Neighbours(before, newer.card, older.card) && (Later(before, newer.card, older.card) <==> Less(older.gen, newer.gen))
    modifies cards
    ensures SoFar(before, cards[..], claimed, edges) && claimed0 <= claimed
    ensures PairSettled(before, claimed, older, newer)
  {
    claimed, edges := claimed0, edges0;
    var less := ComputeLess(older.gen, newer.gen);
    LessIsEarlier(older.gen, newer.gen);
    LinkedKeepsDates(before, edges, older.card);
    LinkedKeepsDates(before, edges, newer.card);
    var o, n := cards[older.card], cards[newer.card];
    assert o == cards[..][older.card] && n == cards[..][newer.card];
    if less && o.path !in claimed && !(n.deployedAt != "" && o.deployedAt != "" && Before(n.deployedAt, o.deployedAt)) {
      ghost var e := Edge(newer.card, older.card);
      LinkOne(before, edges, e);
      ReplacedMore(before, edges, e);
      cards[newer.card] := Gained(n, o.path);
      claimed := claimed + {o.path};
      edges := edges + [e];
    }
  }

  /** The inner loop, along one family's line. */
  method LinkLine(cards: array<Card>, claimed0: set<string>, ms: seq<Member>, ghost family: string, ghost before: seq<Card>, ghost edges0: seq<Edge>)
    returns (claimed: set<string>, ghost edges: seq<Edge>)
    requires SoFar(before, cards[..], claimed0, edges0) && ms == Line(before, family)
    modifies cards
    ensures SoFar(before, cards[..], claimed, edges) && claimed0 <= claimed && LineSettled(before, claimed, ms, |ms|)
  {
    claimed, edges := claimed0, edges0;
    LineBelongs(before, family);
    var i := 1;
    while i < |ms|
      invariant SoFar(before, cards[..], claimed, edges) && claimed0 <= claimed && LineSettled(before, claimed, ms, i) && i >= 1
    {
      LaterInLine(before, family, ms, i);
      ghost var was := claimed;
      claimed, edges := LinkPair(cards, claimed, ms[i - 1], ms[i], before, edges);
      StaysSettled(before, was, claimed, ms, i);
      i := i + 1;
    }
  }

  lemma LaterInLine(cards: seq<Card>, family: string, ms: seq<Member>, i: nat)
    requires AreMembers(cards, family, ms) && ms == Line(cards, family) && 0 < i < |ms|
    ensures ms[i - 1].card < |cards| && ms[i].card < |cards|
    ensures Later(cards, ms[i].card, ms[i - 1].card) <==> Less(ms[i - 1].gen, ms[i].gen)
    ensures Neighbours(cards, ms[i].card, ms[i - 1].card)
  {
    assert ms[i - 1] in ms && ms[i] in ms;
  }

  /** The families met among the first `n` cards. */
  ghost predicate Grouped(cards: seq<Card>, n: nat, families: map<string, seq<Member>>, names: seq<string>)
    requires n <= |cards|
  {
    && (forall f :: f in families <==> f in names)
    && (forall f :: Members(cards, f, n) == if f in families then families[f] else [])
  }

  /** One more card of a family. */
  function Joined(families: map<string, seq<Member>>, f: string, m: Member): map<string, seq<Member>> {
    families[f := (if f in families then families[f] else []) + [m]]
  }

  lemma GroupOne(cards: seq<Card>, n: nat, families: map<string, seq<Member>>, names: seq<string>)
    requires n < |cards| && Grouped(cards, n, families, names)
    ensures match Generation(cards[n].path)
      case None => Grouped(cards, n + 1, families, names)
      case Some(p) =>
        Grouped(cards, n + 1, Joined(families, p.family, Member(n, p.gen)), if p.family in families then names else names + [p.family])
  {
  }

  /** The first loop: groups the cards by family. */
  method Group(cards: seq<Card>) returns (families: map<string, seq<Member>>, names: seq<string>)
    ensures Grouped(cards, |cards|, families, names)
  {
    families, names := map[], [];
    for i := 0 to |cards|
      invariant Grouped(cards, i, families, names)
    {
      GroupOne(cards, i, families, names);
      var place := ComputeGeneration(cards[i].path);
      if place.Some? {
        var f := place.value.family;
        if f !in families { names := names + [f]; }
        families := Joined(families, f, Member(i, place.value.gen));
      }
    }
  }

  ghost predicate Filed(cards: seq<Card>, families: map<string, seq<Member>>, f: string) {
    f in families && families[f] == Members(cards, f, |cards|)
  }

  /** The middle loop: every family in turn. */
  method LinkAll(cards: array<Card>, families: map<string, seq<Member>>, names: seq<string>, ghost before: seq<Card>)
    returns (claimed: set<string>, ghost edges: seq<Edge>)
    requires before == cards[..] && forall j :: 0 <= j < |names| ==> Filed(before, families, names[j])
    modifies cards
    ensures SoFar(before, cards[..], claimed, edges) && AllSettled(before, claimed, names, |names|)
  {
    edges := [];
    claimed := Claimed(cards[..]);
    NothingYet(before);
    for k := 0 to |names|
      invariant SoFar(before, cards[..], claimed, edges) && AllSettled(before, claimed, names, k)
    {
      assert Filed(before, families, names[k]);
      ghost var was := claimed;
      claimed, edges := LinkFamily(cards, claimed, families[names[k]], names[k], before, edges);
      assert claimed >= was;
      AllStaySettled(before, was, claimed, names, k);
      OneMoreSettled(before, claimed, names, k);
    }
  }

  lemma NothingYet(cards: seq<Card>)
    ensures SoFar(cards, cards, Claimed(cards), [])
  {
    assert Replaced(cards, []) == {};
  }

  ghost predicate AllSettled(cards: seq<Card>, gone: set<string>, names: seq<string>, n: nat) {
    forall j :: 0 <= j < n && j < |names| ==> Settled(cards, gone, names[j])
  }

  lemma AllStaySettled(cards: seq<Card>, gone: set<string>, more: set<string>, names: seq<string>, n: nat)
    requires AllSettled(cards, gone, names, n) && gone <= more
    ensures AllSettled(cards, more, names, n)
  {
    forall j | 0 <= j < n && j < |names| ensures Settled(cards, more, names[j]) {
      StaysSettled(cards, gone, more, Line(cards, names[j]), |Members(cards, names[j], |cards|)|);
    }
  }

  lemma OneMoreSettled(cards: seq<Card>, gone: set<string>, names: seq<string>, n: nat)
    requires AllSettled(cards, gone, names, n) && n < |names| && Settled(cards, gone, names[n])
    ensures AllSettled(cards, gone, names, n + 1)
  {
  }

  /** One family, if it has generations to link. */
  method LinkFamily(cards: array<Card>, claimed0: set<string>, ms: seq<Member>, ghost family: string, ghost before: seq<Card>, ghost edges0: seq<Edge>)
    returns (claimed: set<string>, ghost edges: seq<Edge>)
    requires SoFar(before, cards[..], claimed0, edges0) && ms == Members(before, family, |before|)
    modifies cards
    ensures SoFar(before, cards[..], claimed, edges) && claimed0 <= claimed && Settled(before, claimed, family)
  {
    claimed, edges := claimed0, edges0;
    LineIsLong(before, family);
    if |ms| >= 2 {
      claimed, edges := LinkLine(cards, claimed, StableSort(ByGeneration, ms), family, before, edges);
    }
  }

  /** `deriveGenerations`: the edges written into the lists are exactly those between consecutive generations that nothing speaks against. */
  method DeriveGenerations(cards: array<Card>) returns (ghost edges: seq<Edge>)
    modifies cards
    ensures Exact(old(cards[..]), edges)
    ensures forall i :: 0 <= i < cards.Length ==> cards[i] == Labelled(Linked(old(cards[..]), edges)[i])
  {
    ghost var before := cards[..];
    var families, names := Group(cards[..]);
    var sorted := new string[|names|](i requires 0 <= i < |names| => names[i]);
    assert sorted[..] == names;
    SortStrings(sorted);
    var claimed;
    forall j | 0 <= j < |sorted[..]| ensures Filed(before, families, sorted[..][j]) {
      assert sorted[..][j] in sorted[..];
    }
    claimed, edges := LinkAll(cards, families, sorted[..], before);
    forall f ensures Settled(before, Claimed(before) + Replaced(before, edges), f) {
      if f in names {
        var j :| 0 <= j < |sorted[..]| && sorted[..][j] == f;
      }
    }
    SettledIsExact(before, edges);
    LabelAll(cards);
  }

  /** The last loop: lists nothing was derived for are curated. */
  method LabelAll(cards: array<Card>)
    modifies cards
    ensures forall i :: 0 <= i < cards.Length ==> cards[i] == Labelled(old(cards[i]))
  {
    for i := 0 to cards.Length
      invariant forall k :: 0 <= k < i ==> cards[k] == Labelled(old(cards[k]))
      invariant forall k :: i <= k < cards.Length ==> cards[k] == old(cards[k])
    {
      cards[i] := Labelled(cards[i]);
    }
  }

  // What the edges mean.

  /** A list after the pass: the curated paths and those of the derived edges. Nothing else of the card changes but the label. */
  lemma {:induction false} ListsAfter(cards: seq<Card>, edges: seq<Edge>, i: nat, s: string)
    requires AllInside(cards, edges) && i < |cards|
    ensures var r := Linked(cards, edges)[i];
      && r == cards[i].(supersedes := r.supersedes, supersedesFrom := r.supersedesFrom)
      && (s in r.supersedes <==>
            s in cards[i].supersedes || exists k :: 0 <= k < |edges| && edges[k].newer == i && cards[edges[k].older].path == s)
    decreases |edges|
  {
    if edges != [] {
      var k := |edges| - 1;
      ListsAfter(cards, edges[..k], i, s);
      if exists j :: 0 <= j < k && edges[j].newer == i && cards[edges[j].older].path == s {
        var j :| 0 <= j < k && edges[j].newer == i && cards[edges[j].older].path == s;
        assert edges[..k][j] == edges[j];
      }
    }
  }

  lemma ListedIsClaimed(cards: seq<Card>, i: nat, s: string)
    requires i < |cards| && s in cards[i].supersedes
    ensures s in Claimed(cards)
  {
    assert cards[i] in cards;
  }

  /** A path with a derived edge has one answer to what replaced it, and no curated list had one. */
  lemma OneReplacement(cards: seq<Card>, edges: seq<Edge>, k: nat, i: nat)
    requires Sound(cards, edges) && k < |edges| && i < |cards|
    ensures cards[edges[k].older].path in Linked(cards, edges)[i].supersedes <==> i == edges[k].newer
    ensures cards[edges[k].older].path !in cards[i].supersedes
  {
    var s := cards[edges[k].older].path;
    if s in cards[i].supersedes { ListedIsClaimed(cards, i, s); }
    ListsAfter(cards, edges, i, s);
  }

  predicate Gains(edges: seq<Edge>, i: nat) {
    exists k :: 0 <= k < |edges| && edges[k].newer == i
  }

  /**
   * No list starts out with a label, so one that mixes curated and derived paths is labelled as derived
   * only: the label for both, which the code has, never comes about.
   */
  lemma {:induction false} LabelsNeverSayBoth(cards: seq<Card>, edges: seq<Edge>, i: nat)
    requires AllInside(cards, edges) && i < |cards| && cards[i].supersedesFrom == ""
    ensures Linked(cards, edges)[i].supersedesFrom == if Gains(edges, i) then DERIVED else ""
    decreases |edges|
  {
    if edges != [] {
      var k := |edges| - 1;
      LabelsNeverSayBoth(cards, edges[..k], i);
      if Gains(edges[..k], i) {
        var j :| 0 <= j < k && edges[..k][j].newer == i;
        assert edges[j].newer == i;
      }
      if Gains(edges, i) && edges[k].newer != i {
        var j :| 0 <= j < |edges| && edges[j].newer == i;
        assert edges[..k][j].newer == i;
      }
    }
  }

  /** Card `i` is the later of two consecutive generations that are to be linked. */
  ghost predicate WillGain(cards: seq<Card>, i: nat) {
    exists e :: Inside(cards, e) && Justified(cards, e) && e.newer == i
  }

  lemma GainsAsForetold(cards: seq<Card>, edges: seq<Edge>, i: nat)
    requires Exact(cards, edges) && i < |cards|
    ensures Gains(edges, i) <==> WillGain(cards, i)
  {
    if Gains(edges, i) {
      var k :| 0 <= k < |edges| && edges[k].newer == i;
      assert Inside(cards, edges[k]) && Justified(cards, edges[k]);
    }
  }

  lemma LabelFollowsGains(cards: seq<Card>, edges: seq<Edge>, i: nat)
    requires AllInside(cards, edges) && i < |cards| && cards[i].supersedesFrom == ""
    ensures Labelled(Linked(cards, edges)[i]).supersedesFrom ==
      if Gains(edges, i) then DERIVED else if cards[i].supersedes != [] then CURATED else ""
  {
    LabelsNeverSayBoth(cards, edges, i);
    GrowsByEdges(cards, edges, i);
  }

  /**
   The label is right exactly when the card's list was empty, or the card does
   not follow a generation that nobody's list replaces.
   */
  lemma LabelIsHonestExactlyWhenPure(cards: seq<Card>, edges: seq<Edge>, i: nat)
    requires Exact(cards, edges) && i < |cards| && cards[i].supersedesFrom == ""
    ensures Labelled(Linked(cards, edges)[i]).supersedesFrom == HonestLabel(cards[i].supersedes != [], WillGain(cards, i))
      <==> !(cards[i].supersedes != [] && WillGain(cards, i))
  {
    LabelFollowsGains(cards, edges, i);
    GainsAsForetold(cards, edges, i);
  }

  function HonestLabel(curated: bool, derived: bool): string {
    if curated && derived then CURATED + "+" + DERIVED else if derived then DERIVED else if curated then CURATED else ""
  }

  lemma {:induction false} GrowsByEdges(cards: seq<Card>, edges: seq<Edge>, i: nat)
    requires AllInside(cards, edges) && i < |cards|
    ensures Linked(cards, edges)[i].supersedes == [] <==> cards[i].supersedes == [] && !Gains(edges, i)
    decreases |edges|
  {
    if edges != [] {
      var k := |edges| - 1;
      GrowsByEdges(cards, edges[..k], i);
      if Gains(edges[..k], i) {
        var j :| 0 <= j < k && edges[..k][j].newer == i;
        assert edges[j].newer == i;
      }
      if Gains(edges, i) && edges[k].newer != i {
        var j :| 0 <= j < |edges| && edges[j].newer == i;
        assert edges[..k][j].newer == i;
      }
    }
  }

  // Two generations.

  const FIRST := "g/r/n/a1"
  const SECOND := "g/r/n/a2"

  lemma SmallPart(seg: string, d: char)
    requires IsDigit(d) && seg == "a" + [d]
    ensures SplitGeneration(seg) == Part("a", d as int - '0' as int)
  {
    var digits := seg[1..];
    assert digits == [d] && digits[..|digits| - 1] == "" && seg[..1] == "a" && AllDigits(digits);
    assert Number(digits[..|digits| - 1]) == 0;
    DigitsFromIs(seg, 1);
  }

  lemma SmallSegments(seg: string)
    requires NoSlash(seg) && seg != ""
    ensures PathSegments("g/r/n/" + seg) == ["g", "r", "n", seg] && Join(["g", "r", "n", seg]) == "g/r/n/" + seg
  {
    var segs := ["g", "r", "n", seg];
    assert segs[1..] == ["r", "n", seg] && segs[1..][1..] == ["n", seg] && segs[1..][1..][1..] == [seg];
    assert Join(segs[1..][1..][1..]) == seg;
    assert Join(segs[1..][1..]) == "n/" + seg;
    assert Join(segs[1..]) == "r/n/" + seg;
    assert Join(segs) == "g/r/n/" + seg;
    SegmentsOfJoin(segs);
    var path := "g/r/n/" + seg;
    assert path[|path| - 1] == seg[|seg| - 1];
    assert Trim(path) == path;
  }

  lemma OneLevel(path: string, seg: string, stem: string, n: nat)
    requires PathSegments(path) == ["g", "r", "n", seg] && SplitGeneration(seg) == Part(stem, n) && stem != ""
    ensures Generation(path) == Some(Place(Join(["g", "r", "n", stem]), [n]))
  {
    var segs, below := PathSegments(path), [seg];
    assert segs[3..] == below && below[..|below| - 1] == [];
    assert Stems(below[..|below| - 1]) == [] && Gens(below[..|below| - 1]) == [];
    assert Stems(below) == [stem] && Gens(below) == [n];
    assert segs[..3] + [stem] == ["g", "r", "n", stem];
  }

  lemma SmallPlace(path: string, seg: string, d: char)
    requires IsDigit(d) && seg == "a" + [d] && path == "g/r/n/" + seg
    ensures Generation(path) == Some(Place(Join(["g", "r", "n", "a"]), [d as int - '0' as int]))
  {
    SmallSegments(seg);
    SmallPart(seg, d);
    OneLevel(path, seg, "a", d as int - '0' as int);
  }

  lemma MembersOfTwo(cards: seq<Card>, family: string, g: seq<nat>, h: seq<nat>)
    requires |cards| == 2
    requires Generation(cards[0].path) == Some(Place(family, g)) && Generation(cards[1].path) == Some(Place(family, h))
    ensures Members(cards, family, |cards|) == [Member(0, g), Member(1, h)]
  {
    assert Members(cards, family, |cards| - 1) == [Member(0, g)];
  }

  lemma LineOfTwo(cards: seq<Card>, family: string, g: seq<nat>, h: seq<nat>)
    requires |cards| == 2 && Less(g, h)
    requires Generation(cards[0].path) == Some(Place(family, g)) && Generation(cards[1].path) == Some(Place(family, h))
    requires InDateOrder(cards, 1, 0) && cards[0].path !in Claimed(cards)
    ensures Justified(cards, Edge(1, 0))
  {
    MembersOfTwo(cards, family, g, h);
    LessIsEarlier(g, h);
    LessIsEarlier(h, g);
    EarlierIsStrict(g, h);
    TwoInOrder(Member(0, g), Member(1, h));
    var line := Line(cards, family);
    assert line[0].card == 0 && line[1].card == 1;
  }

  /** Two generations of one family, in order, and nothing else on the page. */
  predicate TwoGenerations(cards: seq<Card>) {
    |cards| == 2 && Later(cards, 1, 0) && InDateOrder(cards, 1, 0)
  }

  lemma TwoAreLinked(cards: seq<Card>)
    requires TwoGenerations(cards) && cards[0].path !in Claimed(cards)
    ensures Inside(cards, Edge(1, 0)) && Justified(cards, Edge(1, 0))
  {
    var a, b := Generation(cards[0].path).value, Generation(cards[1].path).value;
    LineOfTwo(cards, a.family, a.gen, b.gen);
  }

  lemma TwoInOrder(a: Member, b: Member)
    requires !ByGeneration(b, a)
    ensures StableSort(ByGeneration, [a, b]) == [a, b]
  {
    var none: seq<Member> := [];
    assert [a, b][1..] == [b] && [b][1..] == none;
    assert Insert(ByGeneration, a, none) == [a];
    assert Insert(ByGeneration, b, [a]) == [a, b];
    assert InsertAll(ByGeneration, [a, b], none) == [a, b];
    assert InsertAll(ByGeneration, [a], [b]) == [a, b];
  }

  function Bare(path: string, supersedes: seq<string>): Card {
    var none := Field("", "");
    Card(path, "", none, none, "", none, none, "", "", supersedes, "", [], [], [])
  }

  /** There are such cards: the first two of a family of realms. */
  lemma TwoGenerationsExist(olds: seq<string>, news: seq<string>)
    ensures TwoGenerations([Bare(FIRST, olds), Bare(SECOND, news)])
  {
    var cards := [Bare(FIRST, olds), Bare(SECOND, news)];
    SmallPlace(FIRST, "a1", '1');
    SmallPlace(SECOND, "a2", '2');
    assert cards[0].path == FIRST && cards[1].path == SECOND;
  }

  lemma EdgeIsThere(cards: seq<Card>, edges: seq<Edge>) returns (k: nat)
    requires TwoGenerations(cards) && cards[0].path !in Claimed(cards) && Exact(cards, edges)
    ensures k < |edges| && edges[k] == Edge(1, 0) && AllInside(cards, edges)
  {
    TwoAreLinked(cards);
    k :| 0 <= k < |edges| && edges[k] == Edge(1, 0);
  }

  lemma GainedBySecond(cards: seq<Card>, edges: seq<Edge>, k: nat, other: string)
    requires |cards| == 2 && AllInside(cards, edges) && k < |edges| && edges[k] == Edge(1, 0)
    requires other in cards[1].supersedes && cards[1].supersedesFrom == ""
    ensures var now := Labelled(Linked(cards, edges)[1]);
      other in now.supersedes && cards[0].path in now.supersedes && now.supersedesFrom == DERIVED
  {
    LabelsNeverSayBoth(cards, edges, 1);
    ListsAfter(cards, edges, 1, other);
    ListsAfter(cards, edges, 1, cards[0].path);
  }

  /** A second generation whose curated list replaces something else: the list is mixed after the pass, and says derived. */
  lemma MixedListIsCalledDerived(cards: seq<Card>, edges: seq<Edge>, other: string)
    requires TwoGenerations(cards) && cards[0].path !in Claimed(cards) && Exact(cards, edges)
    requires other in cards[1].supersedes && cards[1].supersedesFrom == ""
    ensures var now := Labelled(Linked(cards, edges)[1]);
      other in now.supersedes && cards[0].path in now.supersedes && now.supersedesFrom == DERIVED != HonestLabel(true, true)
  {
    var k := EdgeIsThere(cards, edges);
    GainedBySecond(cards, edges, k, other);
  }
}
