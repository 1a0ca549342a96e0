/** Carrying what is known of older generations forward to the card that survives them. */
module Inherit {
  import opened Base
  import opened Cards
  import Collapse

  /** How much a source is trusted. */
  function Rank(from: string): nat {
    if from == "path" then 1 else if from == "inferred" then 2 else if from == "readme" then 3
    else if from == "chain" then 4 else if from == "community" then 5 else if from == CURATED then 6 else 0
  }

  /** The sources from least to most trusted. */
  const SOURCES := ["path", "inferred", "readme", "chain", "community", "curated"]

  /** A later source outranks every earlier one, and all of them an unknown one. */
  lemma RanksAscend(from: string, i: nat, j: nat)
    requires i < j < |SOURCES|
    ensures 0 < Rank(SOURCES[i]) < Rank(SOURCES[j]) && (from !in SOURCES ==> Rank(from) == 0)
  {
  }

  // Fields.

  /** A field, with the date that travels with a description. */
  datatype Told = Told(field: Field, checked: string)

  predicate Better(src: Told, dst: Told) {
    src.field.text != "" && Rank(src.field.from) > Rank(dst.field.from)
  }

  function Take(dst: Told, src: Told): Told { if Better(src, dst) then src else dst }

  function TakeAll(dst: Told, srcs: seq<Told>): Told {
    if srcs == [] then dst else Take(TakeAll(dst, srcs[..|srcs| - 1]), srcs[|srcs| - 1])
  }

  /** The field of the card itself or of the first ancestor that none outranks. */
  ghost predicate Best(dst: Told, srcs: seq<Told>, k: int, r: Told) {
    && -1 <= k < |srcs|
    && r == (if k == -1 then dst else srcs[k])
    && (k >= 0 ==> r.field.text != "" && Rank(dst.field.from) < Rank(r.field.from))
    && Rank(dst.field.from) <= Rank(r.field.from)
    && (forall j :: 0 <= j < |srcs| && srcs[j].field.text != "" ==>
          Rank(srcs[j].field.from) <= Rank(r.field.from) && (j < k ==> Rank(srcs[j].field.from) < Rank(r.field.from)))
  }

  /** What is taken is the highest-ranked telling, the nearest winning ties, and never one below the card's own. */
  lemma {:induction false} TakeAllIsBest(dst: Told, srcs: seq<Told>) returns (k: int)
    ensures Best(dst, srcs, k, TakeAll(dst, srcs))
  {
    if srcs == [] {
      k := -1;
    } else {
      var n := |srcs| - 1;
      k := TakeAllIsBest(dst, srcs[..n]);
      if Better(srcs[n], TakeAll(dst, srcs[..n])) { k := n; }
      forall j | 0 <= j < |srcs| && srcs[j].field.text != ""
        ensures Rank(srcs[j].field.from) <= Rank(TakeAll(dst, srcs).field.from)
        ensures j < k ==> Rank(srcs[j].field.from) < Rank(TakeAll(dst, srcs).field.from)
      {
        if j < n { assert srcs[..n][j] == srcs[j]; }
      }
    }
  }

  // Cards.

  function NameOf(c: Card): Told { Told(c.name, "") }
  function DescriptionOf(c: Card): Told { Told(c.description, c.checked) }
  function WebsiteOf(c: Card): Told { Told(c.website, "") }
  function CategoryOf(c: Card): Told { Told(c.category, "") }

  /** Whether `adopt` takes anything. */
  predicate Gives(anc: Card, c: Card) {
    || Better(NameOf(anc), NameOf(c)) || Better(DescriptionOf(anc), DescriptionOf(c))
    || Better(WebsiteOf(anc), WebsiteOf(c)) || Better(CategoryOf(anc), CategoryOf(c))
    || (c.communityURL == "" && anc.communityURL != "")
  }

  /** `adopt`: whatever the ancestor knows better. */
  function Adopt(c: Card, anc: Card): Card {
    var d := Take(DescriptionOf(c), DescriptionOf(anc));
    c.(name := Take(NameOf(c), NameOf(anc)).field,
       description := d.field, checked := d.checked,
       website := Take(WebsiteOf(c), WebsiteOf(anc)).field,
       category := Take(CategoryOf(c), CategoryOf(anc)).field,
       communityURL := if c.communityURL == "" then anc.communityURL else c.communityURL,
       inheritedFrom := if Gives(anc, c) && c.inheritedFrom == "" then anc.path else c.inheritedFrom)
  }

  function Pick(cards: seq<Card>, line: seq<nat>): (r: seq<Card>)
    requires forall k :: 0 <= k < |line| ==> line[k] < |cards|
    ensures |r| == |line| && forall k :: 0 <= k < |line| ==> r[k] == cards[line[k]]
  {
    seq(|line|, k requires 0 <= k < |line| => cards[line[k]])
  }

  function AdoptAll(c: Card, ancs: seq<Card>): Card {
    if ancs == [] then c else Adopt(AdoptAll(c, ancs[..|ancs| - 1]), ancs[|ancs| - 1])
  }

  function Tellings(tell: Card -> Told, ancs: seq<Card>): (r: seq<Told>)
    ensures |r| == |ancs| && forall k :: 0 <= k < |ancs| ==> r[k] == tell(ancs[k])
  {
    seq(|ancs|, k requires 0 <= k < |ancs| => tell(ancs[k]))
  }

  lemma TellingsMore(tell: Card -> Told, ancs: seq<Card>)
    requires ancs != []
    ensures Tellings(tell, ancs)[..|ancs| - 1] == Tellings(tell, ancs[..|ancs| - 1])
  {
  }

  /** Each field is taken on its own; the rest of the card stays. */
  lemma {:induction false} AdoptFieldByField(c: Card, ancs: seq<Card>)
    ensures var r := AdoptAll(c, ancs);
      && NameOf(r) == TakeAll(NameOf(c), Tellings(NameOf, ancs))
      && DescriptionOf(r) == TakeAll(DescriptionOf(c), Tellings(DescriptionOf, ancs))
      && WebsiteOf(r) == TakeAll(WebsiteOf(c), Tellings(WebsiteOf, ancs))
      && CategoryOf(r) == TakeAll(CategoryOf(c), Tellings(CategoryOf, ancs))
      && r.path == c.path && r.supersedes == c.supersedes && r.covers == c.covers && r.deployedAt == c.deployedAt
  {
    if ancs != [] {
      AdoptFieldByField(c, ancs[..|ancs| - 1]);
      TellingsMore(NameOf, ancs);
      TellingsMore(DescriptionOf, ancs);
      TellingsMore(WebsiteOf, ancs);
      TellingsMore(CategoryOf, ancs);
    }
  }

  /** The name, description, website and category a survivor ends with are each the best told by it and its ancestors. */
  lemma SurvivorHasTheBest(c: Card, ancs: seq<Card>) returns (n: int, d: int, w: int, g: int)
    ensures var r := AdoptAll(c, ancs);
      && Best(NameOf(c), Tellings(NameOf, ancs), n, NameOf(r))
      && Best(DescriptionOf(c), Tellings(DescriptionOf, ancs), d, DescriptionOf(r))
      && Best(WebsiteOf(c), Tellings(WebsiteOf, ancs), w, WebsiteOf(r))
      && Best(CategoryOf(c), Tellings(CategoryOf, ancs), g, CategoryOf(r))
  {
    AdoptFieldByField(c, ancs);
    n := TakeAllIsBest(NameOf(c), Tellings(NameOf, ancs));
    d := TakeAllIsBest(DescriptionOf(c), Tellings(DescriptionOf, ancs));
    w := TakeAllIsBest(WebsiteOf(c), Tellings(WebsiteOf, ancs));
    g := TakeAllIsBest(CategoryOf(c), Tellings(CategoryOf, ancs));
  }

  /** The ancestor at `k` is the first to give the card anything, and the card says so. */
  ghost predicate GaveFirst(c: Card, ancs: seq<Card>, k: nat, said: string) {
    k < |ancs| && Gives(ancs[k], c) && said == ancs[k].path && AdoptAll(c, ancs[..k]) == c
  }

  /** A card that took something says from whom: the nearest that gave it anything. */
  lemma {:induction false} InheritedFromNearestGiver(c: Card, ancs: seq<Card>) returns (k: nat)
    requires c.inheritedFrom == "" && forall k :: 0 <= k < |ancs| ==> ancs[k].path != ""
    ensures var r := AdoptAll(c, ancs); if r.inheritedFrom == "" then r == c else GaveFirst(c, ancs, k, r.inheritedFrom)
  {
    if ancs == [] {
      k := 0;
    } else {
      var n := |ancs| - 1;
      k := InheritedFromNearestGiver(c, ancs[..n]);
      if AdoptAll(c, ancs[..n]).inheritedFrom == "" { k := n; } else { assert ancs[..n][..k] == ancs[..k]; }
    }
  }

  // Ancestry.

  /** The `byPath` map: on-chain cards by path, the last where several carry one. */
  ghost predicate ByPath(cards: seq<Card>, m: map<string, nat>) {
    && (forall x :: x in m ==> x != "" && m[x] < |cards| && cards[m[x]].path == x)
    && (forall i :: 0 <= i < |cards| && cards[i].path != "" ==> cards[i].path in m && i <= m[cards[i].path])
  }

  /**
   The paths a breadth-first search along the lists meets, in order: `lists`
   holds those of the paths that are cards, `queue` is still to be looked at.
   */
  function Descent(lists: map<string, seq<string>>, seen: set<string>, queue: seq<string>): (r: seq<string>)
    ensures forall k :: 0 <= k < |r| ==> r[k] in lists
    decreases lists.Keys - seen, |queue|
  {
    if queue == [] then []
    else
      var h := queue[0];
      if h in seen then Descent(lists, seen, queue[1..])
      else if h !in lists then
        assert lists.Keys - (seen + {h}) == lists.Keys - seen;
        Descent(lists, seen + {h}, queue[1..])
      else
        assert h in lists.Keys - seen;
        [h] + Descent(lists, seen + {h}, queue[1..] + lists[h])
  }

  function ListsOf(at: map<string, Card>): map<string, seq<string>> {
    map x | x in at :: at[x].supersedes
  }

  /** The cards a card descends from, nearest first: a function of the lists and of the paths that are cards. */
  function AncestorsOf(at: map<string, Card>, c: Card): seq<Card> {
    var paths := Descent(ListsOf(at), {c.path}, c.supersedes);
    seq(|paths|, k requires 0 <= k < |paths| => at[paths[k]])
  }

  /** What becomes of a card among those that stand at the paths `at`, when `claimed` paths are replaced. */
  function Outcome(at: map<string, Card>, claimed: set<string>, c: Card): Card {
    if c.path != "" && c.path !in claimed then AdoptAll(c, AncestorsOf(at, c)) else c
  }

  ghost function CardsAt(cards: seq<Card>, m: map<string, nat>): map<string, Card>
    requires ByPath(cards, m)
  {
    map x | x in m :: cards[m[x]]
  }

  /** A line of descent: each path is replaced by the card before it, the first by card `c`, and none is that of `c`. */
  ghost predicate Lineage(cards: seq<Card>, m: map<string, nat>, c: nat, p: seq<string>)
    requires c < |cards|
  {
    && p != [] && p[0] in cards[c].supersedes
    && (forall k :: 0 <= k < |p| ==> p[k] in m && m[p[k]] < |cards| && p[k] != cards[c].path)
    && (forall k :: 0 < k < |p| ==> p[k] in cards[m[p[k - 1]]].supersedes)
  }

  ghost predicate LeadsTo(cards: seq<Card>, m: map<string, nat>, c: nat, x: string, d: nat)
    requires c < |cards|
  {
    exists p :: Lineage(cards, m, c, p) && |p| == d && p[|p| - 1] == x
  }

  ghost predicate IsAncestor(cards: seq<Card>, m: map<string, nat>, c: nat, a: nat)
    requires c < |cards|
  {
    a < |cards| && exists d :: LeadsTo(cards, m, c, cards[a].path, d)
  }

  /** However `b` is reached, `a` is reached in no more steps. */
  ghost predicate NoFarther(cards: seq<Card>, m: map<string, nat>, c: nat, a: nat, b: nat)
    requires c < |cards| && a < |cards| && b < |cards|
  {
    forall d :: LeadsTo(cards, m, c, cards[b].path, d) ==> exists e :: e <= d && LeadsTo(cards, m, c, cards[a].path, e)
  }

  /** All ancestors of a card, each once, none listed before a nearer one. */
  ghost predicate NearestFirst(cards: seq<Card>, m: map<string, nat>, c: nat, line: seq<nat>)
    requires c < |cards|
  {
    && Distinct(line)
    && (forall k :: 0 <= k < |line| ==> IsAncestor(cards, m, c, line[k]))
    && (forall p :: Lineage(cards, m, c, p) ==> m[p[|p| - 1]] in line)
    && (forall j, k :: 0 <= j < k < |line| ==> NoFarther(cards, m, c, line[j], line[k]))
  }

  /** Where the breadth-first search stands: what is queued and how deep, what was seen how deep, what was found. */
  datatype Search = Search(queue: seq<string>, at: seq<nat>, depth: map<string, nat>, out: seq<nat>)

  ghost function Olds(cards: seq<Card>, m: map<string, nat>, c: nat, x: string): seq<string>
    requires c < |cards|
  {
    if x == cards[c].path then cards[c].supersedes else if x in m && m[x] < |cards| then cards[m[x]].supersedes else []
  }

  /** The queue's depths: ascending, and no two more than one apart. */
  ghost predicate Levels(at: seq<nat>) {
    && (forall i, j :: 0 <= i < j < |at| ==> at[i] <= at[j])
    && (forall i :: 0 <= i < |at| ==> 1 <= at[i] <= at[0] + 1)
  }

  ghost predicate Levelled(b: Search) {
    && |b.at| == |b.queue| && Levels(b.at)
    && (b.queue != [] ==> forall x :: x in b.depth ==> b.depth[x] <= b.at[0])
  }

  ghost predicate Reached(b: Search, y: string, d: nat) {
    (y in b.depth && b.depth[y] <= d) || exists i :: 0 <= i < |b.queue| && i < |b.at| && b.queue[i] == y && b.at[i] <= d
  }

  ghost predicate Closed(cards: seq<Card>, m: map<string, nat>, c: nat, b: Search)
    requires c < |cards|
  {
    && cards[c].path in b.depth && b.depth[cards[c].path] == 0
    && (forall x, y :: x in b.depth && y in Olds(cards, m, c, x) ==> Reached(b, y, b.depth[x] + 1))
  }

  ghost predicate Offered(cards: seq<Card>, m: map<string, nat>, c: nat, y: string, d: nat)
    requires c < |cards|
  {
    if d == 1 then y in cards[c].supersedes
    else d > 1 && exists x :: x in m && m[x] < |cards| && LeadsTo(cards, m, c, x, d - 1) && y in cards[m[x]].supersedes
  }

  ghost predicate Queued(cards: seq<Card>, m: map<string, nat>, c: nat, b: Search)
    requires c < |cards|
  {
    |b.at| == |b.queue| && forall i :: 0 <= i < |b.queue| ==> Offered(cards, m, c, b.queue[i], b.at[i])
  }

  ghost predicate FoundOne(cards: seq<Card>, m: map<string, nat>, c: nat, depth: map<string, nat>, a: nat)
    requires c < |cards|
  {
    && a < |cards| && cards[a].path in depth && cards[a].path in m && m[cards[a].path] == a && cards[a].path != cards[c].path
    && LeadsTo(cards, m, c, cards[a].path, depth[cards[a].path])
  }

  ghost predicate Found(cards: seq<Card>, m: map<string, nat>, c: nat, b: Search)
    requires c < |cards|
  {
    && Distinct(b.out)
    && (forall k :: 0 <= k < |b.out| ==> FoundOne(cards, m, c, b.depth, b.out[k]))
    && (forall x :: x in b.depth && x in m && x != cards[c].path ==> m[x] in b.out)
    && (forall j, k :: 0 <= j < k < |b.out| ==> b.depth[cards[b.out[j]].path] <= b.depth[cards[b.out[k]].path])
  }

  ghost predicate Inv(cards: seq<Card>, m: map<string, nat>, c: nat, b: Search)
    requires c < |cards|
  {
    ByPath(cards, m) && Levelled(b) && Closed(cards, m, c, b) && Queued(cards, m, c, b) && Found(cards, m, c, b)
  }

  function Repeated(d: nat, n: nat): (r: seq<nat>)
    ensures |r| == n && forall i :: 0 <= i < n ==> r[i] == d
  {
    seq(n, i => d)
  }

  function Start(cards: seq<Card>, c: nat): Search
    requires c < |cards|
  {
    var olds := cards[c].supersedes;
    Search(olds, Repeated(1, |olds|), map[cards[c].path := 0], [])
  }

  lemma StartOk(cards: seq<Card>, m: map<string, nat>, c: nat)
    requires c < |cards| && ByPath(cards, m)
    ensures Inv(cards, m, c, Start(cards, c))
  {
    var b := Start(cards, c);
    forall x, y | x in b.depth && y in Olds(cards, m, c, x) ensures Reached(b, y, b.depth[x] + 1) {
      var i :| 0 <= i < |b.queue| && b.queue[i] == y;
      assert b.at[i] == 1;
    }
  }

  /** The head was seen before. */
  function Skip(b: Search): Search
    requires b.queue != [] && b.at != []
  {
    b.(queue := b.queue[1..], at := b.at[1..])
  }

  /** The head is new, and no card. */
  function Mark(b: Search): Search
    requires b.queue != [] && b.at != []
  {
    Skip(b).(depth := b.depth[b.queue[0] := b.at[0]])
  }

  /** The head is a new card. */
  function Visit(b: Search, a: nat, olds: seq<string>): Search
    requires b.queue != [] && b.at != []
  {
    var n := Mark(b);
    n.(queue := n.queue + olds, at := n.at + Repeated(b.at[0] + 1, |olds|), out := n.out + [a])
  }

  lemma QueueMoves(b: Search, y: string, d: nat)
    requires b.queue != [] && |b.at| == |b.queue| && Reached(b, y, d)
    ensures Reached(Skip(b), y, d) || (y == b.queue[0] && b.at[0] <= d)
  {
    if !(y in b.depth && b.depth[y] <= d) {
      var i :| 0 <= i < |b.queue| && i < |b.at| && b.queue[i] == y && b.at[i] <= d;
      if i > 0 { assert Skip(b).queue[i - 1] == y && Skip(b).at[i - 1] <= d; }
    }
  }

  lemma SkipOk(cards: seq<Card>, m: map<string, nat>, c: nat, b: Search)
    requires c < |cards| && Inv(cards, m, c, b) && b.queue != [] && b.queue[0] in b.depth
    ensures Inv(cards, m, c, Skip(b))
  {
    forall x, y | x in b.depth && y in Olds(cards, m, c, x) ensures Reached(Skip(b), y, b.depth[x] + 1) {
      QueueMoves(b, y, b.depth[x] + 1);
    }
    assert Found(cards, m, c, Skip(b)) by {
      forall k | 0 <= k < |b.out| ensures FoundOne(cards, m, c, Skip(b).depth, b.out[k]) {
        assert FoundOne(cards, m, c, b.depth, b.out[k]);
      }
    }
  }

  lemma ReachedAfterMark(b: Search, y: string, d: nat)
    requires b.queue != [] && |b.at| == |b.queue| && b.queue[0] !in b.depth && Reached(b, y, d)
    ensures Reached(Mark(b), y, d)
  {
    QueueMoves(b, y, d);
    if Reached(Skip(b), y, d) && !(y in b.depth && b.depth[y] <= d) {
      var i :| 0 <= i < |Skip(b).queue| && i < |Skip(b).at| && Skip(b).queue[i] == y && Skip(b).at[i] <= d;
      assert Mark(b).queue[i] == y;
    }
  }

  lemma MarkLevelled(b: Search)
    requires Levelled(b) && b.queue != []
    ensures Levelled(Mark(b))
  {
  }

  /** Marking keeps what holds of everything but the head itself. */
  lemma MarkKeeps(cards: seq<Card>, m: map<string, nat>, c: nat, b: Search)
    requires c < |cards| && Inv(cards, m, c, b) && b.queue != [] && b.queue[0] !in b.depth
    ensures Levelled(Mark(b)) && Queued(cards, m, c, Mark(b)) && Distinct(Mark(b).out)
    ensures forall x, y :: x in b.depth && y in Olds(cards, m, c, x) ==> Reached(Mark(b), y, b.depth[x] + 1)
    ensures forall k :: 0 <= k < |b.out| ==>
      FoundOne(cards, m, c, b.depth, b.out[k]) && FoundOne(cards, m, c, Mark(b).depth, b.out[k]) && b.depth[cards[b.out[k]].path] <= b.at[0]
  {
    MarkLevelled(b);
    forall x, y | x in b.depth && y in Olds(cards, m, c, x) ensures Reached(Mark(b), y, b.depth[x] + 1) {
      ReachedAfterMark(b, y, b.depth[x] + 1);
    }
    forall k | 0 <= k < |b.out| ensures FoundOne(cards, m, c, Mark(b).depth, b.out[k]) && b.depth[cards[b.out[k]].path] <= b.at[0] {
      assert FoundOne(cards, m, c, b.depth, b.out[k]);
    }
  }

  lemma MarkOk(cards: seq<Card>, m: map<string, nat>, c: nat, b: Search)
    requires c < |cards| && Inv(cards, m, c, b) && b.queue != [] && b.queue[0] !in b.depth && b.queue[0] !in m
    ensures Inv(cards, m, c, Mark(b))
  {
    MarkKeeps(cards, m, c, b);
    forall j, k | 0 <= j < k < |b.out| ensures Mark(b).depth[cards[b.out[j]].path] <= Mark(b).depth[cards[b.out[k]].path] {
      assert FoundOne(cards, m, c, b.depth, b.out[j]) && FoundOne(cards, m, c, b.depth, b.out[k]);
    }
  }

  lemma LineGrows(cards: seq<Card>, m: map<string, nat>, c: nat, x: string, h: string, d: nat)
    requires c < |cards| && LeadsTo(cards, m, c, x, d) && x in m && m[x] < |cards| && h in cards[m[x]].supersedes
    requires h in m && m[h] < |cards| && h != cards[c].path
    ensures LeadsTo(cards, m, c, h, d + 1)
  {
    var p :| Lineage(cards, m, c, p) && |p| == d && p[|p| - 1] == x;
    var q := p + [h];
    assert forall k :: 0 <= k < |p| ==> q[k] == p[k];
    assert Lineage(cards, m, c, q);
  }

  /** The head, being offered at its depth, has a line of that length. */
  lemma OfferedLeads(cards: seq<Card>, m: map<string, nat>, c: nat, h: string, d: nat)
    requires c < |cards| && Offered(cards, m, c, h, d) && h in m && m[h] < |cards| && h != cards[c].path
    ensures LeadsTo(cards, m, c, h, d)
  {
    if d == 1 {
      assert Lineage(cards, m, c, [h]);
    } else {
      var x :| x in m && m[x] < |cards| && LeadsTo(cards, m, c, x, d - 1) && h in cards[m[x]].supersedes;
      LineGrows(cards, m, c, x, h, d - 1);
    }
  }

  lemma LevelsStep(at: seq<nat>, n: nat)
    requires at != [] && Levels(at)
    ensures var next := at[1..] + Repeated(at[0] + 1, n); Levels(next) && (next != [] ==> at[0] <= next[0])
  {
    var next := at[1..] + Repeated(at[0] + 1, n);
    forall i | 0 <= i < |next| ensures at[0] <= next[i] <= at[0] + 1 {
      if i < |at| - 1 { assert next[i] == at[i + 1]; }
    }
    forall i, j | 0 <= i < j < |next| ensures next[i] <= next[j] {
      if j < |at| - 1 { assert next[i] == at[i + 1] && next[j] == at[j + 1]; } else { assert next[j] == at[0] + 1; }
    }
  }

  lemma VisitLevelled(b: Search, a: nat, olds: seq<string>)
    requires Levelled(b) && b.queue != []
    ensures Levelled(Visit(b, a, olds))
  {
    LevelsStep(b.at, |olds|);
  }

  lemma VisitQueued(cards: seq<Card>, m: map<string, nat>, c: nat, b: Search, h: string, olds: seq<string>)
    requires c < |cards| && Queued(cards, m, c, b) && b.queue != [] && h == b.queue[0] && b.at[0] >= 1
    requires h in m && m[h] < |cards| && olds == cards[m[h]].supersedes && LeadsTo(cards, m, c, h, b.at[0])
    ensures Queued(cards, m, c, Visit(b, m[h], olds))
  {
    var v := Visit(b, m[h], olds);
    forall i | 0 <= i < |v.queue| ensures Offered(cards, m, c, v.queue[i], v.at[i]) {
      if i < |b.queue| - 1 {
        assert Offered(cards, m, c, b.queue[i + 1], b.at[i + 1]);
      } else {
        assert v.queue[i] in olds;
      }
    }
  }

  lemma VisitClosed(cards: seq<Card>, m: map<string, nat>, c: nat, b: Search, h: string, olds: seq<string>)
    requires c < |cards| && Inv(cards, m, c, b) && b.queue != [] && h == b.queue[0] && h !in b.depth
    requires h in m && m[h] < |cards| && olds == cards[m[h]].supersedes
    ensures Closed(cards, m, c, Visit(b, m[h], olds))
  {
    var v := Visit(b, m[h], olds);
    MarkKeeps(cards, m, c, b);
    forall x, y | x in v.depth && y in Olds(cards, m, c, x) ensures Reached(v, y, v.depth[x] + 1) {
      if x == h {
        HeadOffers(b, m[h], olds, y);
      } else {
        assert Reached(Mark(b), y, b.depth[x] + 1);
        QueueGrows(b, m[h], olds, y, b.depth[x] + 1);
      }
    }
  }

  lemma HeadOffers(b: Search, a: nat, olds: seq<string>, y: string)
    requires b.queue != [] && |b.at| == |b.queue| && y in olds
    ensures Reached(Visit(b, a, olds), y, b.at[0] + 1)
  {
    var v := Visit(b, a, olds);
    var i :| 0 <= i < |olds| && olds[i] == y;
    assert v.queue[|b.queue| - 1 + i] == y && v.at[|b.queue| - 1 + i] == b.at[0] + 1;
  }

  lemma QueueGrows(b: Search, a: nat, olds: seq<string>, y: string, d: nat)
    requires b.queue != [] && |b.at| == |b.queue| && Reached(Mark(b), y, d)
    ensures Reached(Visit(b, a, olds), y, d)
  {
    var k, v := Mark(b), Visit(b, a, olds);
    if !(y in k.depth && k.depth[y] <= d) {
      var i :| 0 <= i < |k.queue| && i < |k.at| && k.queue[i] == y && k.at[i] <= d;
      assert v.queue[i] == y && v.at[i] == k.at[i];
    }
  }

  lemma VisitFoundEach(cards: seq<Card>, m: map<string, nat>, c: nat, b: Search, h: string, olds: seq<string>)
    requires c < |cards| && b.queue != [] && |b.at| == |b.queue| && h == b.queue[0]
    requires h in m && m[h] < |cards| && cards[m[h]].path == h && h != cards[c].path && LeadsTo(cards, m, c, h, b.at[0])
    requires forall k :: 0 <= k < |b.out| ==> FoundOne(cards, m, c, Mark(b).depth, b.out[k])
    ensures var v := Visit(b, m[h], olds); forall k :: 0 <= k < |v.out| ==> FoundOne(cards, m, c, v.depth, v.out[k])
  {
    var v := Visit(b, m[h], olds);
    forall k | 0 <= k < |v.out| ensures FoundOne(cards, m, c, v.depth, v.out[k]) {
      if k < |b.out| { assert FoundOne(cards, m, c, Mark(b).depth, b.out[k]); }
    }
  }

  lemma VisitFoundAll(cards: seq<Card>, m: map<string, nat>, c: nat, b: Search, h: string, olds: seq<string>)
    requires c < |cards| && b.queue != [] && |b.at| == |b.queue| && h == b.queue[0] && h in m
    requires forall x :: x in b.depth && x in m && x != cards[c].path ==> m[x] in b.out
    ensures var v := Visit(b, m[h], olds); forall x :: x in v.depth && x in m && x != cards[c].path ==> m[x] in v.out
  {
    var v := Visit(b, m[h], olds);
    forall x | x in v.depth && x in m && x != cards[c].path ensures m[x] in v.out {
      if x != h { assert m[x] in b.out; } else { assert v.out[|b.out|] == m[h]; }
    }
  }

  lemma VisitFound(cards: seq<Card>, m: map<string, nat>, c: nat, b: Search, h: string, olds: seq<string>)
    requires c < |cards| && Inv(cards, m, c, b) && b.queue != [] && h == b.queue[0] && h !in b.depth
    requires h in m && LeadsTo(cards, m, c, h, b.at[0])
    ensures Found(cards, m, c, Visit(b, m[h], olds))
  {
    MarkKeeps(cards, m, c, b);
    VisitFoundEach(cards, m, c, b, h, olds);
    VisitFoundAll(cards, m, c, b, h, olds);
    VisitKeepsOrder(cards, m, c, b, h, olds);
  }

  lemma VisitKeepsOrder(cards: seq<Card>, m: map<string, nat>, c: nat, b: Search, h: string, olds: seq<string>)
    requires c < |cards| && b.queue != [] && |b.at| == |b.queue| && h == b.queue[0] && h !in b.depth && h in m
    requires m[h] < |cards| && cards[m[h]].path == h && Found(cards, m, c, b)
    requires forall k :: 0 <= k < |b.out| ==> FoundOne(cards, m, c, b.depth, b.out[k]) && b.depth[cards[b.out[k]].path] <= b.at[0]
    ensures var v := Visit(b, m[h], olds);
      forall j, k :: 0 <= j < k < |v.out| && v.out[j] < |cards| && v.out[k] < |cards| ==>
        v.out[j] != v.out[k] && cards[v.out[j]].path in v.depth && cards[v.out[k]].path in v.depth
        && v.depth[cards[v.out[j]].path] <= v.depth[cards[v.out[k]].path]
  {
    var v := Visit(b, m[h], olds);
    forall j, k | 0 <= j < k < |v.out|
      ensures v.out[j] != v.out[k] && cards[v.out[j]].path in v.depth && cards[v.out[k]].path in v.depth
      ensures v.depth[cards[v.out[j]].path] <= v.depth[cards[v.out[k]].path]
    {
      assert FoundOne(cards, m, c, b.depth, b.out[j]);
      if k < |b.out| { assert FoundOne(cards, m, c, b.depth, b.out[k]); }
    }
  }

  lemma VisitOk(cards: seq<Card>, m: map<string, nat>, c: nat, b: Search)
    requires c < |cards| && Inv(cards, m, c, b) && b.queue != [] && b.queue[0] !in b.depth && b.queue[0] in m
    ensures Inv(cards, m, c, Visit(b, m[b.queue[0]], cards[m[b.queue[0]]].supersedes))
  {
    var h := b.queue[0];
    var olds := cards[m[h]].supersedes;
    assert Offered(cards, m, c, b.queue[0], b.at[0]);
    OfferedLeads(cards, m, c, h, b.at[0]);
    VisitLevelled(b, m[h], olds);
    VisitQueued(cards, m, c, b, h, olds);
    VisitClosed(cards, m, c, b, h, olds);
    VisitFound(cards, m, c, b, h, olds);
  }

  /** The limit never binds: there are fewer ancestors than cards. */
  lemma LimitNeverBinds(cards: seq<Card>, m: map<string, nat>, c: nat, b: Search)
    requires c < |cards| && Inv(cards, m, c, b)
    ensures |b.out| < |cards|
  {
    var rest := Indices(|cards|) - {c};
    forall k | 0 <= k < |b.out| ensures b.out[k] in rest {
      assert FoundOne(cards, m, c, b.depth, b.out[k]);
    }
    DistinctFit(b.out, rest);
  }

  /** Once the queue is empty, no line of descent leads anywhere unseen or reaches a card sooner. */
  lemma {:induction false} LinesAreSeen(cards: seq<Card>, m: map<string, nat>, c: nat, b: Search, p: seq<string>)
    requires c < |cards| && Closed(cards, m, c, b) && b.queue == [] && Lineage(cards, m, c, p)
    ensures p[|p| - 1] in b.depth && b.depth[p[|p| - 1]] <= |p|
    decreases |p|
  {
    var n := |p| - 1;
    if n == 0 {
      assert p[0] in Olds(cards, m, c, cards[c].path);
      assert Reached(b, p[0], b.depth[cards[c].path] + 1);
    } else {
      assert Lineage(cards, m, c, p[..n]);
      LinesAreSeen(cards, m, c, b, p[..n]);
      assert p[n] in Olds(cards, m, c, p[n - 1]);
      assert Reached(b, p[n], b.depth[p[n - 1]] + 1);
    }
  }

  lemma SearchDone(cards: seq<Card>, m: map<string, nat>, c: nat, b: Search)
    requires c < |cards| && Inv(cards, m, c, b) && b.queue == []
    ensures NearestFirst(cards, m, c, b.out)
  {
    forall k | 0 <= k < |b.out| ensures IsAncestor(cards, m, c, b.out[k]) {
      assert FoundOne(cards, m, c, b.depth, b.out[k]);
    }
    forall p | Lineage(cards, m, c, p) ensures m[p[|p| - 1]] in b.out {
      LinesAreSeen(cards, m, c, b, p);
    }
    forall j, k | 0 <= j < k < |b.out| ensures NoFarther(cards, m, c, b.out[j], b.out[k]) {
      assert FoundOne(cards, m, c, b.depth, b.out[j]) && FoundOne(cards, m, c, b.depth, b.out[k]);
      FoundNoFarther(cards, m, c, b, b.out[j], b.out[k]);
    }
  }

  lemma FoundNoFarther(cards: seq<Card>, m: map<string, nat>, c: nat, b: Search, x: nat, y: nat)
    requires c < |cards| && Closed(cards, m, c, b) && b.queue == [] && FoundOne(cards, m, c, b.depth, x) && FoundOne(cards, m, c, b.depth, y)
    requires b.depth[cards[x].path] <= b.depth[cards[y].path]
    ensures NoFarther(cards, m, c, x, y)
  {
    forall d | LeadsTo(cards, m, c, cards[y].path, d) ensures exists e :: e <= d && LeadsTo(cards, m, c, cards[x].path, e) {
      var p :| Lineage(cards, m, c, p) && |p| == d && p[|p| - 1] == cards[y].path;
      LinesAreSeen(cards, m, c, b, p);
      assert LeadsTo(cards, m, c, cards[x].path, b.depth[cards[x].path]);
    }
  }

  /** One turn of the search. */
  ghost function Turned(cards: seq<Card>, m: map<string, nat>, b: Search): Search
    requires b.queue != [] && b.at != []
  {
    var h := b.queue[0];
    if h in b.depth then Skip(b)
    else if h !in m then Mark(b)
    else Visit(b, m[h], if m[h] < |cards| then cards[m[h]].supersedes else [])
  }

  lemma TurnOk(cards: seq<Card>, m: map<string, nat>, c: nat, b: Search)
    requires c < |cards| && Inv(cards, m, c, b) && b.queue != []
    ensures b.at != [] && Inv(cards, m, c, Turned(cards, m, b)) && |Turned(cards, m, b).out| < |cards|
  {
    var h := b.queue[0];
    if h in b.depth {
      SkipOk(cards, m, c, b);
    } else if h !in m {
      MarkOk(cards, m, c, b);
    } else {
      VisitOk(cards, m, c, b);
    }
    LimitNeverBinds(cards, m, c, Turned(cards, m, b));
  }

  function PathsOf(cards: seq<Card>, line: seq<nat>): seq<string> {
    seq(|line|, k requires 0 <= k < |line| => if line[k] < |cards| then cards[line[k]].path else "")
  }

  /** What a search has found and what it will find. */
  ghost function Bound(cards: seq<Card>, m: map<string, nat>, b: Search): seq<string>
    requires ByPath(cards, m)
  {
    PathsOf(cards, b.out) + Descent(ListsOf(CardsAt(cards, m)), b.depth.Keys, b.queue)
  }

  /** The line is the one the lists determine. */
  ghost predicate IsDescent(cards: seq<Card>, m: map<string, nat>, c: nat, line: seq<nat>)
    requires c < |cards|
  {
    && ByPath(cards, m)
    && (forall k :: 0 <= k < |line| ==> line[k] < |cards| && cards[line[k]].path in m && m[cards[line[k]].path] == line[k])
    && PathsOf(cards, line) == Descent(ListsOf(CardsAt(cards, m)), {cards[c].path}, cards[c].supersedes)
  }

  /** A turn changes nothing of it. */
  lemma TurnKeepsBound(cards: seq<Card>, m: map<string, nat>, b: Search)
    requires ByPath(cards, m) && b.queue != [] && b.at != []
    ensures Bound(cards, m, Turned(cards, m, b)) == Bound(cards, m, b)
  {
    var h, t := b.queue[0], Turned(cards, m, b);
    var lists := ListsOf(CardsAt(cards, m));
    assert h in lists <==> h in m;
    if h !in b.depth {
      assert t.depth.Keys == b.depth.Keys + {h};
      if h in m {
        assert PathsOf(cards, t.out) == PathsOf(cards, b.out) + [h];
        assert t.queue == b.queue[1..] + lists[h];
      }
    }
  }

  ghost predicate Mirrors(b: Search, seen: set<string>, queue: seq<string>, out: seq<nat>) {
    queue == b.queue && out == b.out && seen == b.depth.Keys
  }

  /** The body of the search loop. */
  method Turn(cards: seq<Card>, byPath: map<string, nat>, seen0: set<string>, queue0: seq<string>, out0: seq<nat>, ghost was: seq<Card>, ghost b: Search)
    returns (seen: set<string>, queue: seq<string>, out: seq<nat>)
    requires SameShape(was, cards) && (forall x :: x in byPath ==> byPath[x] < |was|)
    requires Mirrors(b, seen0, queue0, out0) && b.queue != [] && b.at != []
    ensures Mirrors(Turned(was, byPath, b), seen, queue, out)
    ensures byPath.Keys - seen < byPath.Keys - seen0 || (byPath.Keys - seen == byPath.Keys - seen0 && |queue| < |queue0|)
  {
    var path := queue0[0];
    seen, queue, out := seen0, queue0[1..], out0;
    if path !in seen {
      seen := seen + {path};
      if path in byPath {
        assert path in byPath.Keys - seen0;
        out := out + [byPath[path]];
        queue := queue + cards[byPath[path]].supersedes;
      }
    }
  }

  /** Where the loop stands. */
  ghost predicate Going(cards: seq<Card>, m: map<string, nat>, c: nat, b: Search)
    requires c < |cards|
  {
    Inv(cards, m, c, b) && |b.out| < |cards| && Bound(cards, m, b) == Descent(ListsOf(CardsAt(cards, m)), {cards[c].path}, cards[c].supersedes)
  }

  lemma StartGoing(cards: seq<Card>, m: map<string, nat>, c: nat)
    requires c < |cards| && ByPath(cards, m)
    ensures Going(cards, m, c, Start(cards, c)) && Mirrors(Start(cards, c), {cards[c].path}, cards[c].supersedes, [])
  {
    var b := Start(cards, c);
    StartOk(cards, m, c);
    LimitNeverBinds(cards, m, c, b);
    assert PathsOf(cards, b.out) == [] && b.depth.Keys == {cards[c].path};
  }

  lemma KeepsGoing(cards: seq<Card>, m: map<string, nat>, c: nat, b: Search)
    requires c < |cards| && Going(cards, m, c, b) && b.queue != []
    ensures b.at != [] && Going(cards, m, c, Turned(cards, m, b))
  {
    TurnOk(cards, m, c, b);
    TurnKeepsBound(cards, m, b);
  }

  lemma DoneGoing(cards: seq<Card>, m: map<string, nat>, c: nat, b: Search)
    requires c < |cards| && Going(cards, m, c, b) && b.queue == []
    ensures NearestFirst(cards, m, c, b.out) && IsDescent(cards, m, c, b.out)
  {
    SearchDone(cards, m, c, b);
    assert forall k :: 0 <= k < |b.out| ==> FoundOne(cards, m, c, b.depth, b.out[k]);
    assert Bound(cards, m, b) == PathsOf(cards, b.out);
  }

  /** `ancestry`: breadth first along the lists, which are as they were whatever fields have changed hands. */
  method Ancestry(cards: seq<Card>, byPath: map<string, nat>, c: nat, limit: nat, ghost was: seq<Card>) returns (out: seq<nat>)
    requires SameShape(was, cards) && ByPath(was, byPath) && c < |was| && limit == |was|
    ensures NearestFirst(was, byPath, c, out) && IsDescent(was, byPath, c, out)
  {
    ghost var b := Start(was, c);
    StartGoing(was, byPath, c);
    out := [];
    var seen := {cards[c].path};
    var queue := cards[c].supersedes;
    while |queue| > 0 && |out| < limit
      invariant Going(was, byPath, c, b) && Mirrors(b, seen, queue, out)
      decreases byPath.Keys - seen, |queue|
    {
      KeepsGoing(was, byPath, c, b);
      seen, queue, out := Turn(cards, byPath, seen, queue, out, was, b);
      b := Turned(was, byPath, b);
    }
    DoneGoing(was, byPath, c, b);
  }

  ghost predicate SameShape(was: seq<Card>, now: seq<Card>) {
    |was| == |now| && forall i :: 0 <= i < |was| ==> was[i].path == now[i].path && was[i].supersedes == now[i].supersedes
  }

  // The pass.

  /** A card on a chain that no list names as replaced. */
  ghost predicate Survives(cards: seq<Card>, i: nat)
    requires i < |cards|
  {
    cards[i].path != "" && !Listed(cards, cards[i].path)
  }

  ghost predicate Listed(cards: seq<Card>, x: string) {
    exists i :: 0 <= i < |cards| && x in cards[i].supersedes
  }

  lemma LineEndsListed(cards: seq<Card>, m: map<string, nat>, c: nat, p: seq<string>)
    requires c < |cards| && Lineage(cards, m, c, p)
    ensures Listed(cards, p[|p| - 1]) && p[|p| - 1] != cards[c].path
  {
    if |p| > 1 { assert p[|p| - 1] in cards[m[p[|p| - 2]]].supersedes; }
  }

  /** What a card descends from is named on some list, so it is no survivor, and not the card itself. */
  lemma AncestorsAreReplaced(cards: seq<Card>, m: map<string, nat>, c: nat, a: nat)
    requires c < |cards| && IsAncestor(cards, m, c, a)
    ensures a != c && !Survives(cards, a)
  {
    var d :| LeadsTo(cards, m, c, cards[a].path, d);
    var p :| Lineage(cards, m, c, p) && |p| == d && p[|p| - 1] == cards[a].path;
    LineEndsListed(cards, m, c, p);
  }

  /** What became of card `i`: a survivor took the best its ancestors told, as they stood at first; any other is unchanged. */
  ghost predicate Inherited(was: seq<Card>, m: map<string, nat>, i: nat, line: seq<nat>, now: Card)
    requires i < |was|
  {
    if Survives(was, i)
    then NearestFirst(was, m, i, line) && IsDescent(was, m, i, line) && now == AdoptAll(was[i], Pick(was, line))
    else now == was[i]
  }

  ghost predicate AsTheyWere(was: seq<Card>, now: seq<Card>, i: nat, line: seq<nat>) {
    && |now| == |was| && i < |was| && now[i] == was[i]
    && (forall k :: 0 <= k < |line| ==> line[k] < |was| && line[k] != i && now[line[k]] == was[line[k]])
  }

  /** The inner loop: the survivor adopts from its ancestors, nearest first. */
  method AdoptLine(cards: array<Card>, i: nat, line: seq<nat>, ghost was: seq<Card>)
    requires AsTheyWere(was, cards[..], i, line)
    modifies cards
    ensures cards[..] == old(cards[..])[i := AdoptAll(was[i], Pick(was, line))]
  {
    ghost var ancs, before := Pick(was, line), cards[..];
    for k := 0 to |line|
      invariant cards[i] == AdoptAll(was[i], ancs[..k])
      invariant forall j :: 0 <= j < cards.Length && j != i ==> cards[j] == before[j]
    {
      assert ancs[..k + 1][..k] == ancs[..k];
      cards[i] := Adopt(cards[i], cards[line[k]]);
    }
    assert ancs[..|line|] == ancs;
  }

  method MapPaths(cards: seq<Card>) returns (m: map<string, nat>)
    ensures ByPath(cards, m)
  {
    m := map[];
    for i := 0 to |cards|
      invariant forall x :: x in m ==> x != "" && m[x] < |cards| && cards[m[x]].path == x
      invariant forall k :: 0 <= k < i && cards[k].path != "" ==> cards[k].path in m && k <= m[cards[k].path]
      invariant forall x :: x in m ==> m[x] < i
    {
      if cards[i].path != "" { m := m[cards[i].path := i]; }
    }
  }

  lemma ReplacedIsListed(cards: seq<Card>, replacedBy: map<string, nat>, x: string)
    requires Collapse.Maps(cards, replacedBy, |cards|)
    ensures Listed(cards, x) <==> x in replacedBy
  {
    assert Collapse.Replacer(cards, x, |cards|) == if x in replacedBy then Some(replacedBy[x]) else None;
  }

  lemma InheritedKeepsShape(was: seq<Card>, m: map<string, nat>, i: nat, line: seq<nat>, now: Card)
    requires i < |was| && Inherited(was, m, i, line, now)
    ensures now.path == was[i].path && now.supersedes == was[i].supersedes
  {
    if Survives(was, i) { AdoptFieldByField(was[i], Pick(was, line)); }
  }

  /** Card `k` when the first `n` cards are done: inherited, or as it was. */
  ghost predicate DoneAt(was: seq<Card>, m: map<string, nat>, lines: seq<seq<nat>>, now: seq<Card>, n: nat, k: nat)
    requires k < |was| == |now| && |lines| == n
  {
    if k < n then Inherited(was, m, k, lines[k], now[k]) else now[k] == was[k]
  }

  /** Where the pass stands. */
  ghost predicate Done(was: seq<Card>, m: map<string, nat>, lines: seq<seq<nat>>, now: seq<Card>, n: nat) {
    |now| == |was| && |lines| == n <= |was| && forall k :: 0 <= k < |was| ==> DoneAt(was, m, lines, now, n, k)
  }

  lemma DoneKeepsShape(was: seq<Card>, m: map<string, nat>, lines: seq<seq<nat>>, now: seq<Card>, n: nat)
    requires Done(was, m, lines, now, n)
    ensures SameShape(was, now)
    ensures forall k :: 0 <= k < |was| && !Survives(was, k) ==> now[k] == was[k]
  {
    forall k | 0 <= k < |was| ensures was[k].path == now[k].path && was[k].supersedes == now[k].supersedes {
      assert DoneAt(was, m, lines, now, n, k);
      if k < n { InheritedKeepsShape(was, m, k, lines[k], now[k]); }
    }
    forall k | 0 <= k < |was| && !Survives(was, k) ensures now[k] == was[k] {
      assert DoneAt(was, m, lines, now, n, k);
    }
  }

  lemma PickIsDescent(cards: seq<Card>, m: map<string, nat>, c: nat, line: seq<nat>)
    requires c < |cards| && IsDescent(cards, m, c, line)
    ensures Pick(cards, line) == AncestorsOf(CardsAt(cards, m), cards[c])
  {
    var paths := PathsOf(cards, line);
    forall k | 0 <= k < |line| ensures CardsAt(cards, m)[paths[k]] == cards[line[k]] {
      assert paths[k] == cards[line[k]].path;
    }
  }

  lemma ListedIsClaimed(cards: seq<Card>, x: string)
    ensures Listed(cards, x) <==> x in Claimed(cards)
  {
    if Listed(cards, x) {
      var i :| 0 <= i < |cards| && x in cards[i].supersedes;
      assert cards[i] in cards;
    }
    if x in Claimed(cards) {
      var c :| c in cards && x in c.supersedes;
      var i :| 0 <= i < |cards| && cards[i] == c;
    }
  }

  lemma InheritedIsOutcome(was: seq<Card>, m: map<string, nat>, i: nat, line: seq<nat>, now: Card)
    requires i < |was| && ByPath(was, m) && Inherited(was, m, i, line, now)
    ensures now == Outcome(CardsAt(was, m), Claimed(was), was[i])
  {
    ListedIsClaimed(was, was[i].path);
    if Survives(was, i) { PickIsDescent(was, m, i, line); }
  }

  /** One turn of the outer loop, for a survivor. */
  method InheritOne(cards: array<Card>, byPath: map<string, nat>, i: nat, ghost was: seq<Card>, ghost lines: seq<seq<nat>>)
    returns (ghost line: seq<nat>)
    requires ByPath(was, byPath) && Done(was, byPath, lines, cards[..], i) && i < cards.Length && Survives(was, i)
    modifies cards
    ensures Inherited(was, byPath, i, line, cards[i]) && cards[..] == old(cards[..])[i := cards[i]]
  {
    DoneKeepsShape(was, byPath, lines, cards[..], i);
    var found := Ancestry(cards[..], byPath, i, cards.Length, was);
    AncestorsStand(was, byPath, lines, cards[..], i, found);
    AdoptLine(cards, i, found, was);
    line := found;
  }

  lemma NextIsUntouched(was: seq<Card>, m: map<string, nat>, lines: seq<seq<nat>>, now: seq<Card>, i: nat)
    requires Done(was, m, lines, now, i) && i < |was|
    ensures now[i] == was[i]
  {
    assert DoneAt(was, m, lines, now, i, i);
  }

  /** When a survivor's turn comes, it and its ancestors are as they were. */
  lemma AncestorsStand(was: seq<Card>, m: map<string, nat>, lines: seq<seq<nat>>, now: seq<Card>, i: nat, found: seq<nat>)
    requires Done(was, m, lines, now, i) && i < |was| && NearestFirst(was, m, i, found)
    ensures AsTheyWere(was, now, i, found)
  {
    DoneKeepsShape(was, m, lines, now, i);
    NextIsUntouched(was, m, lines, now, i);
    forall k | 0 <= k < |found| ensures found[k] < |was| && found[k] != i && now[found[k]] == was[found[k]] {
      assert IsAncestor(was, m, i, found[k]);
      AncestorsAreReplaced(was, m, i, found[k]);
    }
  }

  lemma OneMoreDone(was: seq<Card>, m: map<string, nat>, lines: seq<seq<nat>>, before: seq<Card>, i: nat, line: seq<nat>, c: Card)
    requires Done(was, m, lines, before, i) && i < |was| && Inherited(was, m, i, line, c)
    ensures Done(was, m, lines + [line], before[i := c], i + 1)
  {
    var more, now, n := lines + [line], before[i := c], i + 1;
    forall k | 0 <= k < |was| ensures DoneAt(was, m, more, now, n, k) {
      assert DoneAt(was, m, lines, before, i, k);
      assert k != i ==> now[k] == before[k];
      assert k < i ==> more[k] == lines[k];
    }
  }

  lemma OthersAreDone(was: seq<Card>, m: map<string, nat>, lines: seq<seq<nat>>, before: seq<Card>, i: nat)
    requires Done(was, m, lines, before, i) && i < |was| && !Survives(was, i)
    ensures Done(was, m, lines + [[]], before, i + 1)
  {
    NextIsUntouched(was, m, lines, before, i);
    OneMoreDone(was, m, lines, before, i, [], before[i]);
    assert before[i := before[i]] == before;
  }

  /** One turn of the outer loop. */
  method InheritTurn(cards: array<Card>, byPath: map<string, nat>, replacedBy: map<string, nat>, i: nat, ghost was: seq<Card>, ghost lines0: seq<seq<nat>>)
    returns (ghost lines: seq<seq<nat>>)
    requires ByPath(was, byPath) && Collapse.Maps(was, replacedBy, |was|)
    requires Done(was, byPath, lines0, cards[..], i) && i < cards.Length
    modifies cards
    ensures Done(was, byPath, lines, cards[..], i + 1)
  {
    ghost var before := cards[..];
    NextIsUntouched(was, byPath, lines0, before, i);
    assert cards[i] == before[i];
    ReplacedIsListed(was, replacedBy, was[i].path);
    if cards[i].path != "" && cards[i].path !in replacedBy {
      ghost var line := InheritOne(cards, byPath, i, was, lines0);
      OneMoreDone(was, byPath, lines0, before, i, line, cards[i]);
      lines := lines0 + [line];
    } else {
      OthersAreDone(was, byPath, lines0, before, i);
      lines := lines0 + [[]];
    }
  }

  /** The cards after the pass, as a function of the cards before it. */
  ghost function Results(cards: seq<Card>, m: map<string, nat>): (r: seq<Card>)
    requires ByPath(cards, m)
    ensures |r| == |cards|
  {
    seq(|cards|, i requires 0 <= i < |cards| => Outcome(CardsAt(cards, m), Claimed(cards), cards[i]))
  }

  /** `inheritAcrossGenerations`, in place: every card's outcome is the function's, for the cards as they were. */
  method InheritAcrossGenerations(cards: array<Card>) returns (ghost m: map<string, nat>, ghost lines: seq<seq<nat>>)
    modifies cards
    ensures ByPath(old(cards[..]), m) && cards[..] == Results(old(cards[..]), m)
    ensures Done(old(cards[..]), m, lines, cards[..], cards.Length)
  {
    ghost var was := cards[..];
    var byPath := MapPaths(cards[..]);
    var replacedBy := Collapse.MapReplaced(cards[..]);
    m, lines := byPath, [];
    for i := 0 to cards.Length
      invariant Done(was, byPath, lines, cards[..], i)
    {
      lines := InheritTurn(cards, byPath, replacedBy, i, was, lines);
    }
    DoneIsResults(was, byPath, lines, cards[..]);
  }

  lemma DoneIsResults(was: seq<Card>, m: map<string, nat>, lines: seq<seq<nat>>, now: seq<Card>)
    requires ByPath(was, m) && Done(was, m, lines, now, |was|)
    ensures now == Results(was, m)
  {
    forall i | 0 <= i < |was| ensures now[i] == Results(was, m)[i] {
      assert DoneAt(was, m, lines, now, |was|, i);
      InheritedIsOutcome(was, m, i, lines[i], now[i]);
    }
  }

  // The order of the cards.

  ghost predicate DistinctPaths(cards: seq<Card>) {
    forall i, j :: 0 <= i < j < |cards| && cards[i].path == cards[j].path ==> cards[i].path == ""
  }

  lemma SameCards(a: seq<Card>, b: seq<Card>)
    requires multiset(a) == multiset(b)
    ensures SameElements(a, b)
  {
    forall c ensures c in a <==> c in b {
      SameBagSameElements(a, b, c);
    }
  }

  /** The card at a path does not depend on the order when no two cards share one. */
  lemma SameCardsAt(a: seq<Card>, b: seq<Card>, m: map<string, nat>, n: map<string, nat>, x: string)
    requires SameElements(a, b) && DistinctPaths(b) && ByPath(a, m) && ByPath(b, n) && x in m
    ensures x in n && b[n[x]] == a[m[x]]
  {
    var c := a[m[x]];
    assert c in a && c in b;
    var j :| 0 <= j < |b| && b[j] == c;
    assert b[j].path == x == b[n[x]].path;
  }

  lemma SameOutcome(a: seq<Card>, b: seq<Card>, m: map<string, nat>, n: map<string, nat>)
    requires SameElements(a, b) && DistinctPaths(a) && DistinctPaths(b) && ByPath(a, m) && ByPath(b, n)
    ensures CardsAt(a, m) == CardsAt(b, n) && Claimed(a) == Claimed(b)
  {
    forall x ensures x in m <==> x in n {
      if x in m { SameCardsAt(a, b, m, n, x); }
      if x in n { SameCardsAt(b, a, n, m, x); }
    }
    forall x | x in m ensures a[m[x]] == b[n[x]] {
      SameCardsAt(a, b, m, n, x);
    }
  }

  lemma DistinctAfterPermuting(a: seq<Card>, b: seq<Card>)
    requires multiset(a) == multiset(b) && DistinctPaths(a)
    ensures DistinctPaths(b)
  {
    forall i, j | 0 <= i < j < |b| && b[i].path == b[j].path ensures b[i].path == "" {
      PairIsElsewhere(b, a, i, j);
      var k, l :| 0 <= k < l < |a| && ((a[k] == b[i] && a[l] == b[j]) || (a[k] == b[j] && a[l] == b[i]));
      assert a[k].path == a[l].path;
    }
  }

  function Removed(s: seq<Card>, k: nat): seq<Card>
    requires k < |s|
  {
    s[..k] + s[k + 1..]
  }

  lemma RemovedBag(s: seq<Card>, k: nat)
    requires k < |s|
    ensures multiset(s) == multiset(Removed(s, k)) + multiset{s[k]}
  {
    assert s == s[..k] + ([s[k]] + s[k + 1..]);
  }

  lemma SameRest(s: seq<Card>, t: seq<Card>, i: nat, k: nat)
    requires multiset(s) == multiset(t) && i < |s| && k < |t| && s[i] == t[k]
    ensures multiset(Removed(s, i)) == multiset(Removed(t, k))
  {
    RemovedBag(s, i);
    RemovedBag(t, k);
    assert multiset(Removed(s, i)) == multiset(s) - multiset{s[i]};
    assert multiset(Removed(t, k)) == multiset(t) - multiset{t[k]};
  }

  lemma PairIsElsewhere(b: seq<Card>, a: seq<Card>, i: nat, j: nat)
    requires multiset(a) == multiset(b) && i < j < |b|
    ensures exists k, l :: 0 <= k < l < |a| && ((a[k] == b[i] && a[l] == b[j]) || (a[k] == b[j] && a[l] == b[i]))
  {
    SameBagSameElements(a, b, b[i]);
    var k :| 0 <= k < |a| && a[k] == b[i];
    SameRest(a, b, k, i);
    assert Removed(b, i)[j - 1] == b[j];
    SameBagSameElements(Removed(a, k), Removed(b, i), b[j]);
    var l :| 0 <= l < |Removed(a, k)| && Removed(a, k)[l] == b[j];
    if l < k { assert a[l] == b[j]; } else { assert a[l + 1] == b[j]; }
  }

  /**
   Where no two cards share a path, the order of the cards does not matter: a
   card has the same outcome wherever it stands, so permuted cards have permuted outcomes.
   */
  lemma PermutedCardsPermuteOutcomes(a: seq<Card>, b: seq<Card>, m: map<string, nat>, n: map<string, nat>)
    requires multiset(a) == multiset(b) && DistinctPaths(a) && ByPath(a, m) && ByPath(b, n)
    ensures forall i, j :: 0 <= i < |a| && 0 <= j < |b| && a[i] == b[j] ==> Results(a, m)[i] == Results(b, n)[j]
    ensures multiset(Results(a, m)) == multiset(Results(b, n))
  {
    SameCards(a, b);
    DistinctAfterPermuting(a, b);
    SameOutcome(a, b, m, n);
    var f := c => Outcome(CardsAt(a, m), Claimed(a), c);
    assert Results(a, m) == Mapped(f, a) && Results(b, n) == Mapped(f, b);
    MappedBags(f, a, b);
  }

  function Mapped(f: Card -> Card, s: seq<Card>): (r: seq<Card>)
    ensures |r| == |s| && forall i :: 0 <= i < |s| ==> r[i] == f(s[i])
  {
    seq(|s|, i requires 0 <= i < |s| => f(s[i]))
  }

  lemma {:induction false} MappedBags(f: Card -> Card, s: seq<Card>, t: seq<Card>)
    requires multiset(s) == multiset(t)
    ensures multiset(Mapped(f, s)) == multiset(Mapped(f, t))
    decreases |s|
  {
    if s == [] {
      assert |t| == |multiset(t)| == 0;
    } else {
      SameBagSameElements(s, t, s[0]);
      var k :| 0 <= k < |t| && t[k] == s[0];
      SameRest(s, t, 0, k);
      MappedBags(f, Removed(s, 0), Removed(t, k));
      MappedRemoved(f, s, 0);
      MappedRemoved(f, t, k);
    }
  }

  lemma MappedRemoved(f: Card -> Card, s: seq<Card>, k: nat)
    requires k < |s|
    ensures multiset(Mapped(f, s)) == multiset(Mapped(f, Removed(s, k))) + multiset{f(s[k])}
  {
    RemovedBag(Mapped(f, s), k);
    assert Removed(Mapped(f, s), k) == Mapped(f, Removed(s, k));
  }
}
