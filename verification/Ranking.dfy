/** The ranked feed: scores that fade and are damped per actor, and the cap that keeps one voice from filling the page. */
module Ranking {
  import opened Base
  import opened Sorting

  datatype Event = Event(id: string, at: string, actor: string, namespace: string, base: real, score: real, demoted: bool)

  /** By score, then newest, then id. */
  predicate Outranks(a: Event, b: Event) {
    if a.score != b.score then a.score > b.score else if a.at != b.at then Before(b.at, a.at) else Before(a.id, b.id)
  }

  lemma OutranksIsStrictWeak()
    ensures StrictWeak(Outranks)
  {
    forall a: Event, b: Event, c: Event ensures Lawful(Outranks, a, b, c) {
      OneSided(a, b);
      if Outranks(a, b) && !Outranks(c, b) {
        if c.score == b.score && c.at == b.at {
          NotBefore(a.id, b.id, c.id);
        } else {
          NotBefore(b.at, a.at, b.at);
          BeforeIsTotal(b.at, c.at);
          if Before(c.at, b.at) && Before(b.at, a.at) { BeforeIsTransitive(c.at, b.at, a.at); }
        }
      }
    }
  }

  lemma OneSided(a: Event, b: Event)
    ensures Outranks(a, b) ==> !Outranks(b, a)
  {
    if Before(a.at, b.at) && Before(b.at, a.at) { BeforeIsTransitive(a.at, b.at, a.at); }
    if Before(a.id, b.id) && Before(b.id, a.id) { BeforeIsTransitive(a.id, b.id, a.id); }
    BeforeIsStrict(a.at);
    BeforeIsStrict(a.id);
  }

  lemma NotBefore(a: string, b: string, c: string)
    ensures Before(a, b) && !Before(c, b) ==> Before(a, c)
  {
    BeforeIsTotal(c, b);
    if Before(a, b) && Before(b, c) { BeforeIsTransitive(a, b, c); }
  }

  /** Of two events with different ids one outranks the other. */
  lemma OutranksIsTotal(a: Event, b: Event)
    requires a.id != b.id
    ensures Outranks(a, b) || Outranks(b, a)
  {
    BeforeIsTotal(a.at, b.at);
    BeforeIsTotal(a.id, b.id);
  }

  /** A ranked list reads from the highest score down, equal scores from the newest on, and the rest by id. */
  lemma RankedInOrder(events: seq<Event>, i: nat, j: nat)
    requires i < j < |events|
    ensures var r := StableSort(Outranks, events);
      && |r| == |events| && multiset(r) == multiset(events)
      && r[i].score >= r[j].score
      && (r[i].score == r[j].score ==> r[j].at == r[i].at || Before(r[j].at, r[i].at))
      && (r[i].score == r[j].score && r[i].at == r[j].at ==> r[i].id == r[j].id || Before(r[i].id, r[j].id))
  {
    OutranksIsStrictWeak();
    SortIsStable(Outranks, events);
    var r := StableSort(Outranks, events);
    assert !Outranks(r[j], r[i]);
    BeforeIsTotal(r[i].at, r[j].at);
    BeforeIsTotal(r[i].id, r[j].id);
  }

  // Scores.

  const HALF_LIFE := 72.0

  /** `Recency`, over a given halving curve. */
  function Recency(halved: real -> real, ageHours: real): real {
    if ageHours <= 0.0 then 1.0 else halved(ageHours / HALF_LIFE)
  }

  /** What is known of a half raised to a power: positive, and at most one from zero on. */
  ghost predicate Halving(halved: real -> real) {
    forall x :: x >= 0.0 ==> 0.0 < halved(x) <= 1.0
  }

  /** `Damp`, for the `rank`th event of an actor. */
  function Damp(rank: nat): (d: real)
    ensures 0.0 < d <= 1.0
  {
    1.0 / (1.0 + 0.5 * (if rank < 1 then 0 else rank - 1) as real)
  }

  lemma DampFalls(i: nat, j: nat)
    requires 1 <= i < j
    ensures Damp(j) < Damp(i)
  {
    var x, y := 1.0 + 0.5 * (i - 1) as real, 1.0 + 0.5 * (j - 1) as real;
    assert 0.0 < x < y;
    Reciprocals(x, y);
  }

  /** The first event of an actor keeps its score, and event `n` of one is worth two parts in `n` + 1. */
  lemma DampInNumbers(n: nat)
    requires n >= 1
    ensures Damp(1) == 1.0 && Damp(n) * (n + 1) as real == 2.0
  {
    var d := 1.0 + 0.5 * (n - 1) as real;
    assert Damp(n) * d == 1.0;
    assert 2.0 * d == (n + 1) as real;
  }

  /** A score halves every three days, and does not fade before it is any age. */
  lemma RecencyInNumbers(halved: real -> real, days: real)
    ensures Recency(halved, 24.0 * days) == if days <= 0.0 then 1.0 else halved(days / 3.0)
  {
    assert 24.0 * days / HALF_LIFE == days / 3.0;
  }

  lemma Reciprocals(x: real, y: real)
    requires 0.0 < x < y
    ensures 1.0 / y < 1.0 / x
  {
    assert (1.0 / y) * x * y == x;
    assert (1.0 / x) * x * y == y;
  }

  /** Which of its actor's events this one is, from the top. */
  function RankWithin(events: seq<Event>, i: nat): (r: nat)
    requires i < |events|
  {
    Count(events[..i + 1], events[i].actor)
  }

  function Count(events: seq<Event>, actor: string): nat {
    if events == [] then 0
    else Count(events[..|events| - 1], actor) + if events[|events| - 1].actor == actor then 1 else 0
  }

  function DampedOne(events: seq<Event>, i: nat): Event
    requires i < |events|
  {
    var e := events[i];
    if e.actor == "" then e else e.(score := e.score * Damp(RankWithin(events, i)))
  }

  function Damped(events: seq<Event>): (r: seq<Event>)
    ensures |r| == |events| && forall i :: 0 <= i < |r| ==> r[i] == DampedOne(events, i)
  {
    seq(|events|, i requires 0 <= i < |events| => DampedOne(events, i))
  }

  function Get(m: map<string, nat>, k: string): nat { if k in m then m[k] else 0 }

  ghost predicate Counts(events: seq<Event>, seen: map<string, nat>) {
    forall a :: a != "" ==> Count(events, a) == Get(seen, a)
  }

  lemma CountsMore(events: seq<Event>, i: nat, seen: map<string, nat>)
    requires i < |events| && Counts(events[..i], seen)
    ensures var a := events[i].actor;
      if a == "" then Counts(events[..i + 1], seen)
      else Counts(events[..i + 1], seen[a := Get(seen, a) + 1]) && RankWithin(events, i) == Get(seen, a) + 1
  {
    var next := events[..i + 1];
    assert next[..i] == events[..i] && next[|next| - 1] == events[i];
    forall b | b != "" ensures Count(next, b) == Get(seen, b) + if events[i].actor == b then 1 else 0 {
    }
  }

  /** The first half of `applyDamping`: scales every event in rank order. */
  method DampAll(events: array<Event>)
    modifies events
    ensures events[..] == Damped(old(events[..]))
  {
    ghost var was, damped := events[..], Damped(events[..]);
    var seen: map<string, nat> := map[];
    for i := 0 to events.Length
      invariant forall k :: 0 <= k < i ==> events[k] == damped[k]
      invariant forall k :: i <= k < events.Length ==> events[k] == was[k]
      invariant Counts(was[..i], seen)
    {
      CountsMore(was, i, seen);
      var actor := events[i].actor;
      if actor != "" {
        var n := Get(seen, actor) + 1;
        seen := seen[actor := n];
        events[i] := events[i].(score := events[i].score * Damp(n));
      }
      assert events[i] == DampedOne(was, i);
    }
  }

  /** Ranks in place. */
  method Rank(events: array<Event>)
    modifies events
    ensures events[..] == StableSort(Outranks, old(events[..]))
  {
    Overwrite(events, StableSort(Outranks, events[..]));
  }

  /** `applyDamping`: scales, then ranks again. */
  method ApplyDamping(events: array<Event>)
    modifies events
    ensures events[..] == StableSort(Outranks, Damped(old(events[..])))
  {
    DampAll(events);
    Rank(events);
  }

  lemma Shrinks(x: real, f: real)
    requires x >= 0.0 && 0.0 < f <= 1.0
    ensures 0.0 <= x * f <= x
  {
  }

  lemma {:induction false} CountGrows(events: seq<Event>, i: nat, j: nat, actor: string)
    requires i <= j <= |events|
    ensures Count(events[..i], actor) <= Count(events[..j], actor)
    decreases j
  {
    if i < j {
      assert events[..j][..j - 1] == events[..j - 1];
      CountGrows(events, i, j - 1, actor);
    }
  }

  lemma RankGrows(events: seq<Event>, i: nat, j: nat)
    requires i < j < |events| && events[i].actor == events[j].actor
    ensures 1 <= RankWithin(events, i) < RankWithin(events, j)
  {
    assert events[..i + 1][..i] == events[..i] && events[..j + 1][..j] == events[..j];
    CountGrows(events, i + 1, j, events[i].actor);
  }

  ghost predicate DistinctIds(events: seq<Event>) {
    forall i, j :: 0 <= i < j < |events| ==> events[i].id != events[j].id
  }

  /** Damping leaves the higher of two events of one actor the higher. */
  lemma DampedKeepsActorOrder(events: seq<Event>, i: nat, j: nat)
    requires Ordered(Outranks, events) && DistinctIds(events) && forall k :: 0 <= k < |events| ==> events[k].score >= 0.0
    requires i < j < |events| && events[i].actor == events[j].actor != ""
    ensures Outranks(Damped(events)[i], Damped(events)[j])
  {
    var a, b := events[i], events[j];
    OutranksIsTotal(a, b);
    assert Outranks(a, b);
    RankGrows(events, i, j);
    DampFalls(RankWithin(events, i), RankWithin(events, j));
    Scaled(a.score, b.score, Damp(RankWithin(events, i)), Damp(RankWithin(events, j)));
  }

  lemma Scaled(x: real, y: real, f: real, g: real)
    requires x >= y >= 0.0 && f > g > 0.0
    ensures x * f >= y * g && (x * f == y * g ==> x == y == 0.0)
  {
    assert x * f - y * g == (x - y) * f + y * (f - g);
  }

  /** Two places of the final ranking hold two different damped events. */
  lemma Located(events: seq<Event>, r: seq<Event>, p: nat, q: nat) returns (i: nat, j: nat)
    requires DistinctIds(events) && multiset(r) == multiset(Damped(events)) && p < q < |r|
    ensures i < |events| && j < |events| && i != j && Damped(events)[i] == r[p] && Damped(events)[j] == r[q]
  {
    var d := Damped(events);
    InBag(d, r, r[p]);
    InBag(d, r, r[q]);
    i :| 0 <= i < |d| && d[i] == r[p];
    j :| 0 <= j < |d| && d[j] == r[q];
    if r[p] == r[q] {
      TwiceInBag(r, p, q);
      OnceInBag(d, r[p]);
    }
  }

  /** Two events of one actor stand in the final ranking as they stood before the damping. */
  lemma ActorOrderSurvives(events: seq<Event>, p: nat, q: nat) returns (i: nat, j: nat)
    requires Ordered(Outranks, events) && DistinctIds(events) && forall k :: 0 <= k < |events| ==> events[k].score >= 0.0
    requires p < q < |events|
    requires var r := StableSort(Outranks, Damped(events)); r[p].actor == r[q].actor != ""
    ensures var r := StableSort(Outranks, Damped(events));
      i < j < |events| && events[i].id == r[p].id && events[j].id == r[q].id
  {
    OutranksIsStrictWeak();
    SortIsStable(Outranks, Damped(events));
    i, j := Located(events, StableSort(Outranks, Damped(events)), p, q);
    if j < i { DampedKeepsActorOrder(events, j, i); }
  }

  lemma InBag<T>(s: seq<T>, r: seq<T>, x: T)
    requires multiset(s) == multiset(r) && x in r
    ensures x in s
  {
    assert x in multiset(r);
  }

  lemma TwiceInBag<T>(r: seq<T>, p: nat, q: nat)
    requires p < q < |r| && r[p] == r[q]
    ensures multiset(r)[r[p]] >= 2
  {
    assert r == r[..q] + [r[q]] + r[q + 1..];
    assert r[p] in r[..q];
  }

  lemma {:induction false} OnceInBag(s: seq<Event>, x: Event)
    requires DistinctIds(s)
    ensures multiset(s)[x] <= 1
    decreases |s|
  {
    if s != [] {
      var n := |s| - 1;
      assert s == s[..n] + [s[n]];
      OnceInBag(s[..n], x);
      forall k | 0 <= k < n ensures s[..n][k] != s[n] {
        assert s[k].id != s[n].id;
      }
    }
  }

  // The diversity cap.

  datatype Quotas = Quotas(perActor: nat, perNamespace: nat, window: nat)

  function QuotasFor(highlights: int): Quotas {
    if highlights > 0 then Quotas(1, 2, highlights) else Quotas(3, 4, 20)
  }

  function CountSpace(events: seq<Event>, namespace: string): nat {
    if events == [] then 0
    else CountSpace(events[..|events| - 1], namespace) + if events[|events| - 1].namespace == namespace then 1 else 0
  }

  predicate Full(kept: seq<Event>, q: Quotas, e: Event) {
    || (e.actor != "" && Count(kept, e.actor) >= q.perActor)
    || (e.namespace != "" && CountSpace(kept, e.namespace) >= q.perNamespace)
  }

  predicate Over(kept: seq<Event>, q: Quotas, e: Event) {
    |kept| < q.window && Full(kept, q, e)
  }

  /** The rows kept and the rows demoted, as they were. */
  datatype Split = Split(kept: seq<Event>, demoted: seq<Event>)

  function Capped(events: seq<Event>, q: Quotas): Split {
    if events == [] then Split([], [])
    else
      var k := |events| - 1;
      var s := Capped(events[..k], q);
      if Over(s.kept, q, events[k]) then s.(demoted := s.demoted + [events[k]]) else s.(kept := s.kept + [events[k]])
  }

  function Marked(events: seq<Event>): (r: seq<Event>)
    ensures |r| == |events| && forall i :: 0 <= i < |r| ==> r[i] == events[i].(demoted := true)
  {
    seq(|events|, i requires 0 <= i < |events| => events[i].(demoted := true))
  }

  /** What the counting maps hold of the rows kept so far. */
  ghost predicate Counting(kept: seq<Event>, actors: map<string, nat>, namespaces: map<string, nat>) {
    && (forall a :: Count(kept, a) == Get(actors, a))
    && (forall n :: CountSpace(kept, n) == Get(namespaces, n))
  }

  function Bumped(m: map<string, nat>, k: string): map<string, nat> { m[k := Get(m, k) + 1] }

  lemma CountingMore(kept: seq<Event>, actors: map<string, nat>, namespaces: map<string, nat>, e: Event)
    requires Counting(kept, actors, namespaces)
    ensures Counting(kept + [e], Bumped(actors, e.actor), Bumped(namespaces, e.namespace))
  {
    assert (kept + [e])[..|kept|] == kept;
  }

  /** Where the loop stands after the rows `done`. */
  ghost predicate CapState(done: seq<Event>, q: Quotas, kept: seq<Event>, demoted: seq<Event>, actors: map<string, nat>, namespaces: map<string, nat>) {
    Capped(done, q).kept == kept && Marked(Capped(done, q).demoted) == demoted && Counting(kept, actors, namespaces)
  }

  lemma CapStep(done: seq<Event>, q: Quotas, kept: seq<Event>, demoted: seq<Event>, actors: map<string, nat>, namespaces: map<string, nat>, e: Event)
    requires CapState(done, q, kept, demoted, actors, namespaces)
    ensures if Over(kept, q, e)
      then CapState(done + [e], q, kept, demoted + [e.(demoted := true)], actors, namespaces)
      else CapState(done + [e], q, kept + [e], demoted, Bumped(actors, e.actor), Bumped(namespaces, e.namespace))
  {
    assert (done + [e])[..|done|] == done;
    CountingMore(kept, actors, namespaces, e);
  }

  /** The loop of `applyDiversityCap`. */
  method CapRows(events: seq<Event>, q: Quotas) returns (kept: seq<Event>, demoted: seq<Event>)
    ensures kept == Capped(events, q).kept && demoted == Marked(Capped(events, q).demoted)
  {
    var actors: map<string, nat>, namespaces: map<string, nat> := map[], map[];
    kept, demoted := [], [];
    for i := 0 to |events|
      invariant CapState(events[..i], q, kept, demoted, actors, namespaces)
    {
      var e := events[i];
      CapStep(events[..i], q, kept, demoted, actors, namespaces, e);
      assert events[..i + 1] == events[..i] + [e];
      var over := false;
      if |kept| < q.window {
        if e.actor != "" && Get(actors, e.actor) >= q.perActor { over := true; }
        if e.namespace != "" && Get(namespaces, e.namespace) >= q.perNamespace { over := true; }
      }
      if over {
        demoted := demoted + [e.(demoted := true)];
      } else {
        actors := Bumped(actors, e.actor);
        namespaces := Bumped(namespaces, e.namespace);
        kept := kept + [e];
      }
    }
    assert events[..|events|] == events;
  }

  /** `applyDiversityCap`. */
  method ApplyDiversityCap(events: array<Event>, highlights: int)
    modifies events
    ensures var s := Capped(old(events[..]), QuotasFor(highlights)); events[..] == s.kept + Marked(s.demoted)
  {
    var kept, demoted := CapRows(events[..], QuotasFor(highlights));
    CappedLength(events[..], QuotasFor(highlights));
    Overwrite(events, kept + demoted);
  }

  lemma {:induction false} CappedLength(events: seq<Event>, q: Quotas)
    ensures |Capped(events, q).kept| + |Capped(events, q).demoted| == |events|
  {
    if events != [] { CappedLength(events[..|events| - 1], q); }
  }

  // The feed.

  /** The rows of the page: ranked, damped and ranked again, then capped. */
  function Feed(events: seq<Event>, highlights: int): seq<Event> {
    var s := Capped(StableSort(Outranks, Damped(StableSort(Outranks, events))), QuotasFor(highlights));
    s.kept + Marked(s.demoted)
  }

  /** The ranking half of `handleDiscover`. */
  method RankFeed(events: array<Event>, highlights: int)
    modifies events
    ensures events[..] == Feed(old(events[..]), highlights)
  {
    Rank(events);
    ApplyDamping(events);
    ApplyDiversityCap(events, highlights);
  }

  /** `scoreAndJudge`'s score: the stored base, faded by age. */
  predicate Scored(halved: real -> real, e: Event, ageHours: real) {
    e.base >= 0.0 && e.score == e.base * Recency(halved, ageHours)
  }

  predicate WithinBase(e: Event) { 0.0 <= e.score <= e.base }

  ghost predicate AllWithinBase(events: seq<Event>) {
    forall e :: e in events ==> WithinBase(e)
  }

  lemma RecencyFades(halved: real -> real, ageHours: real)
    requires Halving(halved)
    ensures 0.0 < Recency(halved, ageHours) <= 1.0
  {
    if ageHours > 0.0 { assert 0.0 < halved(ageHours / HALF_LIFE) <= 1.0; }
  }

  lemma ScoredIsWithinBase(halved: real -> real, e: Event, ageHours: real)
    requires Halving(halved) && Scored(halved, e, ageHours)
    ensures WithinBase(e)
  {
    RecencyFades(halved, ageHours);
    Faded(e, Recency(halved, ageHours));
  }

  lemma Faded(e: Event, r: real)
    requires e.base >= 0.0 && 0.0 < r <= 1.0 && e.score == e.base * r
    ensures WithinBase(e)
  {
    Shrinks(e.base, r);
  }

  lemma SortedWithinBase(events: seq<Event>)
    requires AllWithinBase(events)
    ensures AllWithinBase(StableSort(Outranks, events))
  {
    OutranksIsStrictWeak();
    InsertAllOrders(Outranks, [], events);
    var sorted := StableSort(Outranks, events);
    forall e | e in sorted ensures WithinBase(e) {
      assert e in multiset(sorted) && multiset(sorted) == multiset(events);
      assert e in events;
    }
  }

  lemma DampedWithinBase(events: seq<Event>)
    requires AllWithinBase(events)
    ensures AllWithinBase(Damped(events))
  {
    forall i | 0 <= i < |events| ensures WithinBase(DampedOne(events, i)) {
      assert events[i] in events;
      Shrinks(events[i].score, Damp(RankWithin(events, i)));
    }
  }

  lemma {:induction false} CappedWithinBase(events: seq<Event>, q: Quotas)
    requires AllWithinBase(events)
    ensures AllWithinBase(Capped(events, q).kept) && AllWithinBase(Capped(events, q).demoted)
  {
    if events != [] { CappedWithinBase(events[..|events| - 1], q); }
  }

  /** No row of the feed scores above its stored base, or below nothing, however old it is and however many rows its actor has. */
  lemma ScoreNeverExceedsBase(halved: real -> real, events: seq<Event>, ages: seq<real>, highlights: int)
    requires Halving(halved) && |ages| == |events| && forall i :: 0 <= i < |events| ==> Scored(halved, events[i], ages[i])
    ensures forall i :: 0 <= i < |Feed(events, highlights)| ==>
      0.0 <= Feed(events, highlights)[i].score <= Feed(events, highlights)[i].base
  {
    forall i | 0 <= i < |events| ensures WithinBase(events[i]) {
      ScoredIsWithinBase(halved, events[i], ages[i]);
    }
    SortedWithinBase(events);
    var ranked := StableSort(Outranks, events);
    DampedWithinBase(ranked);
    SortedWithinBase(Damped(ranked));
    CappedWithinBase(StableSort(Outranks, Damped(ranked)), QuotasFor(highlights));
    FeedWithinBase(Capped(StableSort(Outranks, Damped(ranked)), QuotasFor(highlights)));
  }

  lemma FeedWithinBase(s: Split)
    requires AllWithinBase(s.kept) && AllWithinBase(s.demoted)
    ensures var rows := s.kept + Marked(s.demoted); forall i :: 0 <= i < |rows| ==> WithinBase(rows[i])
  {
    var rows := s.kept + Marked(s.demoted);
    forall i | 0 <= i < |rows| ensures WithinBase(rows[i]) {
      if i < |s.kept| { assert rows[i] in s.kept; } else { assert s.demoted[i - |s.kept|] in s.demoted; }
    }
  }

  /** Nothing disappears and no score changes: kept and demoted rows together are the rows there were. */
  lemma {:induction false} CapLosesNothing(events: seq<Event>, q: Quotas)
    ensures multiset(Capped(events, q).kept) + multiset(Capped(events, q).demoted) == multiset(events)
  {
    if events != [] {
      var k := |events| - 1;
      CapLosesNothing(events[..k], q);
      assert events == events[..k] + [events[k]];
      OneMoreInBag(Capped(events[..k], q).kept, Capped(events[..k], q).demoted, events[..k], events[k]);
    }
  }

  lemma OneMoreInBag(a: seq<Event>, b: seq<Event>, s: seq<Event>, e: Event)
    requires multiset(a) + multiset(b) == multiset(s)
    ensures multiset(a + [e]) + multiset(b) == multiset(s + [e])
    ensures multiset(a) + multiset(b + [e]) == multiset(s + [e])
  {
  }

  /** `a` is what is left of `s` when some rows are taken out: the order is kept. */
  ghost predicate InOrder(a: seq<Event>, s: seq<Event>)
    decreases |s|
  {
    if s == [] then a == []
    else
      var k := |s| - 1;
      InOrder(a, s[..k]) || (a != [] && a[|a| - 1] == s[k] && InOrder(a[..|a| - 1], s[..k]))
  }

  /** Rows kept stand in their order, and so do rows demoted. */
  lemma {:induction false} CapKeepsOrder(events: seq<Event>, q: Quotas)
    ensures InOrder(Capped(events, q).kept, events) && InOrder(Capped(events, q).demoted, events)
  {
    if events != [] {
      var k := |events| - 1;
      CapKeepsOrder(events[..k], q);
      var s := Capped(events[..k], q);
      assert (s.kept + [events[k]])[..|s.kept|] == s.kept && (s.demoted + [events[k]])[..|s.demoted|] == s.demoted;
    }
  }

  /** Among the first rows of the page, up to the window, no actor and no namespace has more than its quota. */
  lemma {:induction false} QuotasHold(events: seq<Event>, q: Quotas, n: nat, actor: string, namespace: string)
    requires n <= |Capped(events, q).kept| && n <= q.window
    ensures actor != "" ==> Count(Capped(events, q).kept[..n], actor) <= q.perActor
    ensures namespace != "" ==> CountSpace(Capped(events, q).kept[..n], namespace) <= q.perNamespace
  {
    if events != [] {
      var k := |events| - 1;
      var s, t := Capped(events[..k], q), Capped(events, q);
      if n <= |s.kept| {
        QuotasHold(events[..k], q, n, actor, namespace);
        assert t.kept[..n] == s.kept[..n];
      } else {
        QuotasHold(events[..k], q, n - 1, actor, namespace);
        assert t.kept[..n] == t.kept && t.kept[..n - 1] == s.kept && s.kept[..n - 1] == s.kept;
      }
    }
  }

  /** No row is demoted without cause: when its turn came the window was open and its actor or namespace had its quota. */
  lemma {:induction false} DemotedForCause(events: seq<Event>, q: Quotas, e: Event) returns (i: nat)
    requires e in Capped(events, q).demoted
    ensures i < |events| && events[i] == e && Over(Capped(events[..i], q).kept, q, e)
  {
    var k := |events| - 1;
    if e in Capped(events[..k], q).demoted {
      i := DemotedForCause(events[..k], q, e);
      assert events[..k][..i] == events[..i];
    } else {
      i := k;
    }
  }

  function PerActor(highlights: int): nat { if highlights > 0 then 1 else 3 }
  function PerNamespace(highlights: int): nat { if highlights > 0 then 2 else 4 }
  function FirstRows(highlights: int): nat { if highlights > 0 then highlights else 20 }

  /** Of the first twenty rows at most three are one actor's and four one namespace's; of so many highlights, one and two. */
  lemma PageQuotas(events: seq<Event>, highlights: int, n: nat, actor: string, namespace: string)
    requires n <= |Capped(events, QuotasFor(highlights)).kept| && n <= FirstRows(highlights)
    ensures var first := Capped(events, QuotasFor(highlights)).kept[..n];
      && (actor != "" ==> Count(first, actor) <= PerActor(highlights))
      && (namespace != "" ==> CountSpace(first, namespace) <= PerNamespace(highlights))
  {
    QuotasHold(events, QuotasFor(highlights), n, actor, namespace);
  }

  /** And a row demoted would have been one too many of them. */
  lemma DemotedIsOneTooMany(events: seq<Event>, highlights: int, e: Event) returns (i: nat)
    requires e in Capped(events, QuotasFor(highlights)).demoted
    ensures i < |events| && events[i] == e
    ensures var kept := Capped(events[..i], QuotasFor(highlights)).kept;
      && |kept| < FirstRows(highlights)
      && ((e.actor != "" && Count(kept, e.actor) == PerActor(highlights))
          || (e.namespace != "" && CountSpace(kept, e.namespace) == PerNamespace(highlights)))
  {
    var q := QuotasFor(highlights);
    i := DemotedForCause(events, q, e);
    var kept := Capped(events[..i], q).kept;
    QuotasHold(events[..i], q, |kept|, e.actor, e.namespace);
    assert kept[..|kept|] == kept;
  }
}
