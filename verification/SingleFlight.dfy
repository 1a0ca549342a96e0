/**
 WithResponseCache as a step system over any number of request threads: one
 computation per key at a time, waiters woken once, and every answer the work of
 a handler that ran for the same key.
 */
module SingleFlight {
  import opened Base
  import opened ResponseCache

  type Tid = nat

  /** What a handler run left in its cachingWriter. `ttl` is the request's own freshness window. */
  datatype Response = Response(
    status: int, body: string, tooBig: bool,
    contentType: string, contentEncoding: string, cacheControl: string, etag: string, ttl: int)

  /**
   Where a thread stands. A claim is the channel it must close: a thread that
   holds one computes inline, or has answered from a stale entry and is about
   to start the refresh that will hold the claim instead.
   */
  datatype Thread =
    | Handing(key: Key, ch: Chan)
    | Waiting(key: Key, ch: Chan)
    | Computing(key: Key, claim: Option<Chan>)
    | Storing(key: Key, claim: Option<Chan>, r: Response)
    | Releasing(key: Key, ch: Chan)
    | Finished

  datatype Source = Hit | StaleHit | Wait

  datatype Answer = Answer(key: Key, entry: Entry, at: int, how: Source)

  /** `lookups`, `answers` and `produced` only record; nothing reads them. */
  datatype World = World(
    shared: Shared, now: int, threads: map<Tid, Thread>,
    lookups: nat, answers: set<Answer>, produced: set<(Key, Response)>)

  datatype Action =
    | Advance(now: int)
    | Arrive(tid: Tid, key: Key)
    | StartRefresh(tid: Tid, refresher: Tid)
    | Wake(tid: Tid)
    | Abandon(tid: Tid)
    | HandlerReturns(tid: Tid, r: Response)
    | HandlerPanics(tid: Tid)
    | Keep(tid: Tid)
    | Release(tid: Tid)

  predicate Storable(r: Response) {
    r.status == 200 && !r.tooBig && r.body != ""
  }

  function EntryOf(r: Response, now: int): Entry {
    Entry(r.body, r.contentType, r.contentEncoding, r.cacheControl, r.etag, now, r.ttl)
  }

  /** The claim a thread holds, as the key and the channel it must close. */
  function Claim(t: Thread): Option<(Key, Chan)> {
    match t
    case Handing(k, ch) => Some((k, ch))
    case Computing(k, c) => if c.Some? then Some((k, c.value)) else None
    case Storing(k, c, _) => if c.Some? then Some((k, c.value)) else None
    case Releasing(k, ch) => Some((k, ch))
    case _ => None
  }

  predicate Enabled(w: World, a: Action) {
    match a
    case Advance(now) => w.now <= now
    case Arrive(tid, _) => tid !in w.threads
    case StartRefresh(tid, refresher) => tid in w.threads && w.threads[tid].Handing? && refresher !in w.threads
    case Wake(tid) => tid in w.threads && w.threads[tid].Waiting? && w.threads[tid].ch in w.shared.closed
    case Abandon(tid) => tid in w.threads && w.threads[tid].Waiting?
    case HandlerReturns(tid, r) =>
      tid in w.threads && w.threads[tid].Computing? && (r.tooBig || |r.body| <= MAX_BODY)
    case HandlerPanics(tid) => tid in w.threads && w.threads[tid].Computing?
    case Keep(tid) => tid in w.threads && w.threads[tid].Storing?
    case Release(tid) => tid in w.threads && w.threads[tid].Releasing?
  }

  function At(w: World, tid: Tid, t: Thread): World {
    w.(threads := w.threads[tid := t])
  }

  function Answered(w: World, key: Key, e: Entry, how: Source): World {
    w.(answers := w.answers + {Answer(key, e, w.now, how)})
  }

  /** After computing: a thread with a claim goes on to release it, one without is done. */
  function Leaving(key: Key, claim: Option<Chan>): Thread {
    if claim.Some? then Releasing(key, claim.value) else Finished
  }

  /** What a lookup lets the thread answer at once: a fresh entry, or a stale one that is still servable. */
  function AnswersOnArrival(l: Looked, key: Key, now: int): set<Answer> {
    if l.isFresh then (if l.entry.Some? then {Answer(key, l.entry.value, now, Hit)} else {})
    else if l.entry.Some? && l.entry.value.body != "" then {Answer(key, l.entry.value, now, StaleHit)}
    else {}
  }

  /** Where a lookup sends the thread. */
  function Arriving(l: Looked, key: Key): Thread {
    if l.isFresh then Finished
    else if l.entry.Some? && l.entry.value.body != "" then
      (if l.claimed && l.wait.Some? then Handing(key, l.wait.value) else Finished)
    else if l.claimed then Computing(key, l.wait)
    else if l.wait.Some? then Waiting(key, l.wait.value) else Finished
  }

  function Apply(w: World, a: Action): World
    requires Enabled(w, a)
  {
    match a
    case Advance(now) => w.(now := now)
    case Arrive(tid, key) =>
      var (l, s) := Lookup(w.shared, key, w.now);
      w.(shared := s, lookups := w.lookups + 1, answers := w.answers + AnswersOnArrival(l, key, w.now),
         threads := w.threads[tid := Arriving(l, key)])
    case StartRefresh(tid, refresher) =>
      var t := w.threads[tid];
      At(At(w, tid, Finished), refresher, Computing(t.key, Some(t.ch)))
    case Wake(tid) =>
      var key := w.threads[tid].key;
      var got := Got(w.shared, key, w.now);
      if got.Some? then At(Answered(w, key, got.value, Wait), tid, Finished) else At(w, tid, Computing(key, None))
    case Abandon(tid) => At(w, tid, Finished)
    case HandlerReturns(tid, r) =>
      var t := w.threads[tid];
      At(w.(produced := w.produced + {(t.key, r)}), tid, Storing(t.key, t.claim, r))
    case HandlerPanics(tid) => At(w, tid, Leaving(w.threads[tid].key, w.threads[tid].claim))
    case Keep(tid) =>
      var t := w.threads[tid];
      var w1 := if Storable(t.r) then w.(shared := Stored(w.shared, t.key, EntryOf(t.r, w.now), w.now)) else w;
      At(w1, tid, Leaving(t.key, t.claim))
    case Release(tid) => At(w.(shared := Released(w.shared, w.threads[tid].key)), tid, Finished)
  }

  predicate Initial(w: World) {
    && w.shared.grace >= 0 && w.shared == Shared(w.shared.grace, map[], map[], 0, {}, 0, 0, 0, 0)
    && w.threads == map[] && w.lookups == 0 && w.answers == {} && w.produced == {}
  }

  ghost predicate IsRun(ws: seq<World>, acts: seq<Action>) {
    && |ws| == |acts| + 1 && Initial(ws[0])
    && forall i :: 0 <= i < |acts| ==> Enabled(ws[i], acts[i]) && ws[i + 1] == Apply(ws[i], acts[i])
  }

  // Claims.

  ghost predicate Holds(w: World, tid: Tid, key: Key, ch: Chan) {
    tid in w.threads && Claim(w.threads[tid]) == Some((key, ch))
  }

  /** A key is in flight exactly when one live thread holds its claim. */
  ghost predicate ClaimsOk(w: World) {
    && (forall tid, key, ch :: Holds(w, tid, key, ch) ==> key in w.shared.inflight && w.shared.inflight[key] == ch)
    && (forall key :: key in w.shared.inflight ==> exists tid :: Holds(w, tid, key, w.shared.inflight[key]))
    && (forall t, u, key, ch, c :: Holds(w, t, key, ch) && Holds(w, u, key, c) ==> t == u)
  }

  /** Every channel ever made is in flight under one key or closed, never both. */
  ghost predicate ChannelsOk(s: Shared) {
    && (forall key :: key in s.inflight ==> s.inflight[key] < s.made && s.inflight[key] !in s.closed)
    && (forall j, k :: j in s.inflight && k in s.inflight && s.inflight[j] == s.inflight[k] ==> j == k)
    && (forall ch :: ch in s.closed ==> ch < s.made)
    && s.made == |s.closed| + |s.inflight|
  }

  ghost predicate WaitersOk(w: World) {
    forall tid :: tid in w.threads && w.threads[tid].Waiting? ==>
      var t := w.threads[tid];
      t.ch in w.shared.closed || (t.key in w.shared.inflight && w.shared.inflight[t.key] == t.ch)
  }

  ghost predicate CountsOk(w: World) {
    w.shared.hits + w.shared.stale + w.shared.misses == w.lookups && w.shared.coalesced <= w.shared.misses
  }

  // Contents.

  /** An entry is what some handler run for its key left, within the size bounds. */
  ghost predicate Earned(w: World, key: Key, e: Entry) {
    && e.body != "" && |e.body| <= MAX_BODY && e.storedAt <= w.now
    && exists r :: (key, r) in w.produced && Storable(r) && e == EntryOf(r, e.storedAt)
  }

  ghost predicate EntriesOk(w: World) {
    && |w.shared.entries| <= MAX_ENTRIES
    && (forall key :: key in w.shared.entries ==> Earned(w, key, w.shared.entries[key]))
    && (forall tid :: tid in w.threads && w.threads[tid].Storing? ==>
          var t := w.threads[tid];
          (t.key, t.r) in w.produced && (t.r.tooBig || |t.r.body| <= MAX_BODY))
  }

  ghost predicate AnswerOk(w: World, a: Answer) {
    && Earned(w, a.key, a.entry) && a.entry.storedAt <= a.at
    && Age(a.entry, a.at) <= a.entry.ttl + (if a.how.Hit? then 0 else w.shared.grace)
  }

  ghost predicate AnswersOk(w: World) {
    forall a :: a in w.answers ==> AnswerOk(w, a)
  }

  ghost predicate Inv(w: World) {
    && ClaimsOk(w) && ChannelsOk(w.shared) && WaitersOk(w) && CountsOk(w)
    && w.shared.grace >= 0 && EntriesOk(w) && AnswersOk(w)
  }

  // Every step keeps each part of the invariant.

  /** Moving one thread, the shared state aside, moves at most its own claim. */
  lemma MoveKeepsClaims(w: World, tid: Tid, t: Thread)
    requires ClaimsOk(w) && tid in w.threads && Claim(t) == Claim(w.threads[tid])
    ensures ClaimsOk(At(w, tid, t))
  {
    var w' := At(w, tid, t);
    forall u, key, ch ensures Holds(w', u, key, ch) <==> Holds(w, u, key, ch) {}
    forall key | key in w.shared.inflight ensures exists u :: Holds(w', u, key, w.shared.inflight[key]) {
      var u :| Holds(w, u, key, w.shared.inflight[key]);
      assert Holds(w', u, key, w.shared.inflight[key]);
    }
  }

  lemma NewKeepsClaims(w: World, tid: Tid, t: Thread)
    requires ClaimsOk(w) && tid !in w.threads && Claim(t).None?
    ensures ClaimsOk(At(w, tid, t))
  {
    var w' := At(w, tid, t);
    forall u, key, ch ensures Holds(w', u, key, ch) <==> Holds(w, u, key, ch) {}
    forall key | key in w.shared.inflight ensures exists u :: Holds(w', u, key, w.shared.inflight[key]) {
      var u :| Holds(w, u, key, w.shared.inflight[key]);
      assert Holds(w', u, key, w.shared.inflight[key]);
    }
  }

  /** A lookup that claims gives the new channel to the thread that made it. */
  lemma ClaimKeepsClaims(w: World, tid: Tid, t: Thread, key: Key)
    requires ClaimsOk(w) && tid !in w.threads && key !in w.shared.inflight
    requires Claim(t) == Some((key, w.shared.made))
    ensures ClaimsOk(At(w.(shared := Lookup(w.shared, key, w.now).1), tid, t))
    requires !Fresh(w.shared, key, w.now)
  {
    var w' := At(w.(shared := Lookup(w.shared, key, w.now).1), tid, t);
    assert Holds(w', tid, key, w.shared.made);
    forall u, k, ch | u != tid ensures Holds(w', u, k, ch) <==> Holds(w, u, k, ch) {}
    forall k | k in w'.shared.inflight ensures exists u :: Holds(w', u, k, w'.shared.inflight[k]) {
      if k != key {
        var u :| Holds(w, u, k, w.shared.inflight[k]);
        assert Holds(w', u, k, w.shared.inflight[k]);
      }
    }
  }

  lemma RefreshKeepsClaims(w: World, tid: Tid, refresher: Tid)
    requires ClaimsOk(w) && Enabled(w, StartRefresh(tid, refresher))
    ensures ClaimsOk(Apply(w, StartRefresh(tid, refresher)))
  {
    var w' := Apply(w, StartRefresh(tid, refresher));
    var t := w.threads[tid];
    assert Holds(w, tid, t.key, t.ch) && Holds(w', refresher, t.key, t.ch);
    forall u, k, ch | u != tid && u != refresher ensures Holds(w', u, k, ch) <==> Holds(w, u, k, ch) {}
    forall k | k in w.shared.inflight ensures exists u :: Holds(w', u, k, w.shared.inflight[k]) {
      var u :| Holds(w, u, k, w.shared.inflight[k]);
      if u != tid { assert Holds(w', u, k, w.shared.inflight[k]); }
    }
  }

  lemma ReleaseKeepsClaims(w: World, tid: Tid)
    requires ClaimsOk(w) && Enabled(w, Release(tid))
    ensures ClaimsOk(Apply(w, Release(tid)))
  {
    var w' := Apply(w, Release(tid));
    var t := w.threads[tid];
    assert Holds(w, tid, t.key, t.ch);
    forall u, k, ch | u != tid ensures Holds(w', u, k, ch) <==> Holds(w, u, k, ch) {}
    forall k | k in w'.shared.inflight ensures exists u :: Holds(w', u, k, w'.shared.inflight[k]) {
      var u :| Holds(w, u, k, w.shared.inflight[k]);
      assert Holds(w', u, k, w.shared.inflight[k]);
    }
  }

  /** What touches neither threads nor claims leaves the claims as they were. */
  lemma SameClaims(w: World, v: World)
    requires ClaimsOk(w) && v.threads == w.threads && v.shared.inflight == w.shared.inflight
    ensures ClaimsOk(v)
  {
    forall u, k, ch ensures Holds(v, u, k, ch) <==> Holds(w, u, k, ch) {}
    forall k | k in v.shared.inflight ensures exists u :: Holds(v, u, k, v.shared.inflight[k]) {
      var u :| Holds(w, u, k, w.shared.inflight[k]);
      assert Holds(v, u, k, v.shared.inflight[k]);
    }
  }

  lemma ArriveKeepsClaims(w: World, tid: Tid, key: Key)
    requires ClaimsOk(w) && Enabled(w, Arrive(tid, key))
    ensures ClaimsOk(Apply(w, Arrive(tid, key)))
  {
    var w' := Apply(w, Arrive(tid, key));
    var (l, s) := Lookup(w.shared, key, w.now);
    if l.claimed {
      ClaimKeepsClaims(w, tid, w'.threads[tid], key);
      SameClaims(At(w.(shared := s), tid, w'.threads[tid]), w');
    } else {
      NewKeepsClaims(w, tid, w'.threads[tid]);
      SameClaims(At(w, tid, w'.threads[tid]), w');
    }
  }

  lemma StepKeepsClaims(w: World, a: Action)
    requires ClaimsOk(w) && Enabled(w, a)
    ensures ClaimsOk(Apply(w, a))
  {
    var w' := Apply(w, a);
    match a
    case Advance(_) => SameClaims(w, w');
    case Arrive(tid, key) => ArriveKeepsClaims(w, tid, key);
    case StartRefresh(tid, refresher) => RefreshKeepsClaims(w, tid, refresher);
    case Release(tid) => ReleaseKeepsClaims(w, tid);
    case Wake(tid) => MoveKeepsClaims(w, tid, w'.threads[tid]); SameClaims(At(w, tid, w'.threads[tid]), w');
    case Abandon(tid) => MoveKeepsClaims(w, tid, w'.threads[tid]);
    case HandlerReturns(tid, _) => MoveKeepsClaims(w, tid, w'.threads[tid]); SameClaims(At(w, tid, w'.threads[tid]), w');
    case HandlerPanics(tid) => MoveKeepsClaims(w, tid, w'.threads[tid]);
    case Keep(tid) => MoveKeepsClaims(w, tid, w'.threads[tid]); SameClaims(At(w, tid, w'.threads[tid]), w');
  }

  lemma LookupKeepsChannels(s: Shared, key: Key, now: int)
    requires ChannelsOk(s)
    ensures ChannelsOk(Lookup(s, key, now).1)
  {
  }

  /** Releasing a key closes its channel for the first time. */
  lemma ReleaseKeepsChannels(s: Shared, key: Key)
    requires ChannelsOk(s) && key in s.inflight
    ensures ChannelsOk(Released(s, key)) && s.inflight[key] !in s.closed && s.inflight[key] in Released(s, key).closed
  {
    var t := Released(s, key);
    assert t.inflight.Keys == s.inflight.Keys - {key};
    assert |t.closed| == |s.closed| + 1;
  }

  lemma SameChannels(s: Shared, t: Shared)
    requires ChannelsOk(s) && t.inflight == s.inflight && t.closed == s.closed && t.made == s.made
    ensures ChannelsOk(t)
  {
  }

  lemma StepKeepsChannels(w: World, a: Action)
    requires ClaimsOk(w) && ChannelsOk(w.shared) && Enabled(w, a)
    ensures ChannelsOk(Apply(w, a).shared)
  {
    match a
    case Arrive(_, key) => LookupKeepsChannels(w.shared, key, w.now);
    case Release(tid) =>
      var t := w.threads[tid];
      assert Holds(w, tid, t.key, t.ch);
      ReleaseKeepsChannels(w.shared, t.key);
    case _ => SameChannels(w.shared, Apply(w, a).shared);
  }

  lemma StepKeepsWaiters(w: World, a: Action)
    requires WaitersOk(w) && Enabled(w, a)
    ensures WaitersOk(Apply(w, a))
  {
  }

  lemma StepKeepsCounts(w: World, a: Action)
    requires CountsOk(w) && Enabled(w, a)
    ensures CountsOk(Apply(w, a))
  {
  }

  lemma EarnedStays(w: World, v: World, key: Key, e: Entry)
    requires Earned(w, key, e) && w.now <= v.now && w.produced <= v.produced
    ensures Earned(v, key, e)
  {
    var r :| (key, r) in w.produced && Storable(r) && e == EntryOf(r, e.storedAt);
    assert (key, r) in v.produced;
  }

  /** The one step that writes entries. */
  lemma KeepKeepsEntries(w: World, tid: Tid)
    requires EntriesOk(w) && Enabled(w, Keep(tid)) && Storable(w.threads[tid].r)
    ensures EntriesOk(Apply(w, Keep(tid)))
  {
    var w' := Apply(w, Keep(tid));
    var t := w.threads[tid];
    var e := EntryOf(t.r, w.now);
    StoredIsBounded(w.shared, t.key, e, w.now);
    assert (t.key, t.r) in w'.produced && e == EntryOf(t.r, e.storedAt);
    assert Earned(w', t.key, e);
    forall key | key in w'.shared.entries && key != t.key ensures Earned(w', key, w'.shared.entries[key]) {
      EarnedStays(w, w', key, w.shared.entries[key]);
    }
  }

  /** Entries unchanged, clocks and records grown, and every storing thread accounted for. */
  lemma SameEntries(w: World, v: World)
    requires EntriesOk(w) && v.shared.entries == w.shared.entries && w.now <= v.now && w.produced <= v.produced
    requires forall tid :: tid in v.threads && v.threads[tid].Storing? ==>
      (tid in w.threads && v.threads[tid] == w.threads[tid])
      || ((v.threads[tid].key, v.threads[tid].r) in v.produced
          && (v.threads[tid].r.tooBig || |v.threads[tid].r.body| <= MAX_BODY))
    ensures EntriesOk(v)
  {
    forall key | key in v.shared.entries ensures Earned(v, key, v.shared.entries[key]) {
      EarnedStays(w, v, key, w.shared.entries[key]);
    }
  }

  lemma ArriveKeepsEntries(w: World, tid: Tid, key: Key)
    requires EntriesOk(w) && Enabled(w, Arrive(tid, key))
    ensures EntriesOk(Apply(w, Arrive(tid, key)))
  {
    SameEntries(w, Apply(w, Arrive(tid, key)));
  }

  lemma ReturnKeepsEntries(w: World, tid: Tid, r: Response)
    requires EntriesOk(w) && Enabled(w, HandlerReturns(tid, r))
    ensures EntriesOk(Apply(w, HandlerReturns(tid, r)))
  {
    SameEntries(w, Apply(w, HandlerReturns(tid, r)));
  }

  lemma RefreshKeepsEntries(w: World, tid: Tid, refresher: Tid)
    requires EntriesOk(w) && Enabled(w, StartRefresh(tid, refresher))
    ensures EntriesOk(Apply(w, StartRefresh(tid, refresher)))
  {
    SameEntries(w, Apply(w, StartRefresh(tid, refresher)));
  }

  lemma WakeKeepsEntries(w: World, tid: Tid)
    requires EntriesOk(w) && Enabled(w, Wake(tid))
    ensures EntriesOk(Apply(w, Wake(tid)))
  {
    SameEntries(w, Apply(w, Wake(tid)));
  }

  lemma StepKeepsEntries(w: World, a: Action)
    requires EntriesOk(w) && Enabled(w, a)
    ensures EntriesOk(Apply(w, a))
  {
    match a
    case Arrive(tid, key) => ArriveKeepsEntries(w, tid, key);
    case HandlerReturns(tid, r) => ReturnKeepsEntries(w, tid, r);
    case StartRefresh(tid, refresher) => RefreshKeepsEntries(w, tid, refresher);
    case Wake(tid) => WakeKeepsEntries(w, tid);
    case Keep(tid) =>
      if Storable(w.threads[tid].r) { KeepKeepsEntries(w, tid); } else { SameEntries(w, Apply(w, a)); }
    case _ => SameEntries(w, Apply(w, a));
  }

  /** An answer given now from a held entry is sound and fresh enough. */
  lemma NewAnswerIsOk(w: World, v: World, a: Answer)
    requires EntriesOk(w) && w.shared.grace >= 0 && v.now == w.now && v.produced == w.produced
    requires v.shared.grace == w.shared.grace && a.at == w.now
    requires a.key in w.shared.entries && a.entry == w.shared.entries[a.key]
    requires if a.how.Hit? then Fresh(w.shared, a.key, w.now) else Usable(w.shared, a.key, w.now)
    ensures AnswerOk(v, a)
  {
    EarnedStays(w, v, a.key, a.entry);
  }

  /** Old answers stay sound as the records grow. */
  lemma SameAnswers(w: World, v: World)
    requires AnswersOk(w) && v.shared.grace == w.shared.grace && w.now <= v.now && w.produced <= v.produced
    ensures forall a :: a in w.answers ==> AnswerOk(v, a)
  {
    forall a | a in w.answers ensures AnswerOk(v, a) {
      EarnedStays(w, v, a.key, a.entry);
    }
  }

  lemma ArriveKeepsAnswers(w: World, tid: Tid, key: Key)
    requires w.shared.grace >= 0 && EntriesOk(w) && AnswersOk(w) && Enabled(w, Arrive(tid, key))
    ensures AnswersOk(Apply(w, Arrive(tid, key)))
  {
    var w' := Apply(w, Arrive(tid, key));
    SameAnswers(w, w');
    forall ans | ans in w'.answers && ans !in w.answers ensures AnswerOk(w', ans) {
      NewAnswerIsOk(w, w', ans);
    }
  }

  lemma WakeKeepsAnswers(w: World, tid: Tid)
    requires w.shared.grace >= 0 && EntriesOk(w) && AnswersOk(w) && Enabled(w, Wake(tid))
    ensures AnswersOk(Apply(w, Wake(tid)))
  {
    var w' := Apply(w, Wake(tid));
    SameAnswers(w, w');
    forall ans | ans in w'.answers && ans !in w.answers ensures AnswerOk(w', ans) {
      NewAnswerIsOk(w, w', ans);
    }
  }

  lemma StepKeepsAnswers(w: World, a: Action)
    requires w.shared.grace >= 0 && EntriesOk(w) && AnswersOk(w) && Enabled(w, a)
    ensures AnswersOk(Apply(w, a))
  {
    match a
    case Arrive(tid, key) => ArriveKeepsAnswers(w, tid, key);
    case Wake(tid) => WakeKeepsAnswers(w, tid);
    case _ => SameAnswers(w, Apply(w, a));
  }

  lemma StepKeepsGrace(w: World, a: Action)
    requires Enabled(w, a)
    ensures Apply(w, a).shared.grace == w.shared.grace
  {
  }

  lemma InvFromParts(w: World)
    requires ClaimsOk(w) && ChannelsOk(w.shared) && WaitersOk(w) && CountsOk(w)
    requires w.shared.grace >= 0 && EntriesOk(w) && AnswersOk(w)
    ensures Inv(w)
  {
  }

  lemma StepKeepsInv(w: World, a: Action)
    requires Inv(w) && Enabled(w, a)
    ensures Inv(Apply(w, a))
  {
    StepKeepsClaims(w, a);
    StepKeepsChannels(w, a);
    StepKeepsWaiters(w, a);
    StepKeepsCounts(w, a);
    StepKeepsEntries(w, a);
    StepKeepsAnswers(w, a);
    StepKeepsGrace(w, a);
    InvFromParts(Apply(w, a));
  }

  lemma {:induction false} RunKeepsInv(ws: seq<World>, acts: seq<Action>, i: nat)
    requires IsRun(ws, acts) && i < |ws|
    ensures Inv(ws[i])
  {
    if i > 0 {
      RunKeepsInv(ws, acts, i - 1);
      StepKeepsInv(ws[i - 1], acts[i - 1]);
    }
  }

  // What that means for every reachable state.

  /** Single flight: a key is in flight exactly when one live thread owns its computation, and only one does. */
  lemma OneComputationPerKey(ws: seq<World>, acts: seq<Action>, i: nat, key: Key)
    requires IsRun(ws, acts) && i < |ws|
    ensures key in ws[i].shared.inflight <==> exists tid, ch :: Holds(ws[i], tid, key, ch)
    ensures forall t, u, ch, c :: Holds(ws[i], t, key, ch) && Holds(ws[i], u, key, c) ==> t == u && ch == c
  {
    RunKeepsInv(ws, acts, i);
    if key in ws[i].shared.inflight {
      var tid :| Holds(ws[i], tid, key, ws[i].shared.inflight[key]);
      assert Holds(ws[i], tid, key, ws[i].shared.inflight[key]);
    }
  }

  /** Nobody waits on a channel that is neither closed nor owned by a live computation of the same key. */
  lemma WaitersHaveALeader(ws: seq<World>, acts: seq<Action>, i: nat, tid: Tid)
    requires IsRun(ws, acts) && i < |ws| && tid in ws[i].threads && ws[i].threads[tid].Waiting?
    ensures var t := ws[i].threads[tid];
      t.ch in ws[i].shared.closed || exists u :: Holds(ws[i], u, t.key, t.ch)
  {
    RunKeepsInv(ws, acts, i);
  }

  /** Every claim ever made is held now or was released, and a release closes its channel for the first time. */
  lemma ClaimsAreReleasedOnce(ws: seq<World>, acts: seq<Action>, i: nat)
    requires IsRun(ws, acts) && i < |acts|
    ensures ws[i].shared.made == |ws[i].shared.closed| + |ws[i].shared.inflight|
    ensures ws[i].shared.closed <= ws[i + 1].shared.closed
    ensures forall ch :: ch in ws[i + 1].shared.closed && ch !in ws[i].shared.closed ==>
      acts[i].Release? && ws[i].threads[acts[i].tid].ch == ch
    ensures acts[i].Release? ==>
      var ch := ws[i].threads[acts[i].tid].ch;
      ch !in ws[i].shared.closed && ch in ws[i + 1].shared.closed
  {
    RunKeepsInv(ws, acts, i);
    if acts[i].Release? {
      var t := ws[i].threads[acts[i].tid];
      assert Holds(ws[i], acts[i].tid, t.key, t.ch);
    }
  }

  /** Every lookup is counted as exactly one of hit, stale and miss. */
  lemma LookupsAreCounted(ws: seq<World>, acts: seq<Action>, i: nat)
    requires IsRun(ws, acts) && i < |ws|
    ensures ws[i].shared.hits + ws[i].shared.stale + ws[i].shared.misses == ws[i].lookups
  {
    RunKeepsInv(ws, acts, i);
  }

  /**
   Every answer from the cache is the successful, bounded, non-empty output of
   a handler run for the same key, stored at most its ttl ago, or at most the
   grace beyond that when it was served stale or to a waiter.
   */
  lemma AnswersAreSoundAndFresh(ws: seq<World>, acts: seq<Action>, i: nat, a: Answer)
    requires IsRun(ws, acts) && i < |ws| && a in ws[i].answers
    ensures exists r :: (a.key, r) in ws[i].produced && Storable(r) && a.entry == EntryOf(r, a.entry.storedAt)
    ensures a.entry.body != "" && |a.entry.body| <= MAX_BODY
    ensures a.entry.storedAt <= a.at <= a.entry.storedAt + a.entry.ttl + if a.how.Hit? then 0 else ws[i].shared.grace
  {
    RunKeepsInv(ws, acts, i);
    assert AnswerOk(ws[i], a);
  }

  /** The cache never holds more than its cap, and never an empty body. */
  lemma CacheIsBounded(ws: seq<World>, acts: seq<Action>, i: nat)
    requires IsRun(ws, acts) && i < |ws|
    ensures |ws[i].shared.entries| <= MAX_ENTRIES
    ensures forall key :: key in ws[i].shared.entries ==> 0 < |ws[i].shared.entries[key].body| <= MAX_BODY
  {
    RunKeepsInv(ws, acts, i);
    forall key | key in ws[i].shared.entries ensures 0 < |ws[i].shared.entries[key].body| <= MAX_BODY {
      assert Earned(ws[i], key, ws[i].shared.entries[key]);
    }
  }

  // What can be served is served.

  /**
   A request that finds an entry no older than its ttl and the grace is answered
   with it at once: from a fresh one it is done, from a stale one it is done or
   goes on to start the one refresh. It never waits and never computes.
   */
  lemma ArrivalIsServed(ws: seq<World>, acts: seq<Action>, i: nat, tid: Tid, key: Key)
    requires IsRun(ws, acts) && i < |acts| && acts[i] == Arrive(tid, key)
    requires var s := ws[i].shared; key in s.entries && ws[i].now - s.entries[key].storedAt <= s.entries[key].ttl + s.grace
    ensures var s, w := ws[i].shared, ws[i + 1];
      var young := ws[i].now - s.entries[key].storedAt <= s.entries[key].ttl;
      && w.answers == ws[i].answers + {Answer(key, s.entries[key], ws[i].now, if young then Hit else StaleHit)}
      && tid in w.threads
      && w.threads[tid] == if young || key in s.inflight then Finished else Handing(key, s.made)
  {
    RunKeepsInv(ws, acts, i);
    LookupByTheClock(ws[i].shared, key, ws[i].now);
    assert Earned(ws[i], key, ws[i].shared.entries[key]);
  }

  /** One that finds none is not answered from the cache, and waits for the computation under way or starts it. */
  lemma ArrivalIsSentOn(ws: seq<World>, acts: seq<Action>, i: nat, tid: Tid, key: Key)
    requires IsRun(ws, acts) && i < |acts| && acts[i] == Arrive(tid, key)
    requires var s := ws[i].shared; key !in s.entries || ws[i].now - s.entries[key].storedAt > s.entries[key].ttl + s.grace
    ensures var s, w := ws[i].shared, ws[i + 1];
      && w.answers == ws[i].answers && tid in w.threads
      && w.threads[tid] == if key in s.inflight then Waiting(key, s.inflight[key]) else Computing(key, Some(s.made))
  {
    RunKeepsInv(ws, acts, i);
    LookupByTheClock(ws[i].shared, key, ws[i].now);
  }

  /** A woken waiter is answered with what it finds, or computes without a claim. */
  lemma WaiterIsServed(ws: seq<World>, acts: seq<Action>, i: nat, tid: Tid)
    requires IsRun(ws, acts) && i < |acts| && acts[i] == Wake(tid)
    ensures var s, w := ws[i].shared, ws[i + 1];
      var key := ws[i].threads[tid].key;
      if key in s.entries && ws[i].now - s.entries[key].storedAt <= s.entries[key].ttl + s.grace
      then w.threads[tid] == Finished && w.answers == ws[i].answers + {Answer(key, s.entries[key], ws[i].now, Wait)}
      else w.threads[tid] == Computing(key, None) && w.answers == ws[i].answers
  {
    RunKeepsInv(ws, acts, i);
  }

  /** A success that fits is stored under its key, with the time it was stored at; nothing else changes the entry. */
  lemma SuccessIsStored(ws: seq<World>, acts: seq<Action>, i: nat, tid: Tid)
    requires IsRun(ws, acts) && i < |acts| && acts[i] == Keep(tid)
    ensures var t, s, now := ws[i].threads[tid], ws[i].shared, ws[i + 1].shared;
      if t.r.status == 200 && !t.r.tooBig && |t.r.body| > 0
      then t.key in now.entries && now.entries[t.key] ==
        Entry(t.r.body, t.r.contentType, t.r.contentEncoding, t.r.cacheControl, t.r.etag, ws[i].now, t.r.ttl)
      else now.entries == s.entries
  {
    RunKeepsInv(ws, acts, i);
  }
}
