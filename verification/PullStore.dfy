/** Pull requests as GitHub answers them, the rows they become, and the tables those rows live in. */
module PullStore {
  import opened Base
  import opened Strings

  /** A GraphQL actor; GitHub answers none for a deleted account. */
  datatype Actor = Actor(login: string, isApp: bool)

  /** A review or a comment. */
  datatype Note = Note(author: Option<Actor>, at: string)

  datatype Pull = Pull(
    number: int, title: string, author: Option<Actor>, open: bool, draft: bool,
    createdAt: string, updatedAt: int, mergedAt: string, closedAt: string,
    reviews: seq<Note>, comments: seq<Note>)

  datatype Row = Row(
    number: int, title: string, author: string, open: bool, draft: bool,
    createdAt: string, updatedAt: int, mergedAt: string, closedAt: string)

  datatype EventKind = Review | Comment
  datatype Event = Event(number: int, login: string, kind: EventKind, at: string)

  predicate HasSuffix(s: string, suffix: string) {
    |suffix| <= |s| && s[|s| - |suffix|..] == suffix
  }

  /** The login as REST spells it: an app's carries the bot suffix. */
  function NameOf(a: Option<Actor>): string {
    if a.None? then ""
    else if a.value.isApp && !HasSuffix(a.value.login, "[bot]") then a.value.login + "[bot]"
    else a.value.login
  }

  const BOT_LOGINS := {
    "dependabot", "dependabot[bot]", "github-actions", "renovate", "renovate[bot]", "codecov",
    "coderabbitai", "gnolang-bot", "mergify", "allcontributors", "semantic-release", "web-flow",
    "copilot-swe-agent", "gno2d2"}

  predicate IsBot(login: string) {
    var l := ToLower(TrimSpace(login));
    l == "" || l in BOT_LOGINS || HasSuffix(l, "[bot]") || HasSuffix(l, "-bot")
  }

  /** Whether `toRows` writes a note: dated, by a known person, who is neither the author nor a bot. */
  predicate Counts(author: string, n: Note) {
    var login := NameOf(n.author);
    login != "" && n.at != "" && login != author && !IsBot(login)
  }

  function RowOf(p: Pull): Row {
    Row(p.number, p.title, NameOf(p.author), p.open, p.draft, p.createdAt, p.updatedAt, p.mergedAt, p.closedAt)
  }

  function EventsFrom(number: int, author: string, kind: EventKind, notes: seq<Note>): seq<Event> {
    if notes == [] then []
    else
      var n := notes[|notes| - 1];
      EventsFrom(number, author, kind, notes[..|notes| - 1])
      + if Counts(author, n) then [Event(number, NameOf(n.author), kind, n.at)] else []
  }

  /** A pull request's full event set: its reviews, then its comments. */
  function EventsOf(p: Pull): seq<Event> {
    var author := NameOf(p.author);
    EventsFrom(p.number, author, Review, p.reviews) + EventsFrom(p.number, author, Comment, p.comments)
  }

  // What rows and events say, note by note.

  /** An actor's login as REST spells it; a deleted account has none. */
  predicate CalledAs(a: Option<Actor>, login: string) {
    match a
    case None => login == ""
    case Some(x) => if !x.isApp || EndsIn(x.login, "[bot]") then login == x.login else login == x.login + "[bot]"
  }

  predicate EndsIn(s: string, end: string) { |end| <= |s| && forall i :: 0 <= i < |end| ==> s[|s| - |end| + i] == end[i] }

  /** Machine output: the login, trimmed and in small letters, is empty, on the list, or ends like a bot's. */
  ghost predicate Robot(login: string) {
    exists t, l :: Trimmed(login, t) && Lowered(t, l) && (l == "" || l in BOT_LOGINS || EndsIn(l, "[bot]") || EndsIn(l, "-bot"))
  }

  /** The event that a note makes: dated, by a person who is neither the author nor a bot. */
  ghost predicate Tells(p: Pull, kind: EventKind, n: Note, ev: Event) {
    && ev.kind == kind && ev.number == p.number && ev.at == n.at != ""
    && CalledAs(n.author, ev.login) && ev.login != "" && !CalledAs(p.author, ev.login) && !Robot(ev.login)
  }

  /** Some review or comment tells the event. */
  ghost predicate Told(p: Pull, ev: Event) {
    (exists n :: n in p.reviews && Tells(p, Review, n, ev)) || (exists n :: n in p.comments && Tells(p, Comment, n, ev))
  }

  lemma NameOfIs(a: Option<Actor>, login: string)
    ensures CalledAs(a, login) <==> login == NameOf(a)
  {
    if a.Some? { SuffixIs(a.value.login, "[bot]"); }
  }

  lemma SuffixIs(s: string, end: string)
    ensures HasSuffix(s, end) <==> EndsIn(s, end)
  {
    if |end| <= |s| {
      var tail := s[|s| - |end|..];
      forall i | 0 <= i < |end| ensures tail[i] == s[|s| - |end| + i] {}
      if EndsIn(s, end) { assert tail == end; }
    }
  }

  lemma IsBotIs(login: string)
    ensures IsBot(login) <==> Robot(login)
  {
    TrimSpaceTrims(login);
    var t, l := TrimSpace(login), ToLower(TrimSpace(login));
    ToLowerLowers(t);
    SuffixIs(l, "[bot]");
    SuffixIs(l, "-bot");
    forall u, k | Trimmed(login, u) && Lowered(u, k) ensures k == l {
      TrimmedOnce(login, t, u);
      LoweredOnce(t, k, l);
    }
  }

  lemma CountsIs(p: Pull, kind: EventKind, n: Note, ev: Event)
    ensures Tells(p, kind, n, ev) <==> Counts(NameOf(p.author), n) && ev == Event(p.number, NameOf(n.author), kind, n.at)
  {
    NameOfIs(n.author, ev.login);
    NameOfIs(p.author, ev.login);
    IsBotIs(ev.login);
  }

  lemma {:induction false} EventsFromTell(p: Pull, kind: EventKind, notes: seq<Note>, ev: Event)
    ensures ev in EventsFrom(p.number, NameOf(p.author), kind, notes) <==> exists n :: n in notes && Tells(p, kind, n, ev)
  {
    if notes != [] {
      var k := |notes| - 1;
      EventsFromTell(p, kind, notes[..k], ev);
      CountsIs(p, kind, notes[k], ev);
      assert notes == notes[..k] + [notes[k]];
    }
  }

  /**
   The events of a pull request are exactly those its notes tell: each dated
   review and comment by somebody who is known, not the author and not a bot, and nothing else.
   */
  lemma EventsAreOthersNotes(p: Pull)
    ensures forall ev :: ev in EventsOf(p) <==> Told(p, ev)
  {
    forall ev ensures ev in EventsOf(p) <==> Told(p, ev) {
      EventsFromTell(p, Review, p.reviews, ev);
      EventsFromTell(p, Comment, p.comments, ev);
    }
  }

  /** Event `j` is told by note `at[j]`; the notes keep their order, and the others tell nothing. */
  ghost predicate ToldInOrder(p: Pull, kind: EventKind, notes: seq<Note>, at: seq<nat>, evs: seq<Event>) {
    && |at| == |evs|
    && (forall i, j :: 0 <= i < j < |at| ==> at[i] < at[j])
    && (forall j :: 0 <= j < |at| ==> at[j] < |notes| && Tells(p, kind, notes[at[j]], evs[j]))
    && (forall i :: 0 <= i < |notes| && i !in at ==> forall ev :: !Tells(p, kind, notes[i], ev))
  }

  lemma {:induction false} EventsKeepNoteOrder(p: Pull, kind: EventKind, notes: seq<Note>) returns (at: seq<nat>)
    ensures ToldInOrder(p, kind, notes, at, EventsFrom(p.number, NameOf(p.author), kind, notes))
  {
    if notes == [] {
      at := [];
    } else {
      var k := |notes| - 1;
      var n, front := notes[k], notes[..k];
      var evs := EventsFrom(p.number, NameOf(p.author), kind, front);
      at := EventsKeepNoteOrder(p, kind, front);
      assert notes == front + [n];
      forall ev ensures Tells(p, kind, n, ev) <==> Counts(NameOf(p.author), n) && ev == Event(p.number, NameOf(n.author), kind, n.at) {
        CountsIs(p, kind, n, ev);
      }
      if Counts(NameOf(p.author), n) {
        ToldOneMore(p, kind, front, n, at, evs, Event(p.number, NameOf(n.author), kind, n.at));
        at := at + [k];
      } else {
        ToldNoMore(p, kind, front, n, at, evs);
      }
    }
  }

  /** Reviews first and then comments, each kind in the order of its notes, one event a note. */
  lemma EventsInOrder(p: Pull) returns (rs: seq<nat>, reviews: seq<Event>, cs: seq<nat>, comments: seq<Event>)
    ensures EventsOf(p) == reviews + comments
    ensures ToldInOrder(p, Review, p.reviews, rs, reviews) && ToldInOrder(p, Comment, p.comments, cs, comments)
  {
    reviews := EventsFrom(p.number, NameOf(p.author), Review, p.reviews);
    comments := EventsFrom(p.number, NameOf(p.author), Comment, p.comments);
    rs := EventsKeepNoteOrder(p, Review, p.reviews);
    cs := EventsKeepNoteOrder(p, Comment, p.comments);
  }

  lemma ToldOneMore(p: Pull, kind: EventKind, front: seq<Note>, n: Note, at: seq<nat>, evs: seq<Event>, ev: Event)
    requires ToldInOrder(p, kind, front, at, evs) && Tells(p, kind, n, ev)
    ensures ToldInOrder(p, kind, front + [n], at + [|front|], evs + [ev])
  {
    var notes, more := front + [n], at + [|front|];
    forall i | 0 <= i < |notes| && i !in more ensures forall e :: !Tells(p, kind, notes[i], e) {
      assert more[|at|] == |front|;
      assert i !in at && notes[i] == front[i];
    }
  }

  lemma ToldNoMore(p: Pull, kind: EventKind, front: seq<Note>, n: Note, at: seq<nat>, evs: seq<Event>)
    requires ToldInOrder(p, kind, front, at, evs) && forall e :: !Tells(p, kind, n, e)
    ensures ToldInOrder(p, kind, front + [n], at, evs)
  {
  }

  /** `toRows`. */
  method ToRows(p: Pull) returns (row: Row, evs: seq<Event>)
    ensures row == RowOf(p) && evs == EventsOf(p)
    ensures row.number == p.number && row.title == p.title && CalledAs(p.author, row.author)
    ensures row.open == p.open && row.draft == p.draft
    ensures row.createdAt == p.createdAt && row.updatedAt == p.updatedAt && row.mergedAt == p.mergedAt && row.closedAt == p.closedAt
    ensures forall ev :: ev in evs <==> Told(p, ev)
  {
    NameOfIs(p.author, NameOf(p.author));
    EventsAreOthersNotes(p);
    var author := NameOf(p.author);
    row := Row(p.number, p.title, author, p.open, p.draft, p.createdAt, p.updatedAt, p.mergedAt, p.closedAt);
    evs := [];
    for i := 0 to |p.reviews|
      invariant evs == EventsFrom(p.number, author, Review, p.reviews[..i])
    {
      assert p.reviews[..i + 1][..i] == p.reviews[..i];
      var login := NameOf(p.reviews[i].author);
      if login != "" && p.reviews[i].at != "" && login != author && !IsBot(login) {
        evs := evs + [Event(p.number, login, Review, p.reviews[i].at)];
      }
    }
    assert p.reviews[..|p.reviews|] == p.reviews;
    ghost var reviews := evs;
    for i := 0 to |p.comments|
      invariant evs == reviews + EventsFrom(p.number, author, Comment, p.comments[..i])
    {
      assert p.comments[..i + 1][..i] == p.comments[..i];
      var login := NameOf(p.comments[i].author);
      if login != "" && p.comments[i].at != "" && login != author && !IsBot(login) {
        evs := evs + [Event(p.number, login, Comment, p.comments[i].at)];
      }
    }
    assert p.comments[..|p.comments|] == p.comments;
  }

  // The tables.

  type Rows = map<int, Row>
  type EventRows = map<int, seq<Event>>

  /** An upsert: everything but the creation time is overwritten. */
  function Upserted(rows: Rows, r: Row): Rows {
    rows[r.number := if r.number in rows then r.(createdAt := rows[r.number].createdAt) else r]
  }

  function UpsertedAll(rows: Rows, prs: seq<Row>): Rows {
    if prs == [] then rows else Upserted(UpsertedAll(rows, prs[..|prs| - 1]), prs[|prs| - 1])
  }

  /** A page's events grouped by pull request, in page order. */
  function ForPull(evs: seq<Event>, number: int): seq<Event> {
    if evs == [] then []
    else ForPull(evs[..|evs| - 1], number)
         + if evs[|evs| - 1].number == number then [evs[|evs| - 1]] else []
  }

  predicate OnPage(prs: seq<Row>, number: int) {
    exists i :: 0 <= i < |prs| && prs[i].number == number
  }

  lemma ForPullConcat(a: seq<Event>, b: seq<Event>, number: int)
    ensures ForPull(a + b, number) == ForPull(a, number) + ForPull(b, number)
  {
    if b == [] {
      assert a + b == a;
    } else {
      var k := |b| - 1;
      assert (a + b)[..|a + b| - 1] == a + b[..k];
      ForPullConcat(a, b[..k], number);
    }
  }

  /** A missing pull request's events read as none. */
  function At(events: EventRows, n: int): seq<Event> {
    if n in events then events[n] else []
  }

  function Deleted(events: EventRows, prs: seq<Row>): EventRows {
    if prs == [] then events else Deleted(events, prs[..|prs| - 1])[prs[|prs| - 1].number := []]
  }

  function Inserted(events: EventRows, evs: seq<Event>): EventRows {
    if evs == [] then events
    else
      var before := Inserted(events, evs[..|evs| - 1]);
      var ev := evs[|evs| - 1];
      before[ev.number := At(before, ev.number) + [ev]]
  }

  lemma OnPageSplit(prs: seq<Row>, n: int)
    requires prs != []
    ensures OnPage(prs, n) <==> OnPage(prs[..|prs| - 1], n) || prs[|prs| - 1].number == n
  {
    var front := prs[..|prs| - 1];
    if OnPage(front, n) {
      var j :| 0 <= j < |front| && front[j].number == n;
      assert prs[j].number == n;
    }
    if OnPage(prs, n) {
      var j :| 0 <= j < |prs| && prs[j].number == n;
      if j < |front| { assert front[j].number == n; }
    }
  }

  lemma {:induction false} DeletedAt(events: EventRows, prs: seq<Row>, n: int)
    ensures At(Deleted(events, prs), n) == if OnPage(prs, n) then [] else At(events, n)
  {
    if prs != [] {
      var k := |prs| - 1;
      DeletedAt(events, prs[..k], n);
      OnPageSplit(prs, n);
    }
  }

  lemma {:induction false} InsertedAt(events: EventRows, evs: seq<Event>, n: int)
    ensures At(Inserted(events, evs), n) == At(events, n) + ForPull(evs, n)
  {
    if evs != [] { InsertedAt(events, evs[..|evs| - 1], n); }
  }

  lemma DeletedThenInsertedAt(events: EventRows, prs: seq<Row>, evs: seq<Event>, n: int)
    ensures At(Inserted(Deleted(events, prs), evs), n) == (if OnPage(prs, n) then [] else At(events, n)) + ForPull(evs, n)
  {
    DeletedAt(events, prs, n);
    InsertedAt(Deleted(events, prs), evs, n);
  }

  /** What replacing a page's events leaves: the page's for the pull requests on it, the old ones for the rest. */
  lemma ReplacedAt(events: EventRows, prs: seq<Row>, evs: seq<Event>, n: int)
    requires forall i :: 0 <= i < |evs| ==> OnPage(prs, evs[i].number)
    ensures At(Inserted(Deleted(events, prs), evs), n) == if OnPage(prs, n) then ForPull(evs, n) else At(events, n)
  {
    DeletedThenInsertedAt(events, prs, evs, n);
    if !OnPage(prs, n) { NoneForPull(prs, evs, n); }
  }

  lemma {:induction false} NoneForPull(prs: seq<Row>, evs: seq<Event>, n: int)
    requires !OnPage(prs, n) && forall i :: 0 <= i < |evs| ==> OnPage(prs, evs[i].number)
    ensures ForPull(evs, n) == []
  {
    if evs != [] { NoneForPull(prs, evs[..|evs| - 1], n); }
  }

  /** The two tables of one repository. */
  class Store {
    var rows: Rows
    var events: EventRows

    /** `UpsertPRs`, one transaction. */
    method UpsertPRs(prs: seq<Row>)
      modifies this`rows
      ensures rows == UpsertedAll(old(rows), prs)
    {
      for i := 0 to |prs|
        invariant rows == UpsertedAll(old(rows), prs[..i])
      {
        assert prs[..i + 1][..i] == prs[..i];
        var r := prs[i];
        if r.number in rows { r := r.(createdAt := rows[r.number].createdAt); }
        rows := rows[r.number := r];
      }
      assert prs[..|prs|] == prs;
    }

    /** The second transaction of `StorePage`: a page's pull requests lose their events and get the page's. */
    method ReplaceEvents(prs: seq<Row>, evs: seq<Event>)
      modifies this`events
      ensures events == Inserted(Deleted(old(events), prs), evs)
    {
      for i := 0 to |prs|
        invariant events == Deleted(old(events), prs[..i])
      {
        assert prs[..i + 1][..i] == prs[..i];
        events := events[prs[i].number := []];
      }
      assert prs[..|prs|] == prs;
      ghost var cleared := events;
      for i := 0 to |evs|
        invariant events == Inserted(cleared, evs[..i])
      {
        assert evs[..i + 1][..i] == evs[..i];
        events := events[evs[i].number := At(events, evs[i].number) + [evs[i]]];
      }
      assert evs[..|evs|] == evs;
    }
  }
}
