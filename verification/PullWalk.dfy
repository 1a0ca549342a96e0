/**
 The resumable walk over a repository's pull requests, as a step system: other
 people edit pull requests while pages are read, rows and events are committed
 in two transactions, and a crash, a rate limit or a page budget may end a pass
 between any two steps.
 */
module PullWalk {
  import opened Base
  import opened Strings
  import opened PullStore

  const SLACK := 3600
  const PAGE_SIZE := 50
  const NOTES_SIZE := 100
  const MAX_PAGES := 120

  /** A position in the list ordered by update time, newest first. `Top` is the empty cursor. */
  datatype Cursor = Top | After(updatedAt: int, number: int)

  /** A saved walk: see gh_walks. */
  datatype Walk = Walk(started: Option<int>, cursor: Cursor, watermark: Option<int>)

  /** A pull request as read so far, and whether reviews or comments of it are still to be asked for. */
  datatype Item = Item(pull: Pull, moreReviews: bool, moreComments: bool)

  datatype Page = Page(items: seq<Item>, end: Cursor, hasNext: bool)

  /** Where a pass stands. `st` is walkRepo's own copy of the walk; `pages` counts pages read this pass. */
  datatype Phase =
    | Idle
    | Asking(st: Walk, pages: nat)
    | Reading(st: Walk, page: Page, pages: nat)
    | RowsDone(st: Walk, page: Page, pages: nat)
    | Stored(st: Walk, page: Page, pages: nat)
    | Saved(st: Walk, page: Page, pages: nat)
    | Ending(st: Walk, complete: bool)

  datatype DB = DB(rows: Rows, events: EventRows, walk: Walk)

  /** `remote` is GitHub, `theirs` its clock, `ours` this process's clock. */
  datatype World = World(remote: map<int, Pull>, theirs: int, ours: int, db: DB, phase: Phase)

  datatype Action =
    | Tick(theirs: int, ours: int)
    | Edit(p: Pull)
    | Begin
    | Read(page: Page)
    | More(k: nat, reviews: bool)
    | StoreRows
    | StoreEvents
    | SaveCursor
    | Decide
    | Finish
    | Fail
    | Crash

  // GitHub's listing.

  predicate Newer(a: Pull, b: Pull) {
    a.updatedAt > b.updatedAt || (a.updatedAt == b.updatedAt && a.number > b.number)
  }

  /** Still to be listed after `c`. */
  predicate Behind(p: Pull, c: Cursor) {
    c.Top? || c.updatedAt > p.updatedAt || (c.updatedAt == p.updatedAt && c.number > p.number)
  }

  function Take(notes: seq<Note>, n: nat): seq<Note> {
    if |notes| <= n then notes else notes[..n]
  }

  /** What the page query answers for a pull request: everything, but at most 100 of each kind of note. */
  function FirstRead(p: Pull): Item {
    Item(p.(reviews := Take(p.reviews, NOTES_SIZE), comments := Take(p.comments, NOTES_SIZE)),
         |p.reviews| > NOTES_SIZE, |p.comments| > NOTES_SIZE)
  }

  predicate OnItems(items: seq<Item>, n: int) {
    exists i :: 0 <= i < |items| && items[i].pull.number == n
  }

  /** `page` is what GitHub answers after `c`: the next pull requests in order, up to the page size. */
  ghost predicate PageOf(remote: map<int, Pull>, c: Cursor, page: Page) {
    && |page.items| <= PAGE_SIZE
    && (forall i :: 0 <= i < |page.items| ==>
          var n := page.items[i].pull.number;
          n in remote && page.items[i] == FirstRead(remote[n]) && Behind(remote[n], c))
    && (forall i, j :: 0 <= i < j < |page.items| ==> Newer(page.items[i].pull, page.items[j].pull))
    && (forall n :: n in remote && Behind(remote[n], c) && !OnItems(page.items, n) ==>
          page.hasNext && Behind(remote[n], page.end))
    && (page.hasNext ==> page.items != [])
    && page.end == if page.items == [] then Top
                   else var last := page.items[|page.items| - 1].pull; After(last.updatedAt, last.number)
  }

  // Page processing.

  function PageRows(items: seq<Item>): seq<Row> {
    seq(|items|, i requires 0 <= i < |items| => RowOf(items[i].pull))
  }

  function PageEvents(items: seq<Item>): seq<Event> {
    if items == [] then []
    else PageEvents(items[..|items| - 1]) + EventsOf(items[|items| - 1].pull)
  }

  predicate AllRead(items: seq<Item>) {
    forall i :: 0 <= i < |items| ==> !items[i].moreReviews && !items[i].moreComments
  }

  /** One follow-up request: the next notes of the pull request as it now is. */
  function ReadMore(remote: map<int, Pull>, it: Item, reviews: bool): Item {
    var n := it.pull.number;
    if n !in remote then it.(moreReviews := it.moreReviews && !reviews, moreComments := it.moreComments && reviews)
    else if reviews then
      var have := it.pull.reviews;
      var all := remote[n].reviews;
      var got := have + if |have| <= |all| then Take(all[|have|..], NOTES_SIZE) else [];
      it.(pull := it.pull.(reviews := got), moreReviews := |got| < |all|)
    else
      var have := it.pull.comments;
      var all := remote[n].comments;
      var got := have + if |have| <= |all| then Take(all[|have|..], NOTES_SIZE) else [];
      it.(pull := it.pull.(comments := got), moreComments := |got| < |all|)
  }

  /** The least recently updated pull request on a page. */
  function Oldest(items: seq<Item>): int
    requires items != []
  {
    if |items| == 1 then items[0].pull.updatedAt
    else
      var rest := Oldest(items[..|items| - 1]);
      var last := items[|items| - 1].pull.updatedAt;
      if last < rest then last else rest
  }

  /** Whether a walk that has stored `page` has reached the end of what it was asked to read. */
  predicate ReachedEnd(st: Walk, page: Page) {
    !page.hasNext || (st.watermark.Some? && page.items != [] && Oldest(page.items) < st.watermark.value - SLACK)
  }

  // The step system.

  predicate Busy(ph: Phase) { ph.Asking? || ph.Reading? }

  ghost predicate Enabled(w: World, a: Action) {
    match a
    case Tick(theirs, ours) => w.theirs <= theirs && -SLACK <= theirs - ours <= SLACK
    case Edit(p) =>
      p.updatedAt == w.theirs && (p.number in w.remote ==> p.createdAt == w.remote[p.number].createdAt)
    case Begin => w.phase.Idle?
    case Read(page) => w.phase.Asking? && w.phase.pages < MAX_PAGES && PageOf(w.remote, w.phase.st.cursor, page)
    case More(k, reviews) =>
      w.phase.Reading? && k < |w.phase.page.items|
      && (if reviews then w.phase.page.items[k].moreReviews else w.phase.page.items[k].moreComments)
    case StoreRows => w.phase.Reading? && AllRead(w.phase.page.items)
    case StoreEvents => w.phase.RowsDone?
    case SaveCursor => w.phase.Stored?
    case Decide => w.phase.Saved? || (w.phase.Asking? && w.phase.pages >= MAX_PAGES)
    case Finish => w.phase.Ending?
    case Fail => Busy(w.phase)
    case Crash => true
  }

  function Apply(w: World, a: Action): World
    requires Enabled(w, a)
  {
    match a
    case Tick(theirs, ours) => w.(theirs := theirs, ours := ours)
    case Edit(p) => w.(remote := w.remote[p.number := p])
    case Begin =>
      var st := w.db.walk;
      w.(phase := Asking(if st.cursor.Top? then st.(started := Some(w.ours)) else st, 0))
    case Read(page) => w.(phase := Reading(w.phase.st, page, w.phase.pages + 1))
    case More(k, reviews) =>
      var page := w.phase.page;
      var read := page.(items := page.items[k := ReadMore(w.remote, page.items[k], reviews)]);
      w.(phase := Reading(w.phase.st, read, w.phase.pages))
    case StoreRows =>
      w.(db := w.db.(rows := UpsertedAll(w.db.rows, PageRows(w.phase.page.items))),
         phase := RowsDone(w.phase.st, w.phase.page, w.phase.pages))
    case StoreEvents =>
      var items := w.phase.page.items;
      w.(db := w.db.(events := Inserted(Deleted(w.db.events, PageRows(items)), PageEvents(items))),
         phase := Stored(w.phase.st, w.phase.page, w.phase.pages))
    case SaveCursor =>
      var st := w.phase.st.(cursor := w.phase.page.end);
      w.(db := w.db.(walk := st), phase := Saved(st, w.phase.page, w.phase.pages))
    case Decide =>
      if w.phase.Asking? then w.(phase := Ending(w.phase.st, false))
      else if ReachedEnd(w.phase.st, w.phase.page) then w.(phase := Ending(w.phase.st, true))
      else w.(phase := Asking(w.phase.st, w.phase.pages))
    case Finish =>
      var st := if w.phase.complete then w.phase.st.(watermark := w.phase.st.started, cursor := Top) else w.phase.st;
      w.(db := w.db.(walk := st), phase := Idle)
    case Fail => w.(phase := Ending(w.phase.st, false))
    case Crash => w.(phase := Idle)
  }

  /** Nothing stored yet, and a pull request is never newer than GitHub's clock. */
  ghost predicate Initial(w: World) {
    && w.db == DB(map[], map[], Walk(None, Top, None)) && w.phase == Idle
    && -SLACK <= w.theirs - w.ours <= SLACK
    && forall n :: n in w.remote ==> w.remote[n].number == n && w.remote[n].updatedAt <= w.theirs
  }

  ghost predicate IsRun(ws: seq<World>, acts: seq<Action>) {
    && |ws| == |acts| + 1 && Initial(ws[0])
    && forall i :: 0 <= i < |acts| ==> Enabled(ws[i], acts[i]) && ws[i + 1] == Apply(ws[i], acts[i])
  }

  // What holds throughout.

  /** Stored in its current version with its full event set. */
  ghost predicate Current(db: DB, p: Pull) {
    p.number in db.rows && db.rows[p.number] == RowOf(p) && At(db.events, p.number) == EventsOf(p)
  }

  /** Every pull request last updated before `bar` is current, except those still listed after `c` when `more`. */
  ghost predicate CurrentBut(w: World, bar: int, more: bool, c: Cursor) {
    forall n :: n in w.remote && w.remote[n].updatedAt < bar && !(more && Behind(w.remote[n], c)) ==>
      Current(w.db, w.remote[n])
  }

  /** Updated since this walk started and since the last complete one did. */
  ghost predicate Recent(st: Walk, p: Pull) {
    && st.started.Some? && p.updatedAt >= st.started.value - SLACK
    && (st.watermark.Some? ==> p.updatedAt >= st.watermark.value - SLACK)
  }

  ghost predicate Matches(p: Pull, it: Item) {
    && it.pull == p.(reviews := it.pull.reviews, comments := it.pull.comments)
    && it.pull.reviews <= p.reviews && (it.moreReviews <==> |it.pull.reviews| < |p.reviews|)
    && it.pull.comments <= p.comments && (it.moreComments <==> |it.pull.comments| < |p.comments|)
  }

  /** What was read of a pull request is still true of it, or somebody has updated it since. */
  ghost predicate ItemOk(remote: map<int, Pull>, st: Walk, it: Item) {
    var n := it.pull.number;
    && n in remote && it.pull.createdAt == remote[n].createdAt
    && (Matches(remote[n], it) || Recent(st, remote[n]))
  }

  ghost predicate PageOk(w: World, st: Walk, page: Page) {
    && (forall i :: 0 <= i < |page.items| ==> ItemOk(w.remote, st, page.items[i]))
    && (forall i, j :: 0 <= i < j < |page.items| ==> page.items[i].pull.number != page.items[j].pull.number)
    && (forall n :: n in w.remote && Behind(w.remote[n], st.cursor) && !OnItems(page.items, n) ==>
          Recent(st, w.remote[n]) || (page.hasNext && Behind(w.remote[n], page.end)))
  }

  /** Only the oldest pull request on a page can be the end of it. */
  ghost predicate EndOk(page: Page) {
    page.hasNext ==> page.items != [] && page.end.After? && page.end.updatedAt <= Oldest(page.items)
  }

  ghost predicate WalkOk(w: World, st: Walk) {
    && st.started.Some? && st.started.value - SLACK <= w.theirs
    && st.watermark == w.db.walk.watermark && (w.db.walk.cursor.After? ==> w.db.walk.started == st.started)
    && CurrentBut(w, st.started.value - SLACK, true, st.cursor)
  }

  ghost predicate PhaseOk(w: World) {
    match w.phase
    case Idle => true
    case Asking(st, _) => WalkOk(w, st)
    case Reading(st, page, _) => WalkOk(w, st) && PageOk(w, st, page) && EndOk(page)
    case RowsDone(st, page, _) =>
      && WalkOk(w, st) && PageOk(w, st, page) && EndOk(page) && AllRead(page.items)
      && forall i :: 0 <= i < |page.items| ==>
           var n := page.items[i].pull.number;
           Recent(st, w.remote[n]) || (n in w.db.rows && w.db.rows[n] == RowOf(w.remote[n]))
    case Stored(st, page, _) =>
      WalkOk(w, st) && EndOk(page) && CurrentBut(w, st.started.value - SLACK, page.hasNext, page.end)
    case Saved(st, page, _) =>
      && WalkOk(w, st) && EndOk(page) && CurrentBut(w, st.started.value - SLACK, page.hasNext, page.end)
      && st.cursor == page.end
    case Ending(st, complete) =>
      WalkOk(w, st) && (complete ==> CurrentBut(w, st.started.value - SLACK, false, Top))
  }

  /** The saved walk alone: what a watermark and a cursor each vouch for after any crash. */
  ghost predicate SavedOk(w: World) {
    var wk := w.db.walk;
    && (wk.watermark.Some? ==>
          wk.watermark.value - SLACK <= w.theirs && CurrentBut(w, wk.watermark.value - SLACK, false, Top))
    && (wk.cursor.After? ==>
          && wk.started.Some? && wk.started.value - SLACK <= w.theirs
          && CurrentBut(w, wk.started.value - SLACK, true, wk.cursor))
  }

  ghost predicate Inv(w: World) {
    && -SLACK <= w.theirs - w.ours <= SLACK
    && (forall n :: n in w.remote ==> w.remote[n].number == n && w.remote[n].updatedAt <= w.theirs)
    && (forall n :: n in w.db.rows ==> n in w.remote && w.db.rows[n].createdAt == w.remote[n].createdAt)
    && SavedOk(w) && PhaseOk(w)
  }

  // Every step keeps the invariant.

  lemma InitialInv(w: World)
    requires Initial(w)
    ensures Inv(w)
  {
  }

  /** An edit stamps GitHub's present time, so no promise about older pull requests mentions the edited one. */
  lemma EditKeepsCurrent(w: World, p: Pull, bar: int, more: bool, c: Cursor)
    requires Enabled(w, Edit(p)) && bar <= w.theirs && CurrentBut(w, bar, more, c)
    ensures CurrentBut(Apply(w, Edit(p)), bar, more, c)
  {
  }

  lemma EditKeepsPage(w: World, p: Pull, st: Walk, page: Page)
    requires Inv(w) && Enabled(w, Edit(p)) && WalkOk(w, st) && PageOk(w, st, page)
    ensures PageOk(Apply(w, Edit(p)), st, page)
  {
    assert Recent(st, p);
  }

  lemma EditKeepsSaved(w: World, p: Pull)
    requires Inv(w) && Enabled(w, Edit(p))
    ensures SavedOk(Apply(w, Edit(p)))
  {
    var wk := w.db.walk;
    if wk.watermark.Some? { EditKeepsCurrent(w, p, wk.watermark.value - SLACK, false, Top); }
    if wk.cursor.After? { EditKeepsCurrent(w, p, wk.started.value - SLACK, true, wk.cursor); }
  }

  lemma EditKeepsPhase(w: World, p: Pull)
    requires Inv(w) && Enabled(w, Edit(p))
    ensures PhaseOk(Apply(w, Edit(p)))
  {
    if !w.phase.Idle? {
      var st := w.phase.st;
      var bar := st.started.value - SLACK;
      EditKeepsCurrent(w, p, bar, true, st.cursor);
      match w.phase
      case Reading(_, page, _) => EditKeepsPage(w, p, st, page);
      case RowsDone(_, page, _) =>
        EditKeepsPage(w, p, st, page);
        assert Recent(st, p);
      case Stored(_, page, _) => EditKeepsCurrent(w, p, bar, page.hasNext, page.end);
      case Saved(_, page, _) => EditKeepsCurrent(w, p, bar, page.hasNext, page.end);
      case Ending(_, complete) => if complete { EditKeepsCurrent(w, p, bar, false, Top); }
      case _ =>
    }
  }

  lemma {:induction false} OldestBounds(items: seq<Item>)
    requires items != []
    ensures forall i :: 0 <= i < |items| ==> Oldest(items) <= items[i].pull.updatedAt
    ensures exists i :: 0 <= i < |items| && Oldest(items) == items[i].pull.updatedAt
  {
    if |items| > 1 {
      var front := items[..|items| - 1];
      OldestBounds(front);
      var j :| 0 <= j < |front| && Oldest(front) == front[j].pull.updatedAt;
      assert Oldest(items) == items[j].pull.updatedAt || Oldest(items) == items[|items| - 1].pull.updatedAt;
    } else {
      assert Oldest(items) == items[0].pull.updatedAt;
    }
  }

  lemma FreshPageIsOk(w: World, st: Walk, page: Page)
    requires Inv(w) && PageOf(w.remote, st.cursor, page)
    ensures PageOk(w, st, page) && EndOk(page)
  {
    if page.items != [] { OldestBounds(page.items); }
    forall i | 0 <= i < |page.items| ensures Matches(w.remote[page.items[i].pull.number], page.items[i]) {}
  }

  lemma ReadKeepsInv(w: World, page: Page)
    requires Inv(w) && Enabled(w, Read(page))
    ensures Inv(Apply(w, Read(page)))
  {
    FreshPageIsOk(w, w.phase.st, page);
  }

  lemma ReadMoreKeepsItem(remote: map<int, Pull>, st: Walk, it: Item, reviews: bool)
    requires ItemOk(remote, st, it) && (if reviews then it.moreReviews else it.moreComments)
    ensures ItemOk(remote, st, ReadMore(remote, it, reviews))
    ensures ReadMore(remote, it, reviews).pull.number == it.pull.number
    ensures ReadMore(remote, it, reviews).pull.updatedAt == it.pull.updatedAt
  {
  }

  lemma MoreKeepsPage(w: World, st: Walk, page: Page, k: nat, reviews: bool)
    requires PageOk(w, st, page) && EndOk(page) && k < |page.items|
    requires if reviews then page.items[k].moreReviews else page.items[k].moreComments
    ensures var page' := page.(items := page.items[k := ReadMore(w.remote, page.items[k], reviews)]);
      PageOk(w, st, page') && EndOk(page')
  {
    var items := page.items[k := ReadMore(w.remote, page.items[k], reviews)];
    ReadMoreKeepsItem(w.remote, st, page.items[k], reviews);
    OldestBounds(page.items);
    OldestBounds(items);
    forall n | OnItems(page.items, n) ensures OnItems(items, n) {
      var i :| 0 <= i < |page.items| && page.items[i].pull.number == n;
      assert items[i].pull.number == n;
    }
  }

  lemma MoreKeepsInv(w: World, k: nat, reviews: bool)
    requires Inv(w) && Enabled(w, More(k, reviews))
    ensures Inv(Apply(w, More(k, reviews)))
  {
    MoreKeepsPage(w, w.phase.st, w.phase.page, k, reviews);
  }

  /** Upserting a page of distinct pull requests writes each of its rows once and touches no other. */
  lemma {:induction false} PageRowsStored(rows: Rows, prs: seq<Row>)
    requires forall i, j :: 0 <= i < j < |prs| ==> prs[i].number != prs[j].number
    ensures forall i :: 0 <= i < |prs| ==>
      var n := prs[i].number;
      n in UpsertedAll(rows, prs) &&
      UpsertedAll(rows, prs)[n] == if n in rows then prs[i].(createdAt := rows[n].createdAt) else prs[i]
    ensures forall n :: !OnPage(prs, n) ==>
      (n in UpsertedAll(rows, prs) <==> n in rows) && (n in rows ==> UpsertedAll(rows, prs)[n] == rows[n])
  {
    if prs != [] {
      var k := |prs| - 1;
      PageRowsStored(rows, prs[..k]);
      assert !OnPage(prs[..k], prs[k].number);
      forall n | !OnPage(prs, n) ensures !OnPage(prs[..k], n) && n != prs[k].number {
        OnPageSplit(prs, n);
      }
    }
  }

  lemma OnRows(items: seq<Item>, n: int)
    ensures OnPage(PageRows(items), n) <==> OnItems(items, n)
  {
    var prs := PageRows(items);
    if OnItems(items, n) {
      var i :| 0 <= i < |items| && items[i].pull.number == n;
      assert prs[i].number == n;
    }
    if OnPage(prs, n) {
      var i :| 0 <= i < |prs| && prs[i].number == n;
      assert items[i].pull.number == n;
    }
  }

  /** A row that a promise covers is rewritten, if at all, as itself. */
  lemma RowsKeepCurrent(w: World, bar: int, more: bool, c: Cursor)
    requires Inv(w) && Enabled(w, StoreRows) && CurrentBut(w, bar, more, c)
    requires w.phase.st.started.value - SLACK >= bar ||
             (w.phase.st.watermark.Some? && w.phase.st.watermark.value - SLACK >= bar)
    ensures CurrentBut(Apply(w, StoreRows), bar, more, c)
  {
    var w' := Apply(w, StoreRows);
    var items := w.phase.page.items;
    PageRowsStored(w.db.rows, PageRows(items));
    forall n | n in w.remote && w.remote[n].updatedAt < bar && !(more && Behind(w.remote[n], c))
      ensures Current(w'.db, w.remote[n])
    {
      assert Current(w.db, w.remote[n]) && !Recent(w.phase.st, w.remote[n]);
      OnRows(items, n);
      if OnItems(items, n) {
        var i :| 0 <= i < |items| && items[i].pull.number == n;
        assert ItemOk(w.remote, w.phase.st, items[i]) && Matches(w.remote[n], items[i]);
        assert PageRows(items)[i] == RowOf(w.remote[n]);
      }
    }
  }

  /** What storing a page's rows leaves: each still-true item's row, and creation times as they were. */
  lemma RowsStored(w: World)
    requires Inv(w) && Enabled(w, StoreRows)
    ensures var w' := Apply(w, StoreRows);
      && (forall n :: n in w'.db.rows ==> n in w.remote && w'.db.rows[n].createdAt == w.remote[n].createdAt)
      && forall i :: 0 <= i < |w.phase.page.items| ==>
           var n := w.phase.page.items[i].pull.number;
           Recent(w.phase.st, w.remote[n]) || (n in w'.db.rows && w'.db.rows[n] == RowOf(w.remote[n]))
  {
    var w' := Apply(w, StoreRows);
    var st, items := w.phase.st, w.phase.page.items;
    var prs := PageRows(items);
    PageRowsStored(w.db.rows, prs);
    forall n | n in w'.db.rows ensures n in w.remote && w'.db.rows[n].createdAt == w.remote[n].createdAt {
      OnRows(items, n);
      if OnItems(items, n) {
        var i :| 0 <= i < |items| && items[i].pull.number == n;
        assert ItemOk(w.remote, st, items[i]) && prs[i].number == n;
      }
    }
    forall i | 0 <= i < |items|
      ensures var n := items[i].pull.number;
        Recent(st, w.remote[n]) || (n in w'.db.rows && w'.db.rows[n] == RowOf(w.remote[n]))
    {
      assert ItemOk(w.remote, st, items[i]) && prs[i].number == items[i].pull.number;
    }
  }

  lemma RowsKeepInv(w: World)
    requires Inv(w) && Enabled(w, StoreRows)
    ensures Inv(Apply(w, StoreRows))
  {
    var st, wk := w.phase.st, w.db.walk;
    RowsKeepCurrent(w, st.started.value - SLACK, true, st.cursor);
    if wk.watermark.Some? { RowsKeepCurrent(w, wk.watermark.value - SLACK, false, Top); }
    if wk.cursor.After? { RowsKeepCurrent(w, wk.started.value - SLACK, true, wk.cursor); }
    RowsStored(w);
  }

  /** A page's events of one pull request are the full event set of what was read of it. */
  lemma {:induction false} PageEventsOf(items: seq<Item>, i: nat)
    requires i < |items|
    requires forall j, k :: 0 <= j < k < |items| ==> items[j].pull.number != items[k].pull.number
    ensures ForPull(PageEvents(items), items[i].pull.number) == EventsOf(items[i].pull)
  {
    var k, n := |items| - 1, items[i].pull.number;
    var front := items[..k];
    ForPullConcat(PageEvents(front), EventsOf(items[k].pull), n);
    OwnEvents(items[k].pull, n);
    if i < k { PageEventsOf(front, i); } else { NoPageEventsOf(front, n); }
  }

  lemma {:induction false} NoPageEventsOf(items: seq<Item>, n: int)
    requires forall i :: 0 <= i < |items| ==> items[i].pull.number != n
    ensures ForPull(PageEvents(items), n) == []
  {
    if items != [] {
      var k := |items| - 1;
      NoPageEventsOf(items[..k], n);
      ForPullConcat(PageEvents(items[..k]), EventsOf(items[k].pull), n);
      OwnEvents(items[k].pull, n);
    }
  }

  lemma {:induction false} OwnEventsFrom(number: int, author: string, kind: EventKind, notes: seq<Note>, n: int)
    ensures ForPull(EventsFrom(number, author, kind, notes), n) ==
      if n == number then EventsFrom(number, author, kind, notes) else []
  {
    if notes != [] {
      var k := |notes| - 1;
      OwnEventsFrom(number, author, kind, notes[..k], n);
      var last := if Counts(author, notes[k]) then [Event(number, NameOf(notes[k].author), kind, notes[k].at)] else [];
      ForPullConcat(EventsFrom(number, author, kind, notes[..k]), last, n);
    }
  }

  lemma OwnEvents(p: Pull, n: int)
    ensures ForPull(EventsOf(p), n) == if n == p.number then EventsOf(p) else []
  {
    var author := NameOf(p.author);
    OwnEventsFrom(p.number, author, Review, p.reviews, n);
    OwnEventsFrom(p.number, author, Comment, p.comments, n);
    ForPullConcat(EventsFrom(p.number, author, Review, p.reviews), EventsFrom(p.number, author, Comment, p.comments), n);
  }

  /** What storing a page's events leaves for each pull request. */
  lemma PageEventsAt(items: seq<Item>, n: int, i: nat)
    requires forall i, j :: 0 <= i < j < |items| ==> items[i].pull.number != items[j].pull.number
    requires i < |items| && items[i].pull.number == n
    ensures ForPull(PageEvents(items), n) == EventsOf(items[i].pull)
  {
    PageEventsOf(items, i);
  }

  lemma StoredEventsOn(db: DB, items: seq<Item>, i: nat)
    requires forall i, j :: 0 <= i < j < |items| ==> items[i].pull.number != items[j].pull.number
    requires i < |items|
    ensures At(Inserted(Deleted(db.events, PageRows(items)), PageEvents(items)), items[i].pull.number) == EventsOf(items[i].pull)
  {
    var n := items[i].pull.number;
    DeletedThenInsertedAt(db.events, PageRows(items), PageEvents(items), n);
    OnRows(items, n);
    assert OnItems(items, n);
    PageEventsAt(items, n, i);
  }

  lemma StoredEventsOff(db: DB, items: seq<Item>, n: int)
    requires !OnItems(items, n)
    ensures At(Inserted(Deleted(db.events, PageRows(items)), PageEvents(items)), n) == At(db.events, n)
  {
    DeletedThenInsertedAt(db.events, PageRows(items), PageEvents(items), n);
    OnRows(items, n);
    NoPageEventsOf(items, n);
  }

  /** A pull request on the page has its events replaced; any other keeps them. */
  lemma StoredEventsAt(db: DB, items: seq<Item>, n: int)
    requires forall i, j :: 0 <= i < j < |items| ==> items[i].pull.number != items[j].pull.number
    ensures var events := Inserted(Deleted(db.events, PageRows(items)), PageEvents(items));
      && (!OnItems(items, n) ==> At(events, n) == At(db.events, n))
      && (forall i :: 0 <= i < |items| && items[i].pull.number == n ==> At(events, n) == EventsOf(items[i].pull))
  {
    if OnItems(items, n) {
      forall i | 0 <= i < |items| && items[i].pull.number == n { StoredEventsOn(db, items, i); }
    } else {
      StoredEventsOff(db, items, n);
    }
  }

  lemma EventsKeepCurrent(w: World, bar: int, more: bool, c: Cursor)
    requires Inv(w) && Enabled(w, StoreEvents) && CurrentBut(w, bar, more, c)
    requires w.phase.st.started.value - SLACK >= bar ||
             (w.phase.st.watermark.Some? && w.phase.st.watermark.value - SLACK >= bar)
    ensures CurrentBut(Apply(w, StoreEvents), bar, more, c)
  {
    var w' := Apply(w, StoreEvents);
    var items := w.phase.page.items;
    forall n | n in w.remote && w.remote[n].updatedAt < bar && !(more && Behind(w.remote[n], c))
      ensures Current(w'.db, w.remote[n])
    {
      assert Current(w.db, w.remote[n]) && !Recent(w.phase.st, w.remote[n]);
      StoredEventsAt(w.db, items, n);
      if OnItems(items, n) { OldItemIsWhole(w, n); }
    }
  }

  /** A pull request on a fully read page that nobody has updated since was read whole. */
  lemma OldItemIsWhole(w: World, n: int)
    requires Inv(w) && w.phase.RowsDone? && n in w.remote && !Recent(w.phase.st, w.remote[n])
    requires OnItems(w.phase.page.items, n)
    ensures exists i :: 0 <= i < |w.phase.page.items| && w.phase.page.items[i].pull.number == n
                        && w.phase.page.items[i].pull == w.remote[n]
  {
    var items := w.phase.page.items;
    var i :| 0 <= i < |items| && items[i].pull.number == n;
    assert ItemOk(w.remote, w.phase.st, items[i]) && Matches(w.remote[n], items[i]);
    assert items[i].pull.reviews == w.remote[n].reviews && items[i].pull.comments == w.remote[n].comments;
  }

  lemma EventsKeepInv(w: World)
    requires Inv(w) && Enabled(w, StoreEvents)
    ensures Inv(Apply(w, StoreEvents))
  {
    var w' := Apply(w, StoreEvents);
    var st, page := w.phase.st, w.phase.page;
    var wk := w.db.walk;
    var bar := st.started.value - SLACK;
    EventsKeepCurrent(w, bar, true, st.cursor);
    if wk.watermark.Some? { EventsKeepCurrent(w, wk.watermark.value - SLACK, false, Top); }
    if wk.cursor.After? { EventsKeepCurrent(w, bar, true, wk.cursor); }
    forall n | n in w.remote && w.remote[n].updatedAt < bar && !(page.hasNext && Behind(w.remote[n], page.end))
      ensures Current(w'.db, w.remote[n])
    {
      var p := w.remote[n];
      assert !Recent(st, p);
      if OnItems(page.items, n) {
        OldItemIsWhole(w, n);
        StoredEventsAt(w.db, page.items, n);
      } else {
        assert !Behind(p, st.cursor);
        assert Current(w'.db, p);
      }
    }
  }

  /** Past the page that reaches back before the watermark, the watermark itself vouches for the rest. */
  lemma DecideKeepsInv(w: World)
    requires Inv(w) && Enabled(w, Decide)
    ensures Inv(Apply(w, Decide))
  {
  }

  lemma TickKeepsInv(w: World, theirs: int, ours: int)
    requires Inv(w) && Enabled(w, Tick(theirs, ours))
    ensures Inv(Apply(w, Tick(theirs, ours)))
  {
  }

  /** The steps that touch no row: starting, saving the cursor, finishing, failing, crashing. */
  lemma BookkeepingKeepsInv(w: World, a: Action)
    requires Inv(w) && Enabled(w, a)
    requires a.Begin? || a.SaveCursor? || a.Finish? || a.Fail? || a.Crash?
    ensures Inv(Apply(w, a))
  {
    match a
    case SaveCursor =>
      var bar := w.phase.st.started.value - SLACK;
      assert CurrentBut(w, bar, true, w.phase.page.end);
    case _ =>
  }

  lemma StepKeepsInv(w: World, a: Action)
    requires Inv(w) && Enabled(w, a)
    ensures Inv(Apply(w, a))
  {
    match a
    case Tick(theirs, ours) => TickKeepsInv(w, theirs, ours);
    case Edit(p) =>
      EditKeepsSaved(w, p);
      EditKeepsPhase(w, p);
    case Read(page) => ReadKeepsInv(w, page);
    case More(k, reviews) => MoreKeepsInv(w, k, reviews);
    case StoreRows => RowsKeepInv(w);
    case StoreEvents => EventsKeepInv(w);
    case Decide => DecideKeepsInv(w);
    case _ => BookkeepingKeepsInv(w, a);
  }

  lemma {:induction false} RunKeepsInv(ws: seq<World>, acts: seq<Action>, i: nat)
    requires IsRun(ws, acts) && i < |ws|
    ensures Inv(ws[i])
  {
    if i == 0 { InitialInv(ws[0]); }
    else {
      RunKeepsInv(ws, acts, i - 1);
      StepKeepsInv(ws[i - 1], acts[i - 1]);
    }
  }

  /**
   Completeness over all runs: whenever a watermark is recorded, every pull
   request not updated since the watermark less the slack is stored in its
   current version with its full event set.
   */
  lemma WatermarkVouches(ws: seq<World>, acts: seq<Action>, i: nat, n: int)
    requires IsRun(ws, acts) && i < |ws|
    requires ws[i].db.walk.watermark.Some? && n in ws[i].remote
    requires ws[i].remote[n].updatedAt < ws[i].db.walk.watermark.value - SLACK
    ensures Current(ws[i].db, ws[i].remote[n])
  {
    RunKeepsInv(ws, acts, i);
  }

  /** After any crash, whatever is not whole behind a saved cursor is still to be listed, so the resumed walk meets it. */
  lemma UnfinishedIsStillListed(ws: seq<World>, acts: seq<Action>, i: nat, n: int)
    requires IsRun(ws, acts) && i < |ws|
    requires ws[i].db.walk.cursor.After? && n in ws[i].remote && !Current(ws[i].db, ws[i].remote[n])
    ensures ws[i].db.walk.started.Some?
    ensures ws[i].remote[n].updatedAt >= ws[i].db.walk.started.value - SLACK
            || Behind(ws[i].remote[n], ws[i].db.walk.cursor)
  {
    RunKeepsInv(ws, acts, i);
  }

  // What a pass does with its walk.

  /** Some pull request on the page was last updated more than an hour before `t`. */
  predicate ReachesBefore(items: seq<Item>, t: int) {
    exists i :: 0 <= i < |items| && items[i].pull.updatedAt + 3600 < t
  }

  /** The last page, or one that reaches back before what an earlier walk has vouched for. */
  lemma ReachedEndIs(st: Walk, page: Page)
    ensures ReachedEnd(st, page) <==> !page.hasNext || (st.watermark.Some? && ReachesBefore(page.items, st.watermark.value))
  {
    if page.items != [] { OldestBounds(page.items); }
  }

  /**
   A pass with no cursor to resume from starts its walk by this process's
   clock; it is complete exactly when it reached its end, and asks for the page
   behind the saved cursor otherwise; and only a complete one is recorded, as
   its start, with the cursor put back.
   */
  lemma PassIsRecordedWhenComplete(w: World, a: Action)
    requires Enabled(w, a)
    ensures var w' := Apply(w, a);
      match a
      case Begin => w'.phase == Asking(if w.db.walk.cursor.Top? then Walk(Some(w.ours), Top, w.db.walk.watermark) else w.db.walk, 0)
      case SaveCursor =>
        var st := w.phase.st;
        w'.db.walk == Walk(st.started, w.phase.page.end, st.watermark) == w'.phase.st
      case Decide =>
        var st := w.phase.st;
        if w.phase.Asking? then w.phase.pages >= 120 && w'.phase == Ending(st, false)
        else if !w.phase.page.hasNext || (st.watermark.Some? && ReachesBefore(w.phase.page.items, st.watermark.value))
        then w'.phase == Ending(st, true)
        else w'.phase == Asking(st, w.phase.pages)
      case Finish =>
        var st := w.phase.st;
        w'.db.walk == if w.phase.complete then Walk(st.started, Top, st.started) else st
      case Fail => w'.phase == Ending(w.phase.st, false) && w'.db == w.db
      case _ => w'.db.walk == w.db.walk
  {
    if a.Decide? && w.phase.Saved? { ReachedEndIs(w.phase.st, w.phase.page); }
  }

  /** A pass began at our time `t`, with no cursor to resume from, before state `i`. */
  ghost predicate BeganAt(ws: seq<World>, acts: seq<Action>, i: nat, t: Option<int>)
    requires i < |ws| == |acts| + 1
  {
    exists j :: 0 <= j < i && acts[j].Begin? && ws[j].db.walk.cursor.Top? && t == Some(ws[j].ours)
  }

  ghost predicate StartsIn(w: World, known: iset<Option<int>>) {
    && (!w.phase.Idle? ==> w.phase.st.started in known)
    && (w.db.walk.cursor.After? ==> w.db.walk.started in known)
    && (w.db.walk.watermark.Some? ==> w.db.walk.watermark in known)
  }

  lemma StepKeepsStarts(w: World, a: Action, known: iset<Option<int>>)
    requires Inv(w) && Enabled(w, a) && StartsIn(w, known)
    requires a.Begin? && w.db.walk.cursor.Top? ==> Some(w.ours) in known
    ensures StartsIn(Apply(w, a), known)
  {
    PassIsRecordedWhenComplete(w, a);
  }

  lemma {:induction false} StartsStayKnown(ws: seq<World>, acts: seq<Action>, i: nat)
    requires IsRun(ws, acts) && i < |ws|
    ensures StartsIn(ws[i], iset t | BeganAt(ws, acts, i, t))
  {
    if i > 0 {
      var w, a := ws[i - 1], acts[i - 1];
      StartsStayKnown(ws, acts, i - 1);
      RunKeepsInv(ws, acts, i - 1);
      forall t | BeganAt(ws, acts, i - 1, t) ensures BeganAt(ws, acts, i, t) {
        var j :| 0 <= j < i - 1 && acts[j].Begin? && ws[j].db.walk.cursor.Top? && t == Some(ws[j].ours);
        assert acts[j].Begin?;
      }
      var known := iset t | BeganAt(ws, acts, i, t);
      assert a.Begin? && w.db.walk.cursor.Top? ==> BeganAt(ws, acts, i, Some(w.ours));
      StepKeepsStarts(w, a, known);
    }
  }

  /** A watermark is always the time, by this process's clock, at which some walk of the run began at the top. */
  lemma WatermarkIsAStart(ws: seq<World>, acts: seq<Action>, i: nat)
    requires IsRun(ws, acts) && i < |ws| && ws[i].db.walk.watermark.Some?
    ensures exists j :: 0 <= j < i && acts[j].Begin? && ws[j].db.walk.cursor.Top? && ws[j].ours == ws[i].db.walk.watermark.value
  {
    StartsStayKnown(ws, acts, i);
  }

  function UpToMore(have: nat, all: nat): nat { if have + 100 < all then have + 100 else all }

  /** A follow-up request of an unchanged pull request reads the next hundred notes, and says whether any are left. */
  lemma ReadMoreReadsOn(remote: map<int, Pull>, it: Item, reviews: bool)
    requires it.pull.number in remote && Matches(remote[it.pull.number], it)
    ensures var p, it' := remote[it.pull.number], ReadMore(remote, it, reviews);
      Matches(p, it') && if reviews
        then it'.pull.comments == it.pull.comments && |it'.pull.reviews| == UpToMore(|it.pull.reviews|, |p.reviews|)
        else it'.pull.reviews == it.pull.reviews && |it'.pull.comments| == UpToMore(|it.pull.comments|, |p.comments|)
  {
  }

  // A page's rows and events.

  lemma StoredRowIs(w: World, i: nat)
    requires Inv(w) && Enabled(w, StoreRows) && i < |w.phase.page.items|
    ensures var p, rows := w.phase.page.items[i].pull, Apply(w, StoreRows).db.rows;
      p.number in rows && rows[p.number] == RowOf(p)
  {
    var items := w.phase.page.items;
    PageRowsStored(w.db.rows, PageRows(items));
    assert ItemOk(w.remote, w.phase.st, items[i]) && PageRows(items)[i] == RowOf(items[i].pull);
  }

  /** The events of a page's pull request after the second transaction, and where a crash comes instead of it. */
  lemma EventsWholeOrCut(w: World, i: nat)
    requires Inv(w) && w.phase.RowsDone? && i < |w.phase.page.items|
    ensures var p := w.phase.page.items[i].pull;
      && At(Apply(w, StoreEvents).db.events, p.number) == EventsOf(p)
      && Apply(w, StoreEvents).db.rows == w.db.rows && Apply(w, Crash).db == w.db
  {
    StoredEventsOn(w.db, w.phase.page.items, i);
  }

  /**
   A page is two transactions. With both, each of its pull requests has the row
   and the events of the one read; with a crash between them it has the row of
   this read, and its events exactly when the events stored before were already those.
   */
  lemma PageIsWholeExactlyWhen(w: World, i: nat)
    requires Inv(w) && Enabled(w, StoreRows) && i < |w.phase.page.items|
    ensures
      var p, between := w.phase.page.items[i].pull, Apply(w, StoreRows);
      var whole, cut := Apply(between, StoreEvents), Apply(between, Crash);
      && p.number in whole.db.rows && whole.db.rows[p.number] == RowOf(p) && At(whole.db.events, p.number) == EventsOf(p)
      && p.number in cut.db.rows && cut.db.rows[p.number] == RowOf(p)
      && (At(cut.db.events, p.number) == EventsOf(p) <==> At(w.db.events, p.number) == EventsOf(p))
  {
    StoredRowIs(w, i);
    RowsKeepInv(w);
    EventsWholeOrCut(Apply(w, StoreRows), i);
    assert Apply(w, StoreRows).db.events == w.db.events;
  }

  function PullsOf(items: seq<Item>): seq<Pull> {
    seq(|items|, i requires 0 <= i < |items| => items[i].pull)
  }

  /** The pull requests, as read, whose pages the run began to store before state `i`. */
  ghost function StoredReads(ws: seq<World>, acts: seq<Action>, i: nat): seq<Pull>
    requires i < |ws| == |acts| + 1
  {
    if i == 0 then []
    else
      StoredReads(ws, acts, i - 1)
      + if acts[i - 1].StoreRows? && ws[i - 1].phase.Reading? then PullsOf(ws[i - 1].phase.page.items) else []
  }

  /** The row and the events stored for `n` come from one of the reads. */
  ghost predicate Paired(db: DB, pulls: seq<Pull>, n: int) {
    n in db.rows && exists p :: p in pulls && p.number == n && db.rows[n] == RowOf(p) && At(db.events, n) == EventsOf(p)
  }

  ghost predicate AllPaired(db: DB, pulls: seq<Pull>) {
    forall n :: n in db.rows ==> Paired(db, pulls, n)
  }

  /** Between the two transactions, the pull requests on the page have their new rows only. */
  ghost predicate HalfPaired(db: DB, pulls: seq<Pull>, items: seq<Item>) {
    && (forall i :: 0 <= i < |items| ==>
          var p := items[i].pull; p in pulls && p.number in db.rows && db.rows[p.number] == RowOf(p))
    && forall n :: n in db.rows && !OnItems(items, n) ==> Paired(db, pulls, n)
  }

  ghost predicate PairedSoFar(w: World, pulls: seq<Pull>) {
    if w.phase.RowsDone? then HalfPaired(w.db, pulls, w.phase.page.items) else AllPaired(w.db, pulls)
  }

  lemma RowsHalfPair(w: World, pulls: seq<Pull>)
    requires Inv(w) && Enabled(w, StoreRows) && AllPaired(w.db, pulls)
    ensures HalfPaired(Apply(w, StoreRows).db, pulls + PullsOf(w.phase.page.items), w.phase.page.items)
  {
    var items, w' := w.phase.page.items, Apply(w, StoreRows);
    var more := pulls + PullsOf(items);
    forall i | 0 <= i < |items|
      ensures var p := items[i].pull; p in more && p.number in w'.db.rows && w'.db.rows[p.number] == RowOf(p)
    {
      StoredRowIs(w, i);
      assert more[|pulls| + i] == items[i].pull;
    }
    forall n | n in w'.db.rows && !OnItems(items, n) ensures Paired(w'.db, more, n) {
      OnRows(items, n);
      PageRowsStored(w.db.rows, PageRows(items));
      assert Paired(w.db, pulls, n);
    }
  }

  lemma EventsPairTheRest(w: World, pulls: seq<Pull>)
    requires Inv(w) && Enabled(w, StoreEvents) && HalfPaired(w.db, pulls, w.phase.page.items)
    ensures AllPaired(Apply(w, StoreEvents).db, pulls)
  {
    var items, w' := w.phase.page.items, Apply(w, StoreEvents);
    forall n | n in w'.db.rows ensures Paired(w'.db, pulls, n) {
      if OnItems(items, n) {
        var i :| 0 <= i < |items| && items[i].pull.number == n;
        StoredEventsOn(w.db, items, i);
      } else {
        StoredEventsOff(w.db, items, n);
        assert Paired(w.db, pulls, n);
      }
    }
  }

  lemma OthersLeaveTables(w: World, a: Action)
    requires Enabled(w, a) && !a.StoreRows? && !a.StoreEvents?
    ensures var w' := Apply(w, a);
      && w'.db.rows == w.db.rows && w'.db.events == w.db.events && !(w'.phase.RowsDone? && !w.phase.RowsDone?)
      && (w.phase.RowsDone? && !a.Crash? ==> w'.phase == w.phase)
  {
  }

  lemma StepKeepsPairs(w: World, a: Action, pulls: seq<Pull>)
    requires Inv(w) && Enabled(w, a) && PairedSoFar(w, pulls) && !(a.Crash? && w.phase.RowsDone?)
    ensures PairedSoFar(Apply(w, a), pulls + if a.StoreRows? then PullsOf(w.phase.page.items) else [])
  {
    assert pulls + [] == pulls;
    match a
    case StoreRows => RowsHalfPair(w, pulls);
    case StoreEvents => EventsPairTheRest(w, pulls);
    case _ => OthersLeaveTables(w, a);
  }

  lemma {:induction false} RunKeepsPairs(ws: seq<World>, acts: seq<Action>, i: nat)
    requires IsRun(ws, acts) && i < |ws|
    requires forall j :: 0 <= j < i && acts[j].Crash? ==> !ws[j].phase.RowsDone?
    ensures PairedSoFar(ws[i], StoredReads(ws, acts, i))
  {
    if i > 0 {
      var w, a := ws[i - 1], acts[i - 1];
      RunKeepsPairs(ws, acts, i - 1);
      RunKeepsInv(ws, acts, i - 1);
      assert Enabled(w, a) && ws[i] == Apply(w, a);
      StepKeepsPairs(w, a, StoredReads(ws, acts, i - 1));
    }
  }

  /**
   StorePage's promise, over all runs: while no crash falls between the two
   transactions of a page, every stored row stands with the events of the read
   it came from, in every state outside that gap.
   */
  lemma RowsKeepTheirEvents(ws: seq<World>, acts: seq<Action>, i: nat)
    requires IsRun(ws, acts) && i < |ws| && !ws[i].phase.RowsDone?
    requires forall j :: 0 <= j < i && acts[j].Crash? ==> !ws[j].phase.RowsDone?
    ensures forall n :: n in ws[i].db.rows ==> Paired(ws[i].db, StoredReads(ws, acts, i), n)
  {
    RunKeepsPairs(ws, acts, i);
  }

  /**
   Such a crash: a pull request's current row, without its events. (The
   comment on StorePage promises one transaction.)
   */
  lemma RowsCanLackTheirEvents() returns (ws: seq<World>, acts: seq<Action>)
    ensures IsRun(ws, acts)
    ensures var w := ws[|ws| - 1];
      && w.phase.Idle? && 1 in w.remote && 1 in w.db.rows && w.db.rows[1] == RowOf(w.remote[1])
      && At(w.db.events, 1) == [] != EventsOf(w.remote[1])
  {
    var p := Pull(1, "", None, true, false, "", 0, "", "", [Note(Some(Actor("x", false)), "t")], []);
    var item := FirstRead(p);
    var page := Page([item], After(0, 1), false);
    var w0 := World(map[1 := p], 0, 0, DB(map[], map[], Walk(None, Top, None)), Idle);
    var w1 := Apply(w0, Begin);
    assert page.items[0].pull.number == 1 && OnItems(page.items, 1);
    assert PageOf(w1.remote, Top, page);
    var w2 := Apply(w1, Read(page));
    var w3 := Apply(w2, StoreRows);
    var w4 := Apply(w3, Crash);
    assert PageRows([item]) == [RowOf(item.pull)] == [RowOf(p)];
    assert UpsertedAll(map[], [RowOf(p)]) == map[1 := RowOf(p)] by {
      assert [RowOf(p)][..0] == [];
    }
    assert Counts("", p.reviews[0]) by {
      assert TrimSpace("x") == "x" && ToLower("x") == "x";
    }
    assert EventsFrom(1, "", Review, p.reviews) == [Event(1, "x", Review, "t")] by {
      assert p.reviews[..0] == [];
    }
    ws, acts := [w0, w1, w2, w3, w4], [Begin, Read(page), StoreRows, Crash];
  }
}
