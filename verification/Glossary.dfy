/** The glossary's two checks: nothing undefined is leaned on, and the definitions bottom out. */
module Glossary {
  import opened Base
  import Sorting

  const MAX_SENTENCES := 3

  /** A table row: the term, the terms its gloss sets in bold (once each), and its sentence count. */
  datatype Row = Row(term: string, also: seq<string>, sentences: nat)

  datatype Glossary = Glossary(terms: map<string, seq<string>>, order: seq<string>)

  datatype Error =
    | NoTerms
    | DefinedTwice(term: string)
    | OverBudget(term: string)
    | DefinesItself(term: string)
    | LeansOn(term: string, missing: string)
    | Cycle(chain: seq<string>)

  // References.

  /** What a term's gloss refers to; an unknown term refers to nothing. */
  function RefsOf(terms: map<string, seq<string>>, t: string): seq<string> {
    if t in terms then terms[t] else []
  }

  ghost predicate Chain(terms: map<string, seq<string>>, p: seq<string>) {
    forall i :: 0 < i < |p| ==> p[i] in RefsOf(terms, p[i - 1])
  }

  ghost predicate IsCycle(terms: map<string, seq<string>>, p: seq<string>) {
    |p| >= 2 && p[0] == p[|p| - 1] && Chain(terms, p)
  }

  ghost predicate Cyclic(terms: map<string, seq<string>>) {
    exists p :: IsCycle(terms, p)
  }

  /** The chain comes back to a term it has been through. */
  ghost predicate ComesBack(terms: map<string, seq<string>>, p: seq<string>) {
    |p| >= 2 && Chain(terms, p) && p[|p| - 1] in p[..|p| - 1]
  }

  lemma ComingBackIsCyclic(terms: map<string, seq<string>>, p: seq<string>)
    requires ComesBack(terms, p)
    ensures Cyclic(terms)
  {
    var i :| 0 <= i < |p| - 1 && p[i] == p[|p| - 1];
    assert IsCycle(terms, p[i..]);
  }

  /** The terms can be written down so that each refers only to earlier ones. */
  ghost predicate BottomUp(terms: map<string, seq<string>>, s: seq<string>) {
    Distinct(s) && forall i, r :: 0 <= i < |s| && r in RefsOf(terms, s[i]) ==> r in s[..i]
  }

  lemma {:induction false} ChainClimbsDown(terms: map<string, seq<string>>, s: seq<string>, p: seq<string>, i: nat)
    requires BottomUp(terms, s) && Chain(terms, p) && |p| >= 2 && i < |s| && p[0] == s[i]
    ensures p[|p| - 1] in s[..i]
    decreases |p|
  {
    assert p[1] in RefsOf(terms, s[i]);
    if |p| > 2 {
      var k :| 0 <= k < i && s[k] == p[1];
      ChainClimbsDown(terms, s, p[1..], k);
    }
  }

  /** When every term can be written down so, there is no cycle. */
  lemma BottomUpIsAcyclic(terms: map<string, seq<string>>, s: seq<string>)
    requires BottomUp(terms, s) && forall t :: t in terms ==> t in s
    ensures !Cyclic(terms)
  {
    if Cyclic(terms) {
      var p :| IsCycle(terms, p);
      assert p[1] in RefsOf(terms, p[0]);
      var i :| 0 <= i < |s| && s[i] == p[0];
      ChainClimbsDown(terms, s, p, i);
    }
  }

  // The search.

  datatype Mark = Open | Done

  /** The path is a chain of exactly the open terms; the done ones are bottom up. */
  ghost predicate Standing(terms: map<string, seq<string>>, state: map<string, Mark>, path: seq<string>, finished: seq<string>) {
    && (forall t :: t in path <==> t in state && state[t] == Open)
    && (forall t :: t in finished <==> t in state && state[t] == Done)
    && Distinct(path) && Chain(terms, path) && BottomUp(terms, finished)
  }

  lemma Opening(terms: map<string, seq<string>>, state: map<string, Mark>, path: seq<string>, finished: seq<string>, t: string)
    requires Standing(terms, state, path, finished) && t !in state && Chain(terms, path + [t])
    ensures Standing(terms, state[t := Open], path + [t], finished)
  {
  }

  lemma Finishing(terms: map<string, seq<string>>, state: map<string, Mark>, path: seq<string>, finished: seq<string>, t: string)
    requires Standing(terms, state, path + [t], finished)
    requires forall j :: 0 <= j < |RefsOf(terms, t)| ==> RefsOf(terms, t)[j] in finished
    ensures Standing(terms, state[t := Done], path, finished + [t])
  {
    var p, f := path + [t], finished + [t];
    assert t in p && t !in finished && p[|path|] == t;
    forall x ensures x in path <==> x in p && x != t {
      if x in path { var k :| 0 <= k < |path| && path[k] == x; assert p[k] == x; }
    }
    forall i | 0 < i < |path| ensures path[i] in RefsOf(terms, path[i - 1]) {
      assert p[i] in RefsOf(terms, p[i - 1]);
    }
    forall i, r | 0 <= i < |f| && r in RefsOf(terms, f[i]) ensures r in f[..i] {
      if i < |finished| { assert f[..i] == finished[..i]; } else { assert f[..i] == finished; }
    }
    DistinctPrefix(path, t);
    DistinctConcat(finished, [t]);
  }

  lemma DistinctPrefix(path: seq<string>, t: string)
    requires Distinct(path + [t])
    ensures Distinct(path)
  {
    forall i, j | 0 <= i < j < |path| ensures path[i] != path[j] {
      assert (path + [t])[i] != (path + [t])[j];
    }
  }

  /** Every word some gloss refers to. */
  ghost function Named(terms: map<string, seq<string>>): set<string> {
    set t, r | t in terms && r in terms[t] :: r
  }

  lemma Extended(terms: map<string, seq<string>>, path: seq<string>, r: string, last: string)
    requires Chain(terms, path) && path != [] && path[|path| - 1] == last && r in RefsOf(terms, last)
    ensures Chain(terms, path + [r]) && r in Named(terms)
  {
  }

  class Search {
    const terms: map<string, seq<string>>
    var state: map<string, Mark>
    var path: seq<string>
    ghost const names: set<string>
    ghost var finished: seq<string>

    constructor (terms: map<string, seq<string>>)
      ensures this.terms == terms && names == terms.Keys + Named(terms) && Valid() && path == []
    {
      this.terms := terms;
      names := terms.Keys + Named(terms);
      state, path, finished := map[], [], [];
    }

    ghost predicate Valid()
      reads this
    {
      Standing(terms, state, path, finished) && names == terms.Keys + Named(terms)
    }

    ghost function Unseen(): set<string>
      reads this
    {
      names - state.Keys
    }

    /** The inner `visit`: done, or an error naming a chain of references that comes back. */
    method Visit(term: string) returns (err: Option<seq<string>>)
      requires Valid() && Chain(terms, path + [term]) && term in names
      modifies this
      ensures err.None? ==> Valid() && path == old(path) && term in finished
      ensures err.None? ==> old(finished) <= finished && Unseen() <= old(Unseen())
      ensures err.Some? ==> ComesBack(terms, err.value)
      decreases Unseen(), 0
    {
      if term in state && state[term] == Done { return None; }
      if term in state && state[term] == Open { return Some(path + [term]); }
      Opening(terms, state, path, finished, term);
      state := state[term := Open];
      path := path + [term];
      assert term in old(Unseen()) && term !in Unseen();
      err := VisitRefs(term);
      if err.Some? { return; }
      Finishing(terms, state, old(path), finished, term);
      path := path[..|path| - 1];
      state := state[term := Done];
      finished := finished + [term];
    }

    method VisitRefs(term: string) returns (err: Option<seq<string>>)
      requires Valid() && path != [] && path[|path| - 1] == term
      modifies this
      ensures err.None? ==> Valid() && path == old(path) && old(finished) <= finished && Unseen() <= old(Unseen())
      ensures err.None? ==> forall j :: 0 <= j < |RefsOf(terms, term)| ==> RefsOf(terms, term)[j] in finished
      ensures err.Some? ==> ComesBack(terms, err.value)
      decreases Unseen(), 1
    {
      err := None;
      var refs := RefsOf(terms, term);
      for i := 0 to |refs|
        invariant err.None? && Valid() && path == old(path) && old(finished) <= finished && Unseen() <= old(Unseen())
        invariant forall j :: 0 <= j < i ==> refs[j] in finished
      {
        Extended(terms, path, refs[i], term);
        err := Visit(refs[i]);
        if err.Some? { return; }
      }
    }

    /** The outer loop of `checkAcyclic`: no error exactly when no definition leads back to itself. */
    method Run(order: seq<string>) returns (err: Option<seq<string>>)
      requires Valid() && path == [] && forall t :: t in terms <==> t in order
      modifies this
      ensures err.None? <==> !Cyclic(terms)
      ensures err.Some? ==> ComesBack(terms, err.value)
    {
      err := None;
      for i := 0 to |order|
        invariant err.None? && Valid() && path == [] && forall j :: 0 <= j < i ==> order[j] in finished
      {
        assert order[i] in order;
        err := Visit(order[i]);
        if err.Some? {
          ComingBackIsCyclic(terms, err.value);
          return;
        }
      }
      forall t | t in terms ensures t in finished {
        var j :| 0 <= j < |order| && order[j] == t;
      }
      BottomUpIsAcyclic(terms, finished);
    }
  }

  /** `checkAcyclic`: visits the terms in alphabetical order, so the message does not depend on the table's. */
  method CheckAcyclic(g: Glossary) returns (err: Option<Error>)
    requires forall t :: t in g.terms <==> t in g.order
    ensures err.None? <==> !Cyclic(g.terms)
    ensures err.Some? ==> err.value.Cycle? && ComesBack(g.terms, err.value.chain)
  {
    var terms := new string[|g.order|](i requires 0 <= i < |g.order| => g.order[i]);
    assert terms[..] == g.order;
    Sorting.SortStrings(terms);
    var search := new Search(g.terms);
    var cycle := search.Run(terms[..]);
    err := if cycle.Some? then Some(Cycle(cycle.value)) else None;
  }

  /** Every reference of a term is to another term of the table. */
  ghost predicate TermClosed(terms: map<string, seq<string>>, t: string) {
    forall r :: r in RefsOf(terms, t) ==> r != t && r in terms
  }

  ghost predicate Closed(g: Glossary) {
    forall i :: 0 <= i < |g.order| ==> TermClosed(g.terms, g.order[i])
  }

  /** `checkClosure`. */
  method CheckClosure(g: Glossary) returns (err: Option<Error>)
    ensures err.None? <==> Closed(g)
    ensures err.Some? && err.value.DefinesItself? ==> err.value.term in RefsOf(g.terms, err.value.term)
    ensures err.Some? && !err.value.DefinesItself? ==>
      err.value.LeansOn? && err.value.missing !in g.terms && err.value.missing in RefsOf(g.terms, err.value.term)
  {
    for i := 0 to |g.order|
      invariant forall j :: 0 <= j < i ==> TermClosed(g.terms, g.order[j])
    {
      var term := g.order[i];
      var refs := RefsOf(g.terms, term);
      for k := 0 to |refs|
        invariant forall r :: r in refs[..k] ==> r != term && r in g.terms
      {
        if refs[k] == term { return Some(DefinesItself(term)); }
        if refs[k] !in g.terms { return Some(LeansOn(term, refs[k])); }
      }
      assert refs[..|refs|] == refs;
    }
    return None;
  }

  // The whole parse, from the rows of the table on.

  /** A row as `Parse` accepts it after the ones before. */
  predicate Accepted(r: Row, before: set<string>) {
    r.term !in before && 1 <= r.sentences <= MAX_SENTENCES
  }

  function Terms(rows: seq<Row>): set<string> { set r | r in rows :: r.term }

  ghost predicate RowsOk(rows: seq<Row>) {
    forall i :: 0 <= i < |rows| ==> RowOk(rows, i)
  }

  predicate RowOk(rows: seq<Row>, i: nat)
    requires i < |rows|
  {
    Accepted(rows[i], Terms(rows[..i]))
  }

  ghost predicate Resolved(terms: map<string, seq<string>>) {
    forall t, r :: t in terms && r in terms[t] ==> r in terms
  }

  /** What the table says, row by row. */
  function Table(rows: seq<Row>): map<string, seq<string>> {
    if rows == [] then map[] else var k := |rows| - 1; Table(rows[..k])[rows[k].term := rows[k].also]
  }

  /** The table read from these rows. */
  ghost predicate Read(rows: seq<Row>, g: Glossary) {
    && RowsOk(rows) && g.terms == Table(rows) && g.terms.Keys == Terms(rows)
    && |g.order| == |rows| && forall k :: 0 <= k < |rows| ==> g.order[k] == rows[k].term
  }

  lemma ReadOne(rows: seq<Row>, i: nat, g: Glossary)
    requires i < |rows| && Read(rows[..i], g)
    ensures Accepted(rows[i], g.terms.Keys) ==>
      Read(rows[..i + 1], Glossary(g.terms[rows[i].term := rows[i].also], g.order + [rows[i].term]))
    ensures !Accepted(rows[i], g.terms.Keys) ==> !RowsOk(rows)
  {
    PrefixRows(rows, i);
    PrefixTerms(rows, i);
  }

  /** The loop of `Parse`: takes the rows in, or stops at the first that is not in order. */
  method ReadRows(rows: seq<Row>) returns (r: Result<Glossary, Error>)
    ensures r.Ok? <==> RowsOk(rows)
    ensures r.Ok? ==> Read(rows, r.value)
  {
    var g := Glossary(map[], []);
    for i := 0 to |rows|
      invariant Read(rows[..i], g)
    {
      var row := rows[i];
      ReadOne(rows, i, g);
      if row.term in g.terms { return Err(DefinedTwice(row.term)); }
      if row.sentences == 0 || row.sentences > MAX_SENTENCES { return Err(OverBudget(row.term)); }
      g := Glossary(g.terms[row.term := row.also], g.order + [row.term]);
    }
    assert rows[..|rows|] == rows;
    return Ok(g);
  }

  /** `Parse` once the rows are cut out: accepted exactly when every row is in order, every reference resolves and nothing is circular. */
  method Parse(rows: seq<Row>) returns (r: Result<Glossary, Error>)
    ensures r.Ok? <==> rows != [] && RowsOk(rows) && Resolved(Table(rows)) && !Cyclic(Table(rows))
    ensures r.Ok? ==> r.value.terms == Table(rows) && |r.value.order| == |rows|
    ensures r.Ok? ==> forall i :: 0 <= i < |rows| ==> r.value.order[i] == rows[i].term
  {
    r := ReadRows(rows);
    if r.Err? { return; }
    var g := r.value;
    if |g.order| == 0 { return Err(NoTerms); }
    OrderIsTerms(rows, g);
    ClosedIsResolved(g);
    var err := CheckClosure(g);
    if err.Some? { return Err(err.value); }
    err := CheckAcyclic(g);
    if err.Some? { return Err(err.value); }
  }

  lemma PrefixTerms(rows: seq<Row>, i: nat)
    requires i < |rows|
    ensures rows[..i + 1][..i] == rows[..i] && Terms(rows[..i + 1]) == Terms(rows[..i]) + {rows[i].term}
  {
    assert rows[..i + 1] == rows[..i] + [rows[i]];
  }

  lemma RowOkInPrefix(rows: seq<Row>, n: nat, k: nat)
    requires k < n <= |rows|
    ensures RowOk(rows[..n], k) == RowOk(rows, k)
  {
    assert rows[..n][..k] == rows[..k];
  }

  lemma PrefixRows(rows: seq<Row>, i: nat)
    requires i < |rows|
    ensures RowsOk(rows[..i + 1]) <==> RowsOk(rows[..i]) && RowOk(rows, i)
    ensures RowsOk(rows) ==> RowOk(rows, i)
  {
    var a, b := rows[..i], rows[..i + 1];
    RowOkInPrefix(rows, i + 1, i);
    if RowsOk(b) {
      forall k | 0 <= k < i ensures RowOk(a, k) {
        assert RowOk(b, k);
        RowOkInPrefix(rows, i, k);
        RowOkInPrefix(rows, i + 1, k);
      }
      assert RowOk(b, i);
    }
    if RowsOk(a) && RowOk(rows, i) {
      forall k | 0 <= k < |b| ensures RowOk(b, k) {
        RowOkInPrefix(rows, i + 1, k);
        if k < i {
          assert RowOk(a, k);
          RowOkInPrefix(rows, i, k);
        }
      }
    }
  }

  lemma OrderIsTerms(rows: seq<Row>, g: Glossary)
    requires g.terms == Table(rows) && g.terms.Keys == Terms(rows) && |g.order| == |rows|
    requires forall k :: 0 <= k < |rows| ==> g.order[k] == rows[k].term
    ensures forall t :: t in g.terms <==> t in g.order
  {
    forall t | t in g.terms ensures t in g.order {
      var r :| r in rows && r.term == t;
      var k :| 0 <= k < |rows| && rows[k] == r;
      assert g.order[k] == t;
    }
    forall t | t in g.order ensures t in g.terms {
      var k :| 0 <= k < |g.order| && g.order[k] == t;
      assert rows[k] in rows;
    }
  }

  lemma ClosedIsResolved(g: Glossary)
    requires forall t :: t in g.terms <==> t in g.order
    ensures Closed(g) ==> Resolved(g.terms)
    ensures Resolved(g.terms) && !Cyclic(g.terms) ==> Closed(g)
  {
    if Closed(g) {
      forall t, r | t in g.terms && r in g.terms[t] ensures r in g.terms {
        var i :| 0 <= i < |g.order| && g.order[i] == t;
        assert TermClosed(g.terms, t);
      }
    }
    if Resolved(g.terms) && !Cyclic(g.terms) {
      forall i | 0 <= i < |g.order| ensures TermClosed(g.terms, g.order[i]) {
        assert g.order[i] in g.order;
        if g.order[i] in RefsOf(g.terms, g.order[i]) { OwnCycle(g.terms, g.order[i]); }
      }
    }
  }

  lemma OwnCycle(terms: map<string, seq<string>>, t: string)
    requires t in RefsOf(terms, t)
    ensures Cyclic(terms)
  {
    assert IsCycle(terms, [t, t]);
  }

  lemma RepeatIsCyclic(terms: map<string, seq<string>>, p: seq<string>, i: nat, j: nat)
    requires Chain(terms, p) && i < j < |p| && p[i] == p[j]
    ensures Cyclic(terms)
  {
    assert IsCycle(terms, p[i..j + 1]);
  }

  /** In an accepted table a reader who follows references, any of them, stops within as many steps as there are terms. */
  lemma ReferencesBottomOut(terms: map<string, seq<string>>, p: seq<string>)
    requires !Cyclic(terms) && Chain(terms, p)
    requires Resolved(terms)
    requires p == [] || p[0] in terms
    ensures |p| <= |terms|
  {
    forall i, j | 0 <= i < j < |p| ensures p[i] != p[j] {
      if p[i] == p[j] { RepeatIsCyclic(terms, p, i, j); }
    }
    AllTerms(terms, p, |p|);
    DistinctFit(p, terms.Keys);
    assert |terms.Keys| == |terms|;
  }

  lemma {:induction false} AllTerms(terms: map<string, seq<string>>, p: seq<string>, n: nat)
    requires Chain(terms, p) && n <= |p| && (p == [] || p[0] in terms)
    requires Resolved(terms)
    ensures forall i :: 0 <= i < n ==> p[i] in terms
  {
    if n > 1 {
      AllTerms(terms, p, n - 1);
      assert p[n - 1] in RefsOf(terms, p[n - 2]);
    }
  }
}
