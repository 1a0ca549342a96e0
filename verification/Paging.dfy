/** Paging over all networks: each network gives its first rows, the rows are merged and sorted, the page is cut. */
module Paging {
  import opened Base
  import opened Sorting

  datatype Package = Package(
    network: string, path: string,
    calls: int, importers: int, imports: int, uniqueUsers: int, gasUsed: int, storageDeposit: int, symbols: int,
    lastCallTime: string, blockTime: string, blockHeight: int)

  /** Later first; a row with a time ahead of one without; by height among those without. */
  predicate NewerFirst(ti: string, tj: string, hi: int, hj: int) {
    if ti != "" && tj != "" then Before(tj, ti)
    else if ti != tj then ti != ""
    else hi > hj
  }

  /** The comparators of `sortMergedPackages`. */
  function Comparator(sortBy: string): (Package, Package) -> bool {
    match sortBy
    case "calls" => (a: Package, b: Package) => a.calls > b.calls
    case "importers" => (a: Package, b: Package) => a.importers > b.importers
    case "imports" => (a: Package, b: Package) => a.imports > b.imports
    case "users" => (a: Package, b: Package) => a.uniqueUsers > b.uniqueUsers
    case "gas" => (a: Package, b: Package) => a.gasUsed > b.gasUsed
    case "storage" => (a: Package, b: Package) => a.storageDeposit > b.storageDeposit
    case "symbols" => (a: Package, b: Package) => a.symbols > b.symbols
    case "last_call" => (a: Package, b: Package) => NewerFirst(a.lastCallTime, b.lastCallTime, a.blockHeight, b.blockHeight)
    case "name" => (a: Package, b: Package) => Before(a.path, b.path)
    case _ => (a: Package, b: Package) => NewerFirst(a.blockTime, b.blockTime, a.blockHeight, b.blockHeight)
  }

  lemma BeforeIsWeak(a: string, b: string, c: string)
    ensures Before(a, b) ==> !Before(b, a)
    ensures Before(a, b) && !Before(c, b) ==> Before(a, c)
  {
    if Before(a, b) {
      if Before(b, a) {
        BeforeIsTransitive(a, b, a);
        BeforeIsStrict(a);
      }
      BeforeIsTotal(c, b);
      if Before(b, c) { BeforeIsTransitive(a, b, c); }
    }
  }

  lemma NewerFirstIsWeak(ta: string, tb: string, tc: string, ha: int, hb: int, hc: int)
    ensures NewerFirst(ta, tb, ha, hb) ==> !NewerFirst(tb, ta, hb, ha)
    ensures NewerFirst(ta, tb, ha, hb) && !NewerFirst(tc, tb, hc, hb) ==> NewerFirst(ta, tc, ha, hc)
  {
    BeforeIsWeak(tb, ta, tb);
    BeforeIsTotal(tb, tc);
    BeforeIsTotal(ta, tc);
    if Before(tc, tb) && Before(tb, ta) { BeforeIsTransitive(tc, tb, ta); }
  }

  /** Every comparator is one-sided and its ties are transitive, so a sort by it is determined. */
  lemma EveryComparatorIsStrictWeak(sortBy: string)
    ensures StrictWeak(Comparator(sortBy))
  {
    var less := Comparator(sortBy);
    forall a, b, c ensures Lawful(less, a, b, c) {
      if sortBy == "name" {
        BeforeIsWeak(a.path, b.path, c.path);
      } else if sortBy == "last_call" {
        NewerFirstIsWeak(a.lastCallTime, b.lastCallTime, c.lastCallTime, a.blockHeight, b.blockHeight, c.blockHeight);
      } else {
        NewerFirstIsWeak(a.blockTime, b.blockTime, c.blockTime, a.blockHeight, b.blockHeight, c.blockHeight);
      }
    }
  }

  /** Rows with a time stand ahead of rows without, later times first; those without by height, the highest first. */
  predicate TimeOrdered(ti: string, tj: string, hi: int, hj: int) {
    && (tj != "" ==> ti != "" && !Before(ti, tj))
    && (ti == "" && tj == "" ==> hi >= hj)
  }

  /** Of two rows in the answer, the one that may stand first. */
  predicate MayPrecede(sortBy: string, a: Package, b: Package) {
    match sortBy
    case "calls" => a.calls >= b.calls
    case "importers" => a.importers >= b.importers
    case "imports" => a.imports >= b.imports
    case "users" => a.uniqueUsers >= b.uniqueUsers
    case "gas" => a.gasUsed >= b.gasUsed
    case "storage" => a.storageDeposit >= b.storageDeposit
    case "symbols" => a.symbols >= b.symbols
    case "name" => !Before(b.path, a.path)
    case "last_call" => TimeOrdered(a.lastCallTime, b.lastCallTime, a.blockHeight, b.blockHeight)
    case _ => TimeOrdered(a.blockTime, b.blockTime, a.blockHeight, b.blockHeight)
  }

  ghost predicate Listed(sortBy: string, rows: seq<Package>) {
    forall i, j :: 0 <= i < j < |rows| ==> MayPrecede(sortBy, rows[i], rows[j])
  }

  lemma TimesOrder(ti: string, tj: string, hi: int, hj: int)
    requires !NewerFirst(tj, ti, hj, hi)
    ensures TimeOrdered(ti, tj, hi, hj)
  {
  }

  lemma OrderedMayPrecede(sortBy: string, a: Package, b: Package)
    requires !Comparator(sortBy)(b, a)
    ensures MayPrecede(sortBy, a, b)
  {
    if sortBy == "last_call" {
      TimesOrder(a.lastCallTime, b.lastCallTime, a.blockHeight, b.blockHeight);
    } else if sortBy !in {"calls", "importers", "imports", "users", "gas", "storage", "symbols", "name"} {
      TimesOrder(a.blockTime, b.blockTime, a.blockHeight, b.blockHeight);
    }
  }

  /** What a sort key means for the list: most first by count, names ascending, latest first by time. */
  lemma SortedIsListed(sortBy: string, pkgs: seq<Package>)
    ensures Listed(sortBy, StableSort(Comparator(sortBy), pkgs))
  {
    var rows := StableSort(Comparator(sortBy), pkgs);
    EveryComparatorIsStrictWeak(sortBy);
    InsertAllOrders(Comparator(sortBy), [], pkgs);
    forall i, j | 0 <= i < j < |rows| ensures MayPrecede(sortBy, rows[i], rows[j]) {
      OrderedMayPrecede(sortBy, rows[i], rows[j]);
    }
  }

  /** The rows of a sorted list from `offset` on, at most `limit`. */
  function Window(sorted: seq<Package>, offset: nat, limit: nat): seq<Package> {
    if offset >= |sorted| then [] else if offset + limit > |sorted| then sorted[offset..] else sorted[offset..offset + limit]
  }

  /** `sortMergedPackages`: stable, in place. */
  method SortMerged(pkgs: array<Package>, sortBy: string)
    modifies pkgs
    ensures pkgs[..] == StableSort(Comparator(sortBy), old(pkgs[..])) && Listed(sortBy, pkgs[..])
  {
    SortedIsListed(sortBy, pkgs[..]);
    Overwrite(pkgs, StableSort(Comparator(sortBy), pkgs[..]));
  }

  /** `fanOut`'s last loop: the answers in configured order, networks that failed left out. */
  function Answered(slots: seq<Option<seq<Package>>>): seq<seq<Package>> {
    if slots == [] then []
    else
      var k := |slots| - 1;
      match slots[k]
      case Some(items) => Answered(slots[..k]) + [items]
      case None => Answered(slots[..k])
  }

  /** The all-networks branch of `handleListPackages`, from the networks' answers on. */
  method MergedPage(slots: seq<Option<seq<Package>>>, sortBy: string, offset: nat, limit: nat) returns (page: seq<Package>)
    ensures page == Window(StableSort(Comparator(sortBy), Concat(Answered(slots))), offset, limit)
  {
    var merged: seq<Package> := [];
    for i := 0 to |slots|
      invariant merged == Concat(Answered(slots[..i]))
    {
      assert slots[..i + 1][..i] == slots[..i];
      if slots[i].Some? {
        var before := Answered(slots[..i]);
        assert (before + [slots[i].value])[..|before|] == before;
        merged := merged + slots[i].value;
      }
    }
    assert slots[..|slots|] == slots;
    var pkgs := new Package[|merged|](i requires 0 <= i < |merged| => merged[i]);
    assert pkgs[..] == merged;
    SortMerged(pkgs, sortBy);
    merged := pkgs[..];
    if offset >= |merged| { return []; }
    var end := offset + limit;
    if end > |merged| { end := |merged|; }
    return merged[offset..end];
  }

  lemma WindowOfFirst(s: seq<Package>, t: seq<Package>, offset: nat, limit: nat)
    requires Upto(offset + limit, s) == Upto(offset + limit, t) && limit > 0
    ensures Window(s, offset, limit) == Window(t, offset, limit)
  {
    var k := offset + limit;
    var u := Upto(k, s);
    assert Window(s, offset, limit) == Window(u, offset, limit);
    assert Window(t, offset, limit) == Window(u, offset, limit);
  }

  /**
   * The page is exact: the first `offset + limit` rows of every network give the same page as all their rows,
   * when each network lists its rows in the order of the comparator.
   */
  lemma PageIsExact(lists: seq<seq<Package>>, sortBy: string, offset: nat, limit: nat)
    requires limit > 0 && forall i :: 0 <= i < |lists| ==> Ordered(Comparator(sortBy), lists[i])
    ensures Window(StableSort(Comparator(sortBy), Concat(AllUpto(offset + limit, lists))), offset, limit)
         == Window(StableSort(Comparator(sortBy), Concat(lists)), offset, limit)
  {
    EveryComparatorIsStrictWeak(sortBy);
    TopOfTops(Comparator(sortBy), lists, offset + limit);
    WindowOfFirst(StableSort(Comparator(sortBy), Concat(lists)),
      StableSort(Comparator(sortBy), Concat(AllUpto(offset + limit, lists))), offset, limit);
  }

  /** Where page `n` begins. */
  function Offset(n: nat, limit: nat): nat { if n == 0 then 0 else Offset(n - 1, limit) + limit }

  /** The first `n` pages as the handler gives them. */
  function Pages(lists: seq<seq<Package>>, sortBy: string, limit: nat, n: nat): seq<Package> {
    if n == 0 then []
    else
      Pages(lists, sortBy, limit, n - 1)
        + Window(StableSort(Comparator(sortBy), Concat(AllUpto(Offset(n, limit), lists))), Offset(n - 1, limit), limit)
  }

  lemma WindowExtends(s: seq<Package>, offset: nat, limit: nat)
    ensures Upto(offset, s) + Window(s, offset, limit) == Upto(offset + limit, s)
  {
  }

  lemma Turning(read: seq<Package>, all: seq<Package>, some: seq<Package>, offset: nat, limit: nat)
    requires read == Upto(offset, all) && Window(some, offset, limit) == Window(all, offset, limit)
    ensures read + Window(some, offset, limit) == Upto(offset + limit, all)
  {
    WindowExtends(all, offset, limit);
  }

  /** So pages read one after the other, each from its own queries, give every row once and in order. */
  lemma {:induction false} PagesTile(lists: seq<seq<Package>>, sortBy: string, limit: nat, n: nat)
    requires limit > 0 && forall i :: 0 <= i < |lists| ==> Ordered(Comparator(sortBy), lists[i])
    ensures Pages(lists, sortBy, limit, n) == Upto(Offset(n, limit), StableSort(Comparator(sortBy), Concat(lists)))
  {
    if n > 0 {
      PagesTile(lists, sortBy, limit, n - 1);
      PageIsExact(lists, sortBy, Offset(n - 1, limit), limit);
      Turning(Pages(lists, sortBy, limit, n - 1), StableSort(Comparator(sortBy), Concat(lists)),
        StableSort(Comparator(sortBy), Concat(AllUpto(Offset(n, limit), lists))), Offset(n - 1, limit), limit);
    }
  }
}
