/** Go's sort.SliceStable as a function of the slice: what it gives, and what its first places depend on. */
module Sorting {
  import opened Base

  /** What a comparator owes at three elements: it is one-sided, and what goes before `b` goes before all that does not. */
  predicate Lawful<T>(less: (T, T) -> bool, a: T, b: T, c: T) {
    (less(a, b) ==> !less(b, a)) && (less(a, b) && !less(c, b) ==> less(a, c))
  }

  ghost predicate StrictWeak<T(!new)>(less: (T, T) -> bool) {
    forall a, b, c :: Lawful(less, a, b, c)
  }

  /** No later element belongs before an earlier one. */
  ghost predicate Ordered<T>(less: (T, T) -> bool, s: seq<T>) {
    forall i, j :: 0 <= i < j < |s| ==> !less(s[j], s[i])
  }

  /** `x` behind everything it need not go before. */
  function Insert<T>(less: (T, T) -> bool, x: T, s: seq<T>): (r: seq<T>)
    ensures |r| == |s| + 1
  {
    if s == [] || !less(x, s[|s| - 1]) then s + [x] else Insert(less, x, s[..|s| - 1]) + [s[|s| - 1]]
  }

  function InsertAll<T>(less: (T, T) -> bool, acc: seq<T>, s: seq<T>): (r: seq<T>)
    ensures |r| == |acc| + |s|
    decreases |s|
  {
    if s == [] then acc else InsertAll(less, Insert(less, s[0], acc), s[1..])
  }

  function StableSort<T>(less: (T, T) -> bool, s: seq<T>): (r: seq<T>)
    ensures |r| == |s|
  {
    InsertAll(less, [], s)
  }

  /** Insertion splits an ordered list in two and puts `x` between. */
  lemma {:induction false} InsertSplits<T(!new)>(less: (T, T) -> bool, x: T, s: seq<T>) returns (p: nat)
    requires StrictWeak(less) && Ordered(less, s)
    ensures p <= |s| && Insert(less, x, s) == s[..p] + [x] + s[p..]
    ensures forall i :: 0 <= i < p ==> !less(x, s[i])
    ensures forall i :: p <= i < |s| ==> less(x, s[i])
    decreases |s|
  {
    if s == [] || !less(x, s[|s| - 1]) {
      p := |s|;
      forall i | 0 <= i < p ensures !less(x, s[i]) {
        assert Lawful(less, x, s[i], s[|s| - 1]);
      }
    } else {
      p := InsertSplits(less, x, s[..|s| - 1]);
      assert s == s[..|s| - 1] + [s[|s| - 1]];
      assert s[p..] == s[..|s| - 1][p..] + [s[|s| - 1]];
    }
  }

  lemma InsertKeepsOrder<T(!new)>(less: (T, T) -> bool, x: T, s: seq<T>)
    requires StrictWeak(less) && Ordered(less, s)
    ensures Ordered(less, Insert(less, x, s)) && multiset(Insert(less, x, s)) == multiset(s) + multiset{x}
  {
    var p := InsertSplits(less, x, s);
    assert s == s[..p] + s[p..];
    var r := Insert(less, x, s);
    forall i, j | 0 <= i < j < |r| ensures !less(r[j], r[i]) {
      if i == p { assert Lawful(less, x, r[j], x); }
    }
  }

  lemma {:induction false} InsertAllOrders<T(!new)>(less: (T, T) -> bool, acc: seq<T>, s: seq<T>)
    requires StrictWeak(less) && Ordered(less, acc)
    ensures Ordered(less, InsertAll(less, acc, s)) && multiset(InsertAll(less, acc, s)) == multiset(acc) + multiset(s)
    decreases |s|
  {
    if s != [] {
      InsertKeepsOrder(less, s[0], acc);
      InsertAllOrders(less, Insert(less, s[0], acc), s[1..]);
      assert s == [s[0]] + s[1..];
    }
  }

  /** The elements that tie with `x`, in their order. */
  function Ties<T>(less: (T, T) -> bool, x: T, s: seq<T>): seq<T>
    decreases |s|
  {
    if s == [] then []
    else
      var y := s[|s| - 1];
      Ties(less, x, s[..|s| - 1]) + if less(x, y) || less(y, x) then [] else [y]
  }

  lemma {:induction false} TiesOfConcat<T>(less: (T, T) -> bool, x: T, a: seq<T>, b: seq<T>)
    ensures Ties(less, x, a + b) == Ties(less, x, a) + Ties(less, x, b)
    decreases |b|
  {
    if b == [] {
      assert a + b == a;
    } else {
      TiesOfConcat(less, x, a, b[..|b| - 1]);
      assert (a + b)[..|a + b| - 1] == a + b[..|b| - 1];
    }
  }

  lemma {:induction false} NoTies<T>(less: (T, T) -> bool, x: T, s: seq<T>)
    requires forall i :: 0 <= i < |s| ==> less(x, s[i]) || less(s[i], x)
    ensures Ties(less, x, s) == []
    decreases |s|
  {
    if s != [] { NoTies(less, x, s[..|s| - 1]); }
  }

  predicate Tie<T>(less: (T, T) -> bool, x: T, y: T) { !less(x, y) && !less(y, x) }

  /** Moving `x` past elements leaves the ties as they were when `x` is no tie or they are none. */
  lemma TiesPastOthers<T>(less: (T, T) -> bool, t: T, a: seq<T>, x: T, b: seq<T>)
    requires Tie(less, t, x) ==> forall i :: 0 <= i < |b| ==> !Tie(less, t, b[i])
    ensures Ties(less, t, a + [x] + b) == Ties(less, t, a + b + [x])
  {
    TiesOfConcat(less, t, a + [x], b);
    TiesOfConcat(less, t, a, [x]);
    TiesOfConcat(less, t, a + b, [x]);
    TiesOfConcat(less, t, a, b);
    if Tie(less, t, x) { NoTies(less, t, b); } else { NoTies(less, t, [x]); }
  }

  /** Insertion puts an element last among its equals. */
  lemma InsertIsStable<T(!new)>(less: (T, T) -> bool, x: T, s: seq<T>, t: T)
    requires StrictWeak(less) && Ordered(less, s)
    ensures Ties(less, t, Insert(less, x, s)) == Ties(less, t, s) + Ties(less, t, [x])
  {
    var p := InsertSplits(less, x, s);
    assert s == s[..p] + s[p..];
    if Tie(less, t, x) {
      forall i | 0 <= i < |s| - p ensures !Tie(less, t, s[p..][i]) {
        assert less(x, s[p + i]) && Lawful(less, x, s[p + i], t);
      }
    }
    TiesPastOthers(less, t, s[..p], x, s[p..]);
    TiesOfConcat(less, t, s, [x]);
  }

  lemma TiesOfHead<T>(less: (T, T) -> bool, t: T, s: seq<T>)
    requires s != []
    ensures Ties(less, t, s) == Ties(less, t, [s[0]]) + Ties(less, t, s[1..])
  {
    TiesOfConcat(less, t, [s[0]], s[1..]);
    assert s == [s[0]] + s[1..];
  }

  lemma Reassociate<T>(a: seq<T>, b: seq<T>, c: seq<T>)
    ensures a + (b + c) == a + b + c
  {
  }

  lemma {:induction false} InsertAllIsStable<T(!new)>(less: (T, T) -> bool, acc: seq<T>, s: seq<T>, t: T)
    requires StrictWeak(less) && Ordered(less, acc)
    ensures Ties(less, t, InsertAll(less, acc, s)) == Ties(less, t, acc) + Ties(less, t, s)
    decreases |s|
  {
    if s != [] {
      InsertKeepsOrder(less, s[0], acc);
      InsertAllIsStable(less, Insert(less, s[0], acc), s[1..], t);
      InsertIsStable(less, s[0], acc, t);
      TiesOfHead(less, t, s);
      Reassociate(Ties(less, t, acc), Ties(less, t, [s[0]]), Ties(less, t, s[1..]));
    }
  }

  /** What sort.SliceStable promises: the same elements, in order, equals as they stood. */
  lemma SortIsStable<T(!new)>(less: (T, T) -> bool, s: seq<T>)
    requires StrictWeak(less)
    ensures Ordered(less, StableSort(less, s)) && multiset(StableSort(less, s)) == multiset(s)
    ensures forall t :: Ties(less, t, StableSort(less, s)) == Ties(less, t, s)
  {
    InsertAllOrders(less, [], s);
    forall t ensures Ties(less, t, StableSort(less, s)) == Ties(less, t, s) {
      InsertAllIsStable(less, [], s, t);
    }
  }

  lemma BeforeIsStrictWeak()
    ensures StrictWeak(Before)
  {
    forall a, b, c ensures Lawful(Before, a, b, c) {
      if Before(a, b) {
        if Before(b, a) { BeforeIsTransitive(a, b, a); BeforeIsStrict(a); }
        BeforeIsTotal(b, c);
        if Before(b, c) { BeforeIsTransitive(a, b, c); }
      }
    }
  }

  lemma SortedStrings(s: seq<string>)
    ensures var r := StableSort(Before, s); Ordered(Before, r) && multiset(r) == multiset(s) && SameElements(r, s)
  {
    BeforeIsStrictWeak();
    InsertAllOrders(Before, [], s);
    var r := StableSort(Before, s);
    forall x ensures x in r <==> x in s {
      assert x in multiset(r) <==> x in multiset(s);
    }
  }

  method Overwrite<T>(a: array<T>, s: seq<T>)
    requires |s| == a.Length
    modifies a
    ensures a[..] == s
  {
    for i := 0 to a.Length
      invariant a[..i] == s[..i]
    {
      a[i] := s[i];
    }
    assert s[..a.Length] == s;
  }

  /** Stands for Go's sort.Strings. */
  method SortStrings(a: array<string>)
    modifies a
    ensures Ordered(Before, a[..]) && multiset(a[..]) == multiset(old(a[..])) && SameElements(a[..], old(a[..]))
  {
    SortedStrings(a[..]);
    Overwrite(a, StableSort(Before, a[..]));
  }

  // What the first `k` places depend on.

  function Upto<T>(k: nat, s: seq<T>): (r: seq<T>)
    ensures |r| == if |s| <= k then |s| else k
  {
    if |s| <= k then s else s[..k]
  }

  lemma {:induction false} InsertAllSplits<T>(less: (T, T) -> bool, acc: seq<T>, a: seq<T>, b: seq<T>)
    ensures InsertAll(less, acc, a + b) == InsertAll(less, InsertAll(less, acc, a), b)
    decreases |a|
  {
    if a == [] {
      assert a + b == b;
    } else {
      InsertAllSplits(less, Insert(less, a[0], acc), a[1..], b);
      assert (a + b)[1..] == a[1..] + b;
    }
  }

  lemma InsertedFront<T>(x: T, s: seq<T>, t: seq<T>, p: nat, q: nat, k: nat)
    requires p <= |s| && q <= |t| && k <= |s| && k <= |t| && s[..k] == t[..k] && (p == q || (p >= k && q >= k))
    ensures (s[..p] + [x] + s[p..])[..k] == (t[..q] + [x] + t[q..])[..k]
  {
    var r, u := s[..p] + [x] + s[p..], t[..q] + [x] + t[q..];
    forall i | 0 <= i < k ensures r[i] == u[i] {
      assert s[..k][i] == t[..k][i];
      if i > 0 { assert s[..k][i - 1] == t[..k][i - 1]; }
    }
  }

  /** The first places after an insertion depend on the first places before it. */
  lemma InsertLocal<T(!new)>(less: (T, T) -> bool, x: T, s: seq<T>, t: seq<T>, k: nat)
    requires StrictWeak(less) && Ordered(less, s) && Ordered(less, t) && Upto(k, s) == Upto(k, t)
    ensures Upto(k, Insert(less, x, s)) == Upto(k, Insert(less, x, t))
  {
    if |s| >= k && |t| >= k {
      var p := InsertSplits(less, x, s);
      var q := InsertSplits(less, x, t);
      if p < k { assert t[p] == t[..k][p] == s[..k][p] == s[p]; }
      if q < k { assert s[q] == s[..k][q] == t[..k][q] == t[q]; }
      InsertedFront(x, s, t, p, q, k);
    }
  }

  lemma {:induction false} InsertAllLocal<T(!new)>(less: (T, T) -> bool, s: seq<T>, t: seq<T>, xs: seq<T>, k: nat)
    requires StrictWeak(less) && Ordered(less, s) && Ordered(less, t) && Upto(k, s) == Upto(k, t)
    ensures Upto(k, InsertAll(less, s, xs)) == Upto(k, InsertAll(less, t, xs))
    decreases |xs|
  {
    if xs != [] {
      InsertLocal(less, xs[0], s, t, k);
      InsertKeepsOrder(less, xs[0], s);
      InsertKeepsOrder(less, xs[0], t);
      InsertAllLocal(less, Insert(less, xs[0], s), Insert(less, xs[0], t), xs[1..], k);
    }
  }

  lemma StandsBefore<T(!new)>(less: (T, T) -> bool, x: T, before: seq<T>, p: nat, i: nat)
    requires i < |before| && p <= |before| && !less(x, before[i]) && forall k :: p <= k < |before| ==> less(x, before[k])
    ensures i < p
  {
  }

  lemma LastGoesBehind<T(!new)>(less: (T, T) -> bool, head: seq<T>, x: T, before: seq<T>, p: nat)
    requires StrictWeak(less) && Ordered(less, head + [x]) && |head| <= |before| && p <= |before|
    requires forall i :: 0 <= i < |head| ==> !less(head[|head| - 1], before[i])
    requires forall i :: p <= i < |before| ==> less(x, before[i])
    ensures |head| <= p && forall i :: 0 <= i < |head| ==> !less(x, before[i])
  {
    var n := |head|;
    forall i | 0 <= i < n ensures !less(x, before[i]) {
      assert !less((head + [x])[n], (head + [x])[n - 1]);
      assert Lawful(less, x, before[i], head[n - 1]);
    }
    if n > 0 { StandsBefore(less, x, before, p, n - 1); }
  }

  lemma FrontHolds<T(!new)>(less: (T, T) -> bool, x: T, before: seq<T>, p: nat, n: nat)
    requires StrictWeak(less) && n <= p <= |before| && forall i :: 0 <= i < p ==> !less(x, before[i])
    ensures forall i :: 0 <= i <= n ==> !less(x, (before[..p] + [x] + before[p..])[i])
  {
    assert Lawful(less, x, x, x);
  }

  /** After an ordered list went in, as many first places hold nothing that belongs behind its last element. */
  lemma {:induction false} OrderedGoesAhead<T(!new)>(less: (T, T) -> bool, acc: seq<T>, xs: seq<T>)
    requires StrictWeak(less) && Ordered(less, acc) && Ordered(less, xs)
    ensures Ordered(less, InsertAll(less, acc, xs))
    ensures forall i :: 0 <= i < |xs| ==> !less(xs[|xs| - 1], InsertAll(less, acc, xs)[i])
    decreases |xs|
  {
    InsertAllOrders(less, acc, xs);
    if xs != [] {
      var n := |xs| - 1;
      var head, x := xs[..n], xs[n];
      OrderedGoesAhead(less, acc, head);
      assert xs == head + [x];
      InsertAllSplits(less, acc, head, [x]);
      var before := InsertAll(less, acc, head);
      assert [x][1..] == [];
      assert InsertAll(less, before, [x]) == Insert(less, x, before);
      var p := InsertSplits(less, x, before);
      LastGoesBehind(less, head, x, before, p);
      FrontHolds(less, x, before, p, n);
    }
  }

  /** Elements of an ordered list past its `k`th cannot show among the first `k`. */
  lemma {:induction false} TailUnseen<T(!new)>(less: (T, T) -> bool, acc: seq<T>, xs: seq<T>, k: nat)
    requires StrictWeak(less) && Ordered(less, acc) && Ordered(less, xs)
    ensures Upto(k, InsertAll(less, acc, xs)) == Upto(k, InsertAll(less, acc, Upto(k, xs)))
    decreases |xs|
  {
    if |xs| > k {
      var n := |xs| - 1;
      var head, x := xs[..n], xs[n];
      TailUnseen(less, acc, head, k);
      assert Upto(k, head) == Upto(k, xs);
      assert xs == head + [x];
      InsertAllSplits(less, acc, head, [x]);
      var before := InsertAll(less, acc, head);
      assert [x][1..] == [];
      assert InsertAll(less, before, [x]) == Insert(less, x, before);
      OrderedGoesAhead(less, acc, head);
      var p := InsertSplits(less, x, before);
      LastGoesBehind(less, head, x, before, p);
    }
  }

  function Concat<T>(lists: seq<seq<T>>): seq<T> {
    if lists == [] then [] else Concat(lists[..|lists| - 1]) + lists[|lists| - 1]
  }

  function AllUpto<T>(k: nat, lists: seq<seq<T>>): (r: seq<seq<T>>)
    ensures |r| == |lists|
  {
    seq(|lists|, i requires 0 <= i < |lists| => Upto(k, lists[i]))
  }

  /** The first `k` of several ordered lists sorted together are those of their first `k`s. */
  lemma {:induction false} TopOfTops<T(!new)>(less: (T, T) -> bool, lists: seq<seq<T>>, k: nat)
    requires StrictWeak(less) && forall i :: 0 <= i < |lists| ==> Ordered(less, lists[i])
    ensures Upto(k, StableSort(less, Concat(lists))) == Upto(k, StableSort(less, Concat(AllUpto(k, lists))))
    decreases |lists|
  {
    if lists != [] {
      var n := |lists| - 1;
      var head, last := lists[..n], lists[n];
      TopOfTops(less, head, k);
      var cut := AllUpto(k, lists);
      assert cut[..n] == AllUpto(k, head) && cut[n] == Upto(k, last);
      var full, short := Concat(head), Concat(AllUpto(k, head));
      InsertAllOrders(less, [], full);
      InsertAllOrders(less, [], short);
      InsertAllSplits(less, [], full, last);
      InsertAllSplits(less, [], short, Upto(k, last));
      InsertAllLocal(less, StableSort(less, full), StableSort(less, short), Upto(k, last), k);
      TailUnseen(less, StableSort(less, full), last, k);
    }
  }
}
