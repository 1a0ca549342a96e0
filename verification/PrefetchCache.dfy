/** The resolver behind breadth-first decoding: it answers from what earlier rounds fetched and records the rest. */
module PrefetchCache {
  import opened Base
  import opened Amino
  import opened Decode
  import opened Sorting

  /**
   The chain behind the fetcher, as a fixed partial function, with the batches
   whose transport fails. An id it does not have is Missing or Untyped.
   */
  datatype Fetcher = Fetcher(
    object_: string -> Reply,
    type_: string -> TypeExpr,
    objectsFail: seq<string> -> bool,
    typesFail: seq<string> -> bool)

  function DirectObjects(f: Fetcher): string -> Option<Reply> { x => Some(f.object_(x)) }
  function DirectTypes(f: Fetcher): string -> Option<TypeExpr> { x => Some(f.type_(x)) }

  /** A resolver that asks the chain for every id. */
  function DirectEnv(f: Fetcher, lim: Limits): Env {
    Env(true, DirectObjects(f), DirectTypes(f), lim)
  }

  function Known<T>(m: map<string, T>): string -> Option<T> {
    x => if x in m then Some(m[x]) else None
  }

  /** A resolver that answers from what was fetched. */
  function CachedEnv(objects: map<string, Reply>, types: map<string, TypeExpr>, lim: Limits): Env {
    Env(true, Known(objects), Known(types), lim)
  }

  ghost predicate StrictlySorted(s: seq<string>) {
    forall i, j :: 0 <= i < j < |s| ==> Before(s[i], s[j])
  }

  lemma StrictlySortedIsDistinct(s: seq<string>)
    requires StrictlySorted(s)
    ensures Distinct(s)
  {
    forall i, j | 0 <= i < j < |s| ensures s[i] != s[j] {
      BeforeIsStrict(s[i]);
    }
  }

  /** `dedupe`: sorts a round's requests and drops repeats, overwriting the front of the same buffer. */
  method Dedupe(a: array<string>) returns (k: nat)
    modifies a
    ensures k <= a.Length && StrictlySorted(a[..k]) && SameElements(a[..k], old(a[..]))
  {
    if a.Length == 0 { return 0; }
    SortStrings(a);
    ghost var sorted := a[..];
    k := 1;
    for i := 1 to a.Length
      invariant 1 <= k <= i
      invariant a[i..] == sorted[i..]
      invariant a[k - 1] == sorted[i - 1]
      invariant StrictlySorted(a[..k]) && SameElements(a[..k], sorted[..i])
    {
      assert sorted[..i + 1] == sorted[..i] + [sorted[i]];
      assert a[i] == a[i..][0] == sorted[i];
      if a[i] != a[k - 1] {
        BeforeIsTotal(a[k - 1], a[i]);
        assert !(Before)(sorted[i], sorted[i - 1]);
        assert Before(sorted[i - 1], sorted[i]);
        ghost var kept := a[..k];
        forall j | 0 <= j < k ensures Before(kept[j], a[i]) {
          if j < k - 1 { BeforeIsTransitive(kept[j], kept[k - 1], a[i]); }
        }
        a[k] := a[i];
        k := k + 1;
        assert a[..k] == kept + [sorted[i]];
      } else {
        assert sorted[i] == a[..k][k - 1];
      }
      assert a[i + 1..] == sorted[i + 1..];
    }
    assert sorted[..a.Length] == sorted;
  }

  /** A round's requests, sorted and without repeats. */
  method Deduped(wants: seq<string>) returns (ids: seq<string>)
    ensures Distinct(ids) && StrictlySorted(ids) && SameElements(ids, wants) && (wants != [] ==> ids != [])
  {
    var buffer := new string[|wants|](i requires 0 <= i < |wants| => wants[i]);
    assert buffer[..] == wants;
    var k := Dedupe(buffer);
    ids := buffer[..k];
    StrictlySortedIsDistinct(ids);
    if wants != [] { assert wants[0] in ids; }
  }

  /** Writes an answer back for every id of a request, the ids the chain did not have included. */
  method Record<K(!new,==), T>(held: map<K, T>, ids: seq<K>, answer: K -> T) returns (r: map<K, T>)
    requires Distinct(ids) && forall x :: x in ids ==> x !in held
    requires forall x :: x in held ==> held[x] == answer(x)
    ensures forall x :: x in r <==> x in held || x in ids
    ensures |r| == |held| + |ids|
    ensures forall x :: x in r ==> r[x] == answer(x)
  {
    r := held;
    for k := 0 to |ids|
      invariant forall j :: 0 <= j < k ==> ids[j] in r
      invariant forall j :: k <= j < |ids| ==> ids[j] !in r
      invariant forall x :: x in held ==> x in r
      invariant forall x :: x in r ==> (x in held || x in ids) && r[x] == answer(x)
      invariant |r| == |held| + k
    {
      r := r[ids[k] := answer(ids[k])];
    }
  }

  class Cache {
    const fetcher: Fetcher
    var budget: int
    var exhausted: bool
    var objects: map<string, Reply>
    var types: map<string, TypeExpr>
    var wantObjects: seq<string>
    var wantTypes: seq<string>
    // Every id ever put in a request, in order.
    ghost var sentObjects: seq<string>
    ghost var sentTypes: seq<string>

    /** What is held is what the chain answered, and each id was asked for once. */
    ghost predicate Valid()
      reads this
    {
      && budget >= 0
      && (forall x :: x in objects ==> objects[x] == fetcher.object_(x))
      && (forall x :: x in types ==> types[x] == fetcher.type_(x))
      && Distinct(sentObjects) && (forall x :: x in sentObjects <==> x in objects)
      && Distinct(sentTypes) && (forall x :: x in sentTypes <==> x in types)
    }

    /** The budget is `total` less one unit per object held, and has run out only when it is all spent. */
    predicate Accounts(total: int)
      reads this`budget, this`objects, this`exhausted
    {
      budget >= 0 && budget + |objects| == total && (exhausted ==> budget == 0)
    }

    constructor (f: Fetcher, maxFetch: nat)
      ensures Accounts(maxFetch)
      ensures Valid() && fetcher == f && budget == maxFetch && !exhausted
      ensures objects == map[] && types == map[] && wantObjects == [] && wantTypes == []
    {
      fetcher := f;
      budget, exhausted := maxFetch, false;
      objects, types, wantObjects, wantTypes := map[], map[], [], [];
      sentObjects, sentTypes := [], [];
    }

    /** One request to the chain, its answers written back. */
    method FetchObjects(oids: seq<string>) returns (ok: bool)
      requires Valid() && Distinct(oids) && forall x :: x in oids ==> x !in objects
      modifies this`objects, this`sentObjects
      ensures Distinct(sentObjects) && (ok ==> Valid())
      ensures ok ==> |objects| == old(|objects|) + |oids| && forall x :: x in objects <==> x in old(objects) || x in oids
    {
      DistinctConcat(sentObjects, oids);
      sentObjects := sentObjects + oids;
      if fetcher.objectsFail(oids) { return false; }
      objects := Record(objects, oids, fetcher.object_);
      return true;
    }

    /** The object half of a round: the deduplicated misses, cut to what is left of the budget. */
    method FillObjects() returns (ok: bool)
      requires Valid() && forall x :: x in wantObjects ==> x !in objects
      modifies this`budget, this`exhausted, this`objects, this`sentObjects
      ensures Distinct(sentObjects) && (ok ==> Valid())
      ensures ok ==> budget + |objects| == old(budget + |objects|) && |objects| >= old(|objects|)
      ensures ok ==> forall x :: x in objects ==> x in old(objects) || x in wantObjects
      ensures ok ==> forall x :: x in old(objects) ==> x in objects
      ensures ok ==> (old(exhausted) ==> exhausted)
      ensures ok && !exhausted ==> forall x :: x in wantObjects ==> x in objects
      ensures ok && exhausted && !old(exhausted) ==> budget == 0 && exists x :: x in wantObjects && x !in objects
      ensures ok && wantObjects != [] ==> |objects| > old(|objects|) || exhausted
    {
      var all := Deduped(wantObjects);
      if |all| == 0 { return true; }
      var oids := all;
      if |all| > budget {
        oids := all[..budget];
        exhausted := true;
        assert all[|oids|] in wantObjects && all[|oids|] !in oids;
      }
      budget := budget - |oids|;
      if |oids| == 0 { return true; }
      ok := FetchObjects(oids);
    }

    /** The type half of a round, which no budget limits: types turn positions into names. */
    method FillTypes() returns (ok: bool)
      requires Valid() && forall x :: x in wantTypes ==> x !in types
      modifies this`types, this`sentTypes
      ensures Distinct(sentTypes) && (ok ==> Valid())
      ensures ok ==> forall x :: x in types <==> x in old(types) || x in wantTypes
      ensures ok && wantTypes != [] ==> |types| > old(|types|)
      ensures ok ==> |types| >= old(|types|)
    {
      var tids := Deduped(wantTypes);
      if |tids| == 0 { return true; }
      DistinctConcat(sentTypes, tids);
      sentTypes := sentTypes + tids;
      if fetcher.typesFail(tids) { return false; }
      types := Record(types, tids, fetcher.type_);
      return true;
    }

    /**
     `fill`: fetches one round's misses. The budget is spent one unit per object
     held, nothing held is dropped, no id is sent twice, the budget has run out
     exactly when a wanted object was left behind, and a round that wanted
     something either holds more afterwards or has run out.
     */
    method Fill() returns (ok: bool)
      requires Valid()
      requires forall x :: x in wantObjects ==> x !in objects
      requires forall x :: x in wantTypes ==> x !in types
      modifies this`budget, this`exhausted, this`objects, this`sentObjects, this`types, this`sentTypes
      ensures Distinct(sentObjects) && Distinct(sentTypes) && (ok ==> Valid())
      ensures ok ==> budget + |objects| == old(budget + |objects|)
      ensures ok ==> forall x :: x in objects ==> x in old(objects) || x in wantObjects
      ensures ok ==> forall x :: x in old(objects) ==> x in objects
      ensures ok ==> (old(exhausted) ==> exhausted)
      ensures ok && !exhausted ==> forall x :: x in wantObjects ==> x in objects
      ensures ok && exhausted && !old(exhausted) ==> budget == 0 && exists x :: x in wantObjects && x !in objects
      ensures ok ==> forall x :: x in types <==> x in old(types) || x in wantTypes
      ensures ok && (wantObjects != [] || wantTypes != []) ==>
        |objects| + |types| > old(|objects| + |types|) || exhausted
    {
      ok := FillObjects();
      if !ok { return; }
      ok := FillTypes();
    }
  }
}
