/** The response cache's shared state and its four locked operations. */
module ResponseCache {
  import opened Base

  const MAX_ENTRIES := 512
  const MAX_BODY := 8 * 1024 * 1024

  type Key = string
  /** A channel, by the order it was made in. */
  type Chan = nat

  datatype Entry = Entry(
    body: string, contentType: string, contentEncoding: string, cacheControl: string, etag: string,
    storedAt: int, ttl: int)

  /** `grace` is how far past its own ttl an entry may still be served. */
  datatype Shared = Shared(
    grace: int,
    entries: map<Key, Entry>, inflight: map<Key, Chan>,
    made: nat, closed: set<Chan>,
    hits: nat, misses: nat, stale: nat, coalesced: nat)

  datatype Looked = Looked(entry: Option<Entry>, isFresh: bool, claimed: bool, wait: Option<Chan>)

  function Age(e: Entry, now: int): int { now - e.storedAt }

  /** Not yet beyond its serving life. */
  predicate Servable(s: Shared, e: Entry, now: int) {
    Age(e, now) <= e.ttl + s.grace
  }

  predicate Usable(s: Shared, key: Key, now: int) {
    key in s.entries && Servable(s, s.entries[key], now)
  }

  predicate Fresh(s: Shared, key: Key, now: int) {
    Usable(s, key, now) && Age(s.entries[key], now) <= s.entries[key].ttl
  }

  /** `lookup`: classify a key and, when there is work to do and nobody is doing it, claim it. */
  function Lookup(s: Shared, key: Key, now: int): (Looked, Shared) {
    if Fresh(s, key, now) then
      (Looked(Some(s.entries[key]), true, false, None), s.(hits := s.hits + 1))
    else
      var usable := Usable(s, key, now);
      var entry := if usable then Some(s.entries[key]) else None;
      var s1 := if usable then s.(stale := s.stale + 1) else s.(misses := s.misses + 1);
      if key in s.inflight then
        (Looked(entry, false, false, Some(s.inflight[key])),
         if usable then s1 else s1.(coalesced := s.coalesced + 1))
      else
        (Looked(entry, false, true, Some(s.made)),
         s1.(inflight := s.inflight[key := s.made], made := s.made + 1))
  }

  /** `done`: release a claimed key and wake its waiters; a second call does nothing. */
  function Released(s: Shared, key: Key): Shared {
    if key in s.inflight then
      s.(inflight := s.inflight - {key}, closed := s.closed + {s.inflight[key]})
    else s
  }

  /** `get`. */
  function Got(s: Shared, key: Key, now: int): Option<Entry> {
    if Usable(s, key, now) then Some(s.entries[key]) else None
  }

  /** The entries that can still be served. */
  function Alive(s: Shared, now: int): map<Key, Entry> {
    map k | k in s.entries && Servable(s, s.entries[k], now) :: s.entries[k]
  }

  /** `put`: make room by dropping what can no longer be served, then by starting over, and store. */
  function Stored(s: Shared, key: Key, e: Entry, now: int): Shared {
    var alive := if |s.entries| >= MAX_ENTRIES then Alive(s, now) else s.entries;
    var room := if |alive| >= MAX_ENTRIES then map[] else alive;
    s.(entries := room[key := e])
  }

  /**
   What a lookup answers, by the clock: an entry at most its ttl and the grace
   old is the one handed back, and it is fresh exactly when at most its ttl old.
   Without a fresh one there is work to do: whoever does it already is waited
   for, or the key is claimed under a new channel.
   */
  lemma LookupByTheClock(s: Shared, key: Key, now: int)
    requires s.grace >= 0
    ensures
      var (r, t) := Lookup(s, key, now);
      var held := key in s.entries && now - s.entries[key].storedAt <= s.entries[key].ttl + s.grace;
      && r.entry == (if held then Some(s.entries[key]) else None)
      && (r.isFresh <==> held && now - s.entries[key].storedAt <= s.entries[key].ttl)
      && (r.isFresh ==> !r.claimed && r.wait.None? && t == s.(hits := s.hits + 1))
      && (!r.isFresh && key in s.inflight ==> !r.claimed && r.wait == Some(s.inflight[key]) && t.inflight == s.inflight)
      && (!r.isFresh && key !in s.inflight ==>
            r.claimed && r.wait == Some(s.made) && t.inflight == s.inflight[key := s.made] && t.made == s.made + 1)
      && t.entries == s.entries && t.closed == s.closed
      && t.hits + t.stale + t.misses == s.hits + s.stale + s.misses + 1
      && (!r.isFresh ==> t.stale == s.stale + (if held then 1 else 0))
      && t.coalesced == s.coalesced + (if !held && key in s.inflight then 1 else 0)
  {
  }

  /** The memory bound, and what a store may cost: a servable entry is lost only to a replacement or a full map. */
  lemma StoredIsBounded(s: Shared, key: Key, e: Entry, now: int)
    requires |s.entries| <= MAX_ENTRIES
    ensures var t := Stored(s, key, e, now);
      && |t.entries| <= MAX_ENTRIES && key in t.entries && t.entries[key] == e
      && (forall k :: k in t.entries && k != key ==> k in s.entries && t.entries[k] == s.entries[k])
      && (forall k :: Usable(s, k, now) && k !in t.entries ==>
            |s.entries| == MAX_ENTRIES && forall j :: j in s.entries ==> Usable(s, j, now))
  {
    if |s.entries| >= MAX_ENTRIES {
      var alive := Alive(s, now);
      assert alive.Keys <= s.entries.Keys;
      Subset(alive.Keys, s.entries.Keys);
      if |alive| >= MAX_ENTRIES {
        SameSizeSubset(alive.Keys, s.entries.Keys);
      }
    }
  }

  lemma Subset<T>(a: set<T>, b: set<T>)
    requires a <= b
    ensures |a| <= |b|
  {
    assert b == a + (b - a);
  }

  lemma SameSizeSubset<T>(a: set<T>, b: set<T>)
    requires a <= b && |a| >= |b|
    ensures a == b
  {
    assert b == a + (b - a);
    assert |b - a| == 0;
  }

  /** The cache object. Each method runs under the one lock, so each is one step of `Shared`. */
  class Cache {
    const grace: int
    var entries: map<Key, Entry>
    var inflight: map<Key, Chan>
    var made: nat
    var closed: set<Chan>
    var hits: nat
    var misses: nat
    var stale: nat
    var coalesced: nat

    constructor (grace: int)
      ensures View() == Shared(grace, map[], map[], 0, {}, 0, 0, 0, 0)
    {
      this.grace := grace;
      entries, inflight, made, closed := map[], map[], 0, {};
      hits, misses, stale, coalesced := 0, 0, 0, 0;
    }

    ghost function View(): Shared
      reads this
    {
      Shared(grace, entries, inflight, made, closed, hits, misses, stale, coalesced)
    }

    method LookUp(key: Key, now: int) returns (r: Looked)
      modifies this
      ensures (r, View()) == Lookup(old(View()), key, now)
      ensures key in entries && now - entries[key].storedAt <= entries[key].ttl + grace ==> r.entry == Some(entries[key])
      ensures key !in entries || now - entries[key].storedAt > entries[key].ttl + grace ==> r.entry.None? && !r.isFresh
      ensures grace >= 0 ==> (r.isFresh <==> key in entries && now - entries[key].storedAt <= entries[key].ttl)
      ensures entries == old(entries)
    {
      var usable := key in entries && Age(entries[key], now) <= entries[key].ttl + grace;
      var entry := None;
      if usable && Age(entries[key], now) <= entries[key].ttl {
        hits := hits + 1;
        return Looked(Some(entries[key]), true, false, None);
      } else if usable {
        stale := stale + 1;
        entry := Some(entries[key]);
      } else {
        misses := misses + 1;
      }
      if key in inflight {
        if !usable { coalesced := coalesced + 1; }
        return Looked(entry, false, false, Some(inflight[key]));
      }
      var ch := made;
      made := made + 1;
      inflight := inflight[key := ch];
      return Looked(entry, false, true, Some(ch));
    }

    /** Closing a closed channel panics; `requires` asks for what every reachable state gives. */
    method Done(key: Key)
      requires key in inflight ==> inflight[key] !in closed
      modifies this`inflight, this`closed
      ensures View() == Released(old(View()), key)
    {
      if key in inflight {
        var ch := inflight[key];
        inflight := inflight - {key};
        assert ch !in closed;
        closed := closed + {ch};
      }
    }

    method Get(key: Key, now: int) returns (r: Option<Entry>)
      ensures r == Got(View(), key, now)
      ensures r.Some? <==> key in entries && now - entries[key].storedAt <= entries[key].ttl + grace
      ensures r.Some? ==> r.value == entries[key]
    {
      if key !in entries || Age(entries[key], now) > entries[key].ttl + grace { return None; }
      return Some(entries[key]);
    }

    method Put(key: Key, e: Entry, now: int)
      modifies this`entries
      ensures View() == Stored(old(View()), key, e, now)
      ensures key in entries && entries[key] == e
      ensures |old(entries)| < MAX_ENTRIES ==> entries == old(entries)[key := e]
      ensures |old(entries)| <= MAX_ENTRIES ==>
        forall k :: k in old(entries) && now - old(entries)[k].storedAt <= old(entries)[k].ttl + grace && k !in entries ==>
          forall j :: j in old(entries) ==> now - old(entries)[j].storedAt <= old(entries)[j].ttl + grace
    {
      if |entries| <= MAX_ENTRIES { StoredIsBounded(View(), key, e, now); }
      if |entries| >= MAX_ENTRIES { DropExpired(now); }
      if |entries| >= MAX_ENTRIES { entries := map[]; }
      entries := entries[key := e];
    }

    method DropExpired(now: int)
      modifies this`entries
      ensures entries == Alive(old(View()), now)
    {
      var todo := entries.Keys;
      while todo != {}
        invariant todo <= entries.Keys <= old(entries).Keys
        invariant forall k :: k in entries ==> entries[k] == old(entries)[k]
        invariant forall k :: k in old(entries) ==>
          (k in entries <==> k in todo || Servable(View(), old(entries)[k], now))
        decreases |todo|
      {
        var k :| k in todo;
        if Age(entries[k], now) > entries[k].ttl + grace { entries := entries - {k}; }
        todo := todo - {k};
      }
    }
  }
}
