/**
 The bounded, expiring cache in front of the GitHub CLI
 (crates/sylvops-daemon/src/github.rs:34-35 and 73-108). Times are milliseconds on a monotonic clock.
 */
module BrowseCache {
  import opened Wrappers

  const LIFETIME: nat := 60_000
  const MAX_ENTRIES: nat := 64

  /** A list page and an item detail never share a key. */
  datatype CacheKey = ListKey(query: nat) | ViewKey(item: nat)

  datatype CachedValue = ListPage(page: nat) | ItemDetail(detail: nat)

  datatype CacheEntry = CacheEntry(inserted: int, value: CachedValue)

  datatype Stored = Stored(key: CacheKey, value: CachedValue, at: int)

  predicate Fresh(at: int, now: int) {
    now - at <= LIFETIME
  }

  function Unexpired(entries: map<CacheKey, CacheEntry>, now: int): map<CacheKey, CacheEntry> {
    map k | k in entries && Fresh(entries[k].inserted, now) :: entries[k]
  }

  predicate Oldest(entries: map<CacheKey, CacheEntry>, k: CacheKey) {
    k in entries && forall other | other in entries :: entries[k].inserted <= entries[other].inserted
  }

  /** Insertion drops what has expired, then one oldest entry if a new key finds the cache full. */
  ghost predicate Inserts(before: map<CacheKey, CacheEntry>, key: CacheKey, value: CachedValue, now: int,
      after: map<CacheKey, CacheEntry>)
  {
    var kept := Unexpired(before, now);
    if |kept| >= MAX_ENTRIES && key !in kept
    then exists victim :: Oldest(kept, victim) && after == (kept - {victim})[key := CacheEntry(now, value)]
    else after == kept[key := CacheEntry(now, value)]
  }

  // ----- the ideal: everything ever stored -------------------------------------------------------

  /** The last store under a key. */
  function LastStore(log: seq<Stored>, key: CacheKey): Option<Stored> {
    if log == [] then None
    else if log[|log| - 1].key == key then Some(log[|log| - 1])
    else LastStore(log[..|log| - 1], key)
  }

  /** Every key ever stored once, with its last store, most recently stored first. */
  function Recent(log: seq<Stored>): seq<Stored> {
    if log == [] then []
    else [log[|log| - 1]] + Drop(Recent(log[..|log| - 1]), log[|log| - 1].key)
  }

  function Drop(s: seq<Stored>, key: CacheKey): seq<Stored> {
    if s == [] then []
    else (if s[0].key == key then [] else [s[0]]) + Drop(s[1..], key)
  }

  /** Every entry is the last value stored under its key, and there are never more than 64. */
  ghost predicate Sound(entries: map<CacheKey, CacheEntry>, log: seq<Stored>) {
    && |entries| <= 64
    && forall k | k in entries :: LastStore(log, k) == Some(Stored(k, entries[k].value, entries[k].inserted))
  }

  ghost predicate Increasing(log: seq<Stored>) {
    forall i, j | 0 <= i < j < |log| :: log[i].at < log[j].at
  }

  ghost predicate Descending(s: seq<Stored>) {
    forall i, j | 0 <= i < j < |s| :: s[i].at > s[j].at && s[i].key != s[j].key
  }

  predicate Lists(s: seq<Stored>, n: nat, key: CacheKey) {
    exists i | 0 <= i < n && i < |s| :: s[i].key == key
  }

  /** The map holds exactly the first `n` listed stores. */
  ghost predicate Agrees(entries: map<CacheKey, CacheEntry>, s: seq<Stored>, n: nat) {
    && n <= |s|
    && (forall i | 0 <= i < n :: s[i].key in entries && entries[s[i].key] == CacheEntry(s[i].at, s[i].value))
    && (forall k {:trigger Lists(s, n, k)} | k in entries :: Lists(s, n, k))
  }

  /** The first `n` stores are the unexpired ones among the 64 most recent. */
  ghost predicate WindowSize(s: seq<Stored>, now: int, n: nat) {
    && n <= |s| && n <= MAX_ENTRIES
    && (forall i | 0 <= i < n :: Fresh(s[i].at, now))
    && (forall i | n <= i < |s| && i < MAX_ENTRIES :: !Fresh(s[i].at, now))
  }

  /** The cache holds exactly the unexpired ones among the 64 most recently stored keys. */
  ghost predicate HoldsWindow(entries: map<CacheKey, CacheEntry>, log: seq<Stored>, now: int) {
    exists n: nat :: WindowSize(Recent(log), now, n) && Agrees(entries, Recent(log), n)
  }

  // ----- soundness, with any clock ----------------------------------------------------------------

  lemma ExpiryKeepsSound(entries: map<CacheKey, CacheEntry>, log: seq<Stored>, now: int)
    requires Sound(entries, log)
    ensures Sound(Unexpired(entries, now), log)
  {
    SubmapSize(Unexpired(entries, now), entries);
  }

  lemma {:induction false} SubmapSize(a: map, b: map)
    requires a.Keys <= b.Keys
    ensures |a| <= |b|
  {
    if a != map[] {
      var k :| k in a;
      assert (a - {k}).Keys == a.Keys - {k} && (b - {k}).Keys == b.Keys - {k};
      SubmapSize(a - {k}, b - {k});
    }
  }

  lemma PutKeepsSound(entries: map<CacheKey, CacheEntry>, log: seq<Stored>, key: CacheKey, value: CachedValue, now: int)
    requires Sound(entries, log) && (key in entries || |entries| < MAX_ENTRIES)
    ensures Sound(entries[key := CacheEntry(now, value)], log + [Stored(key, value, now)])
  {
    var longer := log + [Stored(key, value, now)];
    assert longer[..|longer| - 1] == log;
    assert entries[key := CacheEntry(now, value)].Keys == entries.Keys + {key};
    if key in entries {
      assert entries.Keys + {key} == entries.Keys;
    }
  }

  lemma EvictionKeepsSound(entries: map<CacheKey, CacheEntry>, log: seq<Stored>, victim: CacheKey)
    requires Sound(entries, log) && victim in entries
    ensures Sound(entries - {victim}, log) && |entries - {victim}| == |entries| - 1
  {
    assert (entries - {victim}).Keys == entries.Keys - {victim};
  }

  lemma {:induction false} InsertKeepsSound(before: map<CacheKey, CacheEntry>, log: seq<Stored>, key: CacheKey,
      value: CachedValue, now: int, after: map<CacheKey, CacheEntry>)
    requires Sound(before, log) && Inserts(before, key, value, now, after)
    ensures Sound(after, log + [Stored(key, value, now)])
  {
    ExpiryKeepsSound(before, log, now);
    var kept := Unexpired(before, now);
    if |kept| >= MAX_ENTRIES && key !in kept {
      var victim :| Oldest(kept, victim) && after == (kept - {victim})[key := CacheEntry(now, value)];
      EvictionKeepsSound(kept, log, victim);
      PutKeepsSound(kept - {victim}, log, key, value, now);
    } else {
      PutKeepsSound(kept, log, key, value, now);
    }
  }

  // ----- exact contents, with distinct insertion times -----------------------------------------------

  lemma {:induction false} DropContents(s: seq<Stored>, key: CacheKey, e: Stored)
    ensures e in Drop(s, key) <==> e in s && e.key != key
  {
    if s != [] {
      DropContents(s[1..], key, e);
      assert e in s <==> e == s[0] || e in s[1..];
    }
  }

  lemma {:induction false} DropIsDescending(s: seq<Stored>, key: CacheKey)
    requires Descending(s)
    ensures Descending(Drop(s, key))
  {
    if s != [] {
      DropIsDescending(s[1..], key);
      var rest := Drop(s[1..], key);
      forall j | 0 <= j < |rest|
        ensures s[0].at > rest[j].at && s[0].key != rest[j].key
      {
        DropContents(s[1..], key, rest[j]);
        assert rest[j] in s[1..];
      }
    }
  }

  lemma DropKeepsOrder(s: seq<Stored>, key: CacheKey)
    requires Descending(s)
    ensures Descending(Drop(s, key))
    ensures forall e :: e in Drop(s, key) <==> e in s && e.key != key
  {
    DropIsDescending(s, key);
    forall e
      ensures e in Drop(s, key) <==> e in s && e.key != key
    {
      DropContents(s, key, e);
    }
  }

  /** The list with the store at `j`, if there is one, taken out and a new store put in front. */
  function ToFront(s: seq<Stored>, j: nat, store: Stored): (r: seq<Stored>)
    requires j <= |s|
    ensures |r| == if j < |s| then |s| else |s| + 1
    ensures r[0] == store
    ensures forall i | 0 < i <= j :: r[i] == s[i - 1]
    ensures forall i | j < i < |r| :: r[i] == s[i]
  {
    [store] + (s[..j] + if j < |s| then s[j + 1..] else [])
  }

  lemma {:induction false} DropAbsent(s: seq<Stored>, key: CacheKey)
    requires forall i | 0 <= i < |s| :: s[i].key != key
    ensures Drop(s, key) == s
  {
    if s != [] {
      DropAbsent(s[1..], key);
    }
  }

  lemma {:induction false} DropAt(s: seq<Stored>, key: CacheKey, j: nat)
    requires Descending(s) && j <= |s|
    requires j < |s| ==> s[j].key == key
    requires j == |s| ==> forall i | 0 <= i < |s| :: s[i].key != key
    ensures Drop(s, key) == s[..j] + if j < |s| then s[j + 1..] else []
  {
    if j == |s| {
      DropAbsent(s, key);
    } else if j == 0 {
      DropAbsent(s[1..], key);
    } else {
      var tail := s[1..];
      DropAt(tail, key, j - 1);
      assert Drop(s, key) == [s[0]] + (tail[..j - 1] + tail[j..]);
      assert tail[j..] == s[j + 1..] && s[..j] == [s[0]] + tail[..j - 1];
    }
  }

  lemma {:induction false} RecentIsDescending(log: seq<Stored>)
    requires Increasing(log)
    ensures Descending(Recent(log))
    ensures forall e | e in Recent(log) :: e in log
  {
    if log != [] {
      var before := log[..|log| - 1];
      RecentIsDescending(before);
      var last := log[|log| - 1];
      DropKeepsOrder(Recent(before), last.key);
      forall e | e in Drop(Recent(before), last.key)
        ensures e.at < last.at && e in log
      {
        assert e in before;
      }
    }
  }

  lemma {:induction false} AgreesSize(entries: map<CacheKey, CacheEntry>, s: seq<Stored>, n: nat)
    requires Agrees(entries, s, n) && Descending(s)
    ensures |entries| == n
  {
    if n == 0 {
      forall k
        ensures k !in entries
      {
        assert k in entries ==> Lists(s, 0, k);
      }
      assert entries == map[];
    } else {
      var rest := entries - {s[n - 1].key};
      forall k | k in rest
        ensures Lists(s, n - 1, k)
      {
        assert Lists(s, n, k);
      }
      AgreesSize(rest, s, n - 1);
      assert rest.Keys == entries.Keys - {s[n - 1].key};
    }
  }

  /** As time passes, expiry keeps exactly the shorter window. */
  lemma {:induction false} ExpiryShortensWindow(entries: map<CacheKey, CacheEntry>, s: seq<Stored>, earlier: int,
      now: int, m: nat)
    returns (n: nat)
    requires Descending(s) && earlier <= now && WindowSize(s, earlier, m) && Agrees(entries, s, m)
    ensures WindowSize(s, now, n) && Agrees(Unexpired(entries, now), s, n)
  {
    n := 0;
    while n < m && Fresh(s[n].at, now)
      invariant n <= m
      invariant forall i | 0 <= i < n :: Fresh(s[i].at, now)
    {
      n := n + 1;
    }
    forall i | n <= i < |s| && i < MAX_ENTRIES
      ensures !Fresh(s[i].at, now)
    {
      assert i >= m ==> !Fresh(s[i].at, earlier);
      assert n < m && i > n ==> s[n].at > s[i].at;
    }
    forall k | k in Unexpired(entries, now)
      ensures Lists(s, n, k)
    {
      assert Lists(s, m, k);
      var i :| 0 <= i < m && s[i].key == k;
      assert Fresh(s[i].at, now);
    }
  }

  lemma ReplacedSize(s: seq<Stored>, n: nat, j: nat, store: Stored)
    requires WindowSize(s, store.at, n) && j < n
    ensures WindowSize(ToFront(s, j, store), store.at, n)
  {
    var moved := ToFront(s, j, store);
    forall i | 0 < i < |moved|
      ensures moved[i] == s[if i <= j then i - 1 else i]
    {
    }
  }

  /** Storing a cached key again moves it to the front. */
  lemma ReplacedWindow(kept: map<CacheKey, CacheEntry>, s: seq<Stored>, n: nat, j: nat, store: Stored)
    requires Descending(s) && Agrees(kept, s, n)
    requires j < n && s[j].key == store.key
    ensures Agrees(kept[store.key := CacheEntry(store.at, store.value)], ToFront(s, j, store), n)
  {
    var moved := ToFront(s, j, store);
    forall i | 0 < i < n
      ensures moved[i].key in kept && moved[i].key != store.key
          && kept[moved[i].key] == CacheEntry(moved[i].at, moved[i].value)
    {
      assert moved[i] == s[if i <= j then i - 1 else i];
    }
    forall k | k in kept
      ensures Lists(moved, n, k)
    {
      assert Lists(s, n, k);
      var i :| 0 <= i < n && s[i].key == k;
      var at := if i < j then i + 1 else if i == j then 0 else i;
      assert 0 <= at < n && moved[at].key == k;
    }
  }

  lemma GrownWindowSize(s: seq<Stored>, n: nat, j: nat, store: Stored)
    requires WindowSize(s, store.at, n) && n <= j <= |s| && n < MAX_ENTRIES
    ensures WindowSize(ToFront(s, j, store), store.at, n + 1)
  {
    var grown := ToFront(s, j, store);
    forall i | n + 1 <= i < |grown| && i < MAX_ENTRIES
      ensures !Fresh(grown[i].at, store.at)
    {
      assert grown[i] == s[if i <= j then i - 1 else i];
    }
  }

  /** A new key found room: nothing leaves. */
  lemma GrownWindow(kept: map<CacheKey, CacheEntry>, s: seq<Stored>, n: nat, j: nat, store: Stored)
    requires Descending(s) && WindowSize(s, store.at, n) && Agrees(kept, s, n)
    requires n <= j <= |s| && n < MAX_ENTRIES
    requires forall i | 0 <= i < n :: s[i].key != store.key
    ensures WindowSize(ToFront(s, j, store), store.at, n + 1)
    ensures Agrees(kept[store.key := CacheEntry(store.at, store.value)], ToFront(s, j, store), n + 1)
  {
    GrownWindowSize(s, n, j, store);
    var grown := ToFront(s, j, store);
    forall i | 0 < i <= n
      ensures grown[i].key in kept && grown[i].key != store.key
          && kept[grown[i].key] == CacheEntry(grown[i].at, grown[i].value)
    {
      assert grown[i] == s[i - 1];
    }
    forall k | k in kept
      ensures Lists(grown, n + 1, k)
    {
      assert Lists(s, n, k);
      var i :| 0 <= i < n && s[i].key == k;
      assert grown[i + 1].key == k;
    }
    assert grown[0].key == store.key;
  }

  /** A new key found the window full: exactly the least recent of the 64 leaves. */
  lemma SlidWindow(kept: map<CacheKey, CacheEntry>, s: seq<Stored>, n: nat, j: nat, store: Stored)
    requires Descending(s) && WindowSize(s, store.at, n) && Agrees(kept, s, n)
    requires n <= j <= |s| && n == MAX_ENTRIES
    requires forall i | 0 <= i < n :: s[i].key != store.key
    ensures WindowSize(ToFront(s, j, store), store.at, n)
    ensures Agrees((kept - {s[n - 1].key})[store.key := CacheEntry(store.at, store.value)], ToFront(s, j, store), n)
  {
    var slid := ToFront(s, j, store);
    forall i | 0 < i < n
      ensures slid[i] == s[i - 1] && slid[i].key != store.key && slid[i].key != s[n - 1].key
    {
    }
    forall k | k in kept && k != s[n - 1].key
      ensures Lists(slid, n, k)
    {
      assert Lists(s, n, k);
      var i :| 0 <= i < n && s[i].key == k;
      assert slid[i + 1].key == k;
    }
    assert slid[0].key == store.key;
  }

  lemma OldestIsLeastRecent(kept: map<CacheKey, CacheEntry>, s: seq<Stored>, n: nat, victim: CacheKey)
    requires Descending(s) && Agrees(kept, s, n) && n > 0 && Oldest(kept, victim)
    ensures victim == s[n - 1].key
  {
    assert Lists(s, n, victim);
    var i :| 0 <= i < n && s[i].key == victim;
    assert s[n - 1].key in kept;
  }

  lemma Position(s: seq<Stored>, key: CacheKey) returns (j: nat)
    ensures j <= |s| && (j < |s| ==> s[j].key == key)
    ensures forall i | 0 <= i < j :: s[i].key != key
  {
    j := 0;
    while j < |s| && s[j].key != key
      invariant j <= |s| && forall i | 0 <= i < j :: s[i].key != key
    {
      j := j + 1;
    }
  }

  /** One insertion, on the recency list. */
  lemma InsertShiftsWindow(before: map<CacheKey, CacheEntry>, s: seq<Stored>, n: nat, store: Stored,
      after: map<CacheKey, CacheEntry>)
    returns (m: nat)
    requires Descending(s) && WindowSize(s, store.at, n) && Agrees(Unexpired(before, store.at), s, n)
    requires Inserts(before, store.key, store.value, store.at, after)
    ensures WindowSize([store] + Drop(s, store.key), store.at, m) && Agrees(after, [store] + Drop(s, store.key), m)
  {
    var kept := Unexpired(before, store.at);
    AgreesSize(kept, s, n);
    var j := Position(s, store.key);
    DropAt(s, store.key, j);
    assert [store] + Drop(s, store.key) == ToFront(s, j, store);
    if store.key in kept {
      assert Lists(s, n, store.key);
      m := n;
      ReplacedSize(s, n, j, store);
      ReplacedWindow(kept, s, n, j, store);
    } else if n < MAX_ENTRIES {
      m := n + 1;
      GrownWindow(kept, s, n, j, store);
    } else {
      m := n;
      var victim :| Oldest(kept, victim) && after == (kept - {victim})[store.key := CacheEntry(store.at, store.value)];
      OldestIsLeastRecent(kept, s, n, victim);
      SlidWindow(kept, s, n, j, store);
    }
  }

  lemma {:induction false} ExpiryKeepsWindow(entries: map<CacheKey, CacheEntry>, log: seq<Stored>, earlier: int,
      now: int)
    requires Increasing(log) && HoldsWindow(entries, log, earlier) && earlier <= now
    ensures HoldsWindow(Unexpired(entries, now), log, now)
  {
    RecentIsDescending(log);
    var m: nat :| WindowSize(Recent(log), earlier, m) && Agrees(entries, Recent(log), m);
    var n := ExpiryShortensWindow(entries, Recent(log), earlier, now, m);
  }

  lemma {:induction false} InsertKeepsWindow(before: map<CacheKey, CacheEntry>, log: seq<Stored>, earlier: int,
      store: Stored, after: map<CacheKey, CacheEntry>)
    requires Increasing(log) && earlier <= store.at
    requires HoldsWindow(before, log, earlier) && Inserts(before, store.key, store.value, store.at, after)
    ensures HoldsWindow(after, log + [store], store.at)
  {
    assert (log + [store])[..|log + [store]| - 1] == log;
    assert Recent(log + [store]) == [store] + Drop(Recent(log), store.key);
    RecentIsDescending(log);
    ExpiryKeepsWindow(before, log, earlier, store.at);
    var n: nat :| WindowSize(Recent(log), store.at, n) && Agrees(Unexpired(before, store.at), Recent(log), n);
    var m := InsertShiftsWindow(before, Recent(log), n, store, after);
  }

  predicate RecentAndFresh(s: seq<Stored>, key: CacheKey, now: int) {
    exists i | 0 <= i < |s| && i < 64 :: s[i].key == key && now - s[i].at <= 60 * 1000
  }

  /** With increasing insertion times, a key is cached exactly when it is among the 64 most recent and unexpired. */
  lemma {:induction false} CachedExactlyWhenRecentAndFresh(entries: map<CacheKey, CacheEntry>, log: seq<Stored>,
      now: int, key: CacheKey)
    requires CacheInv(entries, log, now) && Increasing(log)
    ensures key in entries <==> RecentAndFresh(Recent(log), key, now)
  {
    var n: nat :| WindowSize(Recent(log), now, n) && Agrees(entries, Recent(log), n);
    if key in entries {
      assert Lists(Recent(log), n, key);
    }
  }

  ghost predicate CacheInv(entries: map<CacheKey, CacheEntry>, log: seq<Stored>, clock: int) {
    && Sound(entries, log)
    && (forall s | s in log :: s.at <= clock)
    && (Increasing(log) ==> HoldsWindow(entries, log, clock))
  }

  lemma ExpiryKeepsInv(entries: map<CacheKey, CacheEntry>, log: seq<Stored>, clock: int, now: int)
    requires CacheInv(entries, log, clock) && clock <= now
    ensures CacheInv(Unexpired(entries, now), log, now)
  {
    ExpiryKeepsSound(entries, log, now);
    if Increasing(log) {
      ExpiryKeepsWindow(entries, log, clock, now);
    }
  }

  lemma InsertKeepsInv(before: map<CacheKey, CacheEntry>, log: seq<Stored>, clock: int, store: Stored,
      after: map<CacheKey, CacheEntry>)
    requires CacheInv(before, log, clock) && clock <= store.at
    requires Inserts(before, store.key, store.value, store.at, after)
    ensures CacheInv(after, log + [store], store.at)
  {
    InsertKeepsSound(before, log, store.key, store.value, store.at, after);
    if Increasing(log + [store]) {
      forall i, j | 0 <= i < j < |log|
        ensures log[i].at < log[j].at
      {
        assert (log + [store])[i].at < (log + [store])[j].at;
      }
      InsertKeepsWindow(before, log, clock, store, after);
    }
  }

  // ----- the cache object -------------------------------------------------------------------------

  class BrowseCache {
    var entries: map<CacheKey, CacheEntry>
    ghost var log: seq<Stored>
    ghost var clock: int

    /** `log` is everything ever stored, `clock` the time of the last operation. */
    ghost predicate Valid()
      reads this
    {
      CacheInv(entries, log, clock)
    }

    constructor (ghost now: int)
      ensures Valid() && log == [] && clock == now
    {
      entries, log, clock := map[], [], now;
      new;
      assert WindowSize(Recent(log), clock, 0) && Agrees(entries, Recent(log), 0);
    }

    /** A hit is the last value stored under the key and no older than 60 seconds. */
    method Get(key: CacheKey, now: int) returns (hit: Option<CachedValue>)
      requires Valid() && clock <= now
      modifies this
      ensures Valid() && log == old(log) && clock == now
      ensures hit.Some? ==> LastStore(log, key).Some? && LastStore(log, key).value.value == hit.value
                            && now - LastStore(log, key).value.at <= 60 * 1000
      ensures hit.Some? <==> key in old(entries) && now - old(entries)[key].inserted <= 60 * 1000
      ensures entries == Unexpired(old(entries), now)
    {
      ExpiryKeepsInv(entries, log, clock, now);
      entries := Unexpired(entries, now);
      clock := now;
      return if key in entries then Some(entries[key].value) else None;
    }

    method Insert(key: CacheKey, value: CachedValue, now: int)
      requires Valid() && clock <= now
      modifies this
      ensures Valid() && log == old(log) + [Stored(key, value, now)] && clock == now
      ensures Inserts(old(entries), key, value, now, entries)
    {
      ghost var before := entries;
      entries := Unexpired(entries, now);
      if |entries| >= MAX_ENTRIES && key !in entries {
        OldestExists(entries);
        var oldest :| oldest in entries && Oldest(entries, oldest);
        entries := entries - {oldest};
      }
      entries := entries[key := CacheEntry(now, value)];
      InsertKeepsInv(before, log, clock, Stored(key, value, now), entries);
      log := log + [Stored(key, value, now)];
      clock := now;
    }
  }

  lemma {:induction false} OldestExists(entries: map<CacheKey, CacheEntry>)
    requires entries != map[]
    ensures exists k :: Oldest(entries, k)
  {
    var k :| k in entries;
    var rest := entries - {k};
    if rest != map[] {
      OldestExists(rest);
      var o :| Oldest(rest, o);
      var oldest := if entries[k].inserted <= entries[o].inserted then k else o;
      forall other | other in entries
        ensures entries[oldest].inserted <= entries[other].inserted
      {
        assert other == k || other in rest;
      }
      assert Oldest(entries, oldest);
    } else {
      forall other | other in entries
        ensures other == k
      {
        assert other !in rest;
      }
      assert Oldest(entries, k);
    }
  }
}
