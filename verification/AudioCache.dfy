/**
 * The audio cache of the page: results of speech synthesis kept in the
 * browser's local storage under "tts-audio-cache", keyed by a fingerprint
 * of the request, bounded at 50 entries and expiring after seven days.
 *
 * The stored JSON object is modelled as its keys in `Object.keys` order
 * (insertion order: a key always contains "-", so it is never an array
 * index) together with the map from key to entry. A store whose JSON
 * cannot be parsed is `None`; a missing store reads as the empty object.
 */
module AudioCache {
  import opened Wrappers
  import opened SeqFacts
  import opened JsText

  const MaxCacheSize: nat := 50

  /** Seven days in milliseconds. */
  const MaxAge: int := 7 * 24 * 60 * 60 * 1000

  /** How much of the text the key keeps. */
  const KeyTextLength: nat := 100

  datatype CacheItem = CacheItem(text: JsString, voice: JsString, speed: Speed, audioUrl: JsString, timestamp: int)

  datatype CacheData = CacheData(keys: seq<JsString>, items: map<JsString, CacheItem>)

  /** What any parsed JSON object satisfies: each key once, and exactly the keys of the entries. */
  ghost predicate WellFormed(c: CacheData) {
    Distinct(c.keys) && forall k :: k in c.items <==> k in c.keys
  }

  function EmptyCache(): (r: CacheData)
    ensures WellFormed(r) && |r.keys| == 0
  {
    CacheData([], map[])
  }

  // ------------------------------------------------------------------ keys

  /** `${text.substring(0, 100)}-${voice}-${speed}`. */
  function CacheKey(text: JsString, voice: JsString, speed: Speed): (r: JsString)
    ensures Prefix(text, KeyTextLength) + [DashChar] <= r
    ensures |r| == |Prefix(text, KeyTextLength)| + |voice| + |SpeedText(speed)| + 2
  {
    Prefix(text, KeyTextLength) + [DashChar] + voice + [DashChar] + SpeedText(speed)
  }

  /**
   * For one voice and one speed, two texts share a key exactly when they
   * agree on their first 100 code units: whatever follows is not looked at.
   */
  lemma CacheKeySharing(a: JsString, b: JsString, voice: JsString, speed: Speed)
    ensures CacheKey(a, voice, speed) == CacheKey(b, voice, speed) <==> Prefix(a, KeyTextLength) == Prefix(b, KeyTextLength)
  {
    var tail := [DashChar] + voice + [DashChar] + SpeedText(speed);
    ConcatAssoc(Prefix(a, KeyTextLength), [DashChar], voice);
    ConcatAssoc(Prefix(b, KeyTextLength), [DashChar], voice);
    assert CacheKey(a, voice, speed) == Prefix(a, KeyTextLength) + tail;
    assert CacheKey(b, voice, speed) == Prefix(b, KeyTextLength) + tail;
    if CacheKey(a, voice, speed) == CacheKey(b, voice, speed) {
      CancelSuffix(Prefix(a, KeyTextLength), Prefix(b, KeyTextLength), tail);
    }
  }

  lemma CancelSuffix(x: JsString, y: JsString, t: JsString)
    requires x + t == y + t
    ensures x == y
  {
    assert |x| == |y|;
    assert x == (x + t)[..|x|];
  }

  // --------------------------------------------------------------- eviction

  /**
   * The position, in key order, of the first entry with the smallest
   * timestamp: the head of the keys after a stable sort by timestamp.
   */
  function OldestIndex(keys: seq<JsString>, items: map<JsString, CacheItem>): (i: nat)
    requires |keys| >= 1 && forall k :: k in keys ==> k in items
    ensures i < |keys|
    ensures forall j :: 0 <= j < |keys| ==> items[keys[i]].timestamp <= items[keys[j]].timestamp
    ensures forall j :: 0 <= j < i ==> items[keys[j]].timestamp > items[keys[i]].timestamp
    decreases |keys|
  {
    var n := |keys|;
    if n == 1 then 0
    else
      var i := OldestIndex(keys[..n - 1], items);
      assert keys[..n - 1][i] == keys[i];
      if items[keys[n - 1]].timestamp < items[keys[i]].timestamp then n - 1 else i
  }

  /** The key `saveToCache` evicts from a full cache. */
  function Victim(c: CacheData): (v: JsString)
    requires WellFormed(c) && |c.keys| >= 1
    ensures v in c.items
    ensures forall k :: k in c.items ==> c.items[v].timestamp <= c.items[k].timestamp
  {
    var i := OldestIndex(c.keys, c.items);
    assert forall k :: k in c.items ==> exists j :: 0 <= j < |c.keys| && c.keys[j] == k;
    c.keys[i]
  }

  /** `delete cache[k]`. */
  function Deleted(c: CacheData, k: JsString): (r: CacheData)
    ensures forall x :: x in r.keys <==> x in c.keys && x != k
    ensures forall x :: x in r.items <==> x in c.items && x != k
    ensures forall x :: x in r.items ==> r.items[x] == c.items[x]
  {
    CacheData(Without(c.keys, k), c.items - {k})
  }

  /** `cache[k] = item`: an existing key keeps its place, a new one goes last. */
  function Put(c: CacheData, k: JsString, item: CacheItem): (r: CacheData)
    ensures k in r.items && r.items[k] == item
    ensures forall x :: x in r.items <==> x in c.items || x == k
    ensures forall x :: x in c.items && x != k ==> r.items[x] == c.items[x]
    ensures c.keys <= r.keys
  {
    CacheData(if k in c.items then c.keys else c.keys + [k], c.items[k := item])
  }

  /** The cache after `saveToCache` stores `item` under `k`. */
  function Saved(c: CacheData, k: JsString, item: CacheItem): (r: CacheData)
    requires WellFormed(c)
    ensures k in r.items && r.items[k] == item
    ensures forall x :: x in r.items ==> x == k || (x in c.items && r.items[x] == c.items[x])
  {
    var room := if |c.keys| >= MaxCacheSize then Deleted(c, Victim(c)) else c;
    Put(room, k, item)
  }

  lemma DeletedWellFormed(c: CacheData, k: JsString)
    requires WellFormed(c)
    ensures WellFormed(Deleted(c, k))
    ensures |Deleted(c, k).keys| == if k in c.items then |c.keys| - 1 else |c.keys|
  {
    WithoutDistinct(c.keys, k);
  }

  lemma PutWellFormed(c: CacheData, k: JsString, item: CacheItem)
    requires WellFormed(c)
    ensures WellFormed(Put(c, k, item))
    ensures |Put(c, k, item).keys| == if k in c.items then |c.keys| else |c.keys| + 1
  {
    if k !in c.items {
      DistinctSnoc(c.keys, k);
    }
  }

  /**
   * `saveToCache` keeps the cache well formed, and a cache of at most 50
   * entries stays at most 50: a full one loses an entry before the new one
   * goes in.
   */
  lemma SavedInvariant(c: CacheData, k: JsString, item: CacheItem)
    requires WellFormed(c)
    ensures WellFormed(Saved(c, k, item))
    ensures |c.keys| <= MaxCacheSize ==> |Saved(c, k, item).keys| <= MaxCacheSize
    ensures var full := |c.keys| >= MaxCacheSize;
      |Saved(c, k, item).keys| == |c.keys| - (if full then 1 else 0)
        + (if k in c.items && !(full && k == Victim(c)) then 0 else 1)
  {
    var room := if |c.keys| >= MaxCacheSize then Deleted(c, Victim(c)) else c;
    if |c.keys| >= MaxCacheSize {
      DeletedWellFormed(c, Victim(c));
    }
    PutWellFormed(room, k, item);
  }

  /**
   * After `saveToCache` the key holds the new entry; when the cache was
   * full, exactly one entry with the smallest timestamp is gone (even when
   * the key was already present), and every other entry is as it was.
   */
  lemma SavedContents(c: CacheData, k: JsString, item: CacheItem)
    requires WellFormed(c)
    ensures var r := Saved(c, k, item);
      && k in r.items && r.items[k] == item
      && (|c.keys| < MaxCacheSize ==> r.items.Keys == c.items.Keys + {k})
      && (|c.keys| >= MaxCacheSize ==>
            var v := Victim(c);
            && (forall x :: x in c.items ==> c.items[v].timestamp <= c.items[x].timestamp)
            && r.items.Keys == (c.items.Keys - {v}) + {k})
      && forall x :: x in c.items && x != k && (|c.keys| >= MaxCacheSize ==> x != Victim(c)) ==>
            x in r.items && r.items[x] == c.items[x]
  {
    var r := Saved(c, k, item);
    if |c.keys| >= MaxCacheSize {
      var room := Deleted(c, Victim(c));
      assert room.items == c.items - {Victim(c)};
      assert r.items == room.items[k := item];
    } else {
      assert r.items == c.items[k := item];
    }
  }

  // ------------------------------------------------------------------ reads

  /** What `getFromCache` answers: the URL of an entry younger than seven days, otherwise nothing. */
  function Lookup(c: CacheData, k: JsString, now: int): (r: Option<JsString>)
    ensures r.Some? ==> k in c.items && r.value == c.items[k].audioUrl
    ensures k in c.items && now < c.items[k].timestamp + MaxAge ==> r.Some?
  {
    if k in c.items && now - c.items[k].timestamp < MaxAge then Some(c.items[k].audioUrl) else None
  }

  /** The cache after `getFromCache`: an entry found expired is deleted, nothing else changes. */
  function AfterLookup(c: CacheData, k: JsString, now: int): (r: CacheData)
    requires WellFormed(c)
    ensures WellFormed(r)
  {
    DeletedWellFormed(c, k);
    if k in c.items && now - c.items[k].timestamp >= MaxAge then Deleted(c, k) else c
  }

  // --------------------------------------------- the store, parsed or not

  /** What a read answers for a store that may not parse. */
  function StoreLookup(s: Option<CacheData>, k: JsString, now: int): Option<JsString>
    requires s.Some? ==> WellFormed(s.value)
  {
    if s.Some? then Lookup(s.value, k, now) else None
  }

  /** The store after a read. */
  function StoreAfterLookup(s: Option<CacheData>, k: JsString, now: int): (r: Option<CacheData>)
    requires s.Some? ==> WellFormed(s.value)
    ensures r.Some? ==> WellFormed(r.value)
  {
    if s.Some? then Some(AfterLookup(s.value, k, now)) else None
  }

  /** The store after a write. */
  function StoreAfterSave(s: Option<CacheData>, k: JsString, item: CacheItem): (r: Option<CacheData>)
    requires s.Some? ==> WellFormed(s.value)
    ensures r.Some? ==> WellFormed(r.value)
  {
    if s.Some? then SavedInvariant(s.value, k, item); Some(Saved(s.value, k, item)) else None
  }

  /**
   * Saving under another key leaves a read's answer as it was, unless the
   * cache was full and the read key was the one evicted to make room, in
   * which case the read now finds nothing.
   */
  lemma SaveKeepsOtherAnswers(c: CacheData, k: JsString, other: JsString, item: CacheItem, now: int)
    requires WellFormed(c) && other != k
    ensures !(|c.keys| >= MaxCacheSize && Victim(c) == k) ==> Lookup(Saved(c, other, item), k, now) == Lookup(c, k, now)
    ensures |c.keys| >= MaxCacheSize && Victim(c) == k ==> Lookup(Saved(c, other, item), k, now) == None
  {
    SavedContents(c, other, item);
  }

  /**
   * A read never changes a timestamp or any other entry: it removes the
   * looked-up entry when that entry has expired, and otherwise leaves the
   * cache as it was.
   */
  lemma AfterLookupEffect(c: CacheData, k: JsString, now: int)
    requires WellFormed(c)
    ensures WellFormed(AfterLookup(c, k, now))
    ensures var r := AfterLookup(c, k, now);
      && (Lookup(c, k, now).Some? || k !in c.items ==> r == c)
      && (k in c.items && Lookup(c, k, now).None? ==> r.items == c.items - {k})
      && forall x :: x in r.items ==> x in c.items && r.items[x] == c.items[x]
  {
    DeletedWellFormed(c, k);
  }

  /** A stored entry is found by a read less than seven days later, with the URL that was stored. */
  lemma SaveThenLookup(c: CacheData, text: JsString, voice: JsString, speed: Speed, url: JsString, saved: int, now: int)
    requires WellFormed(c)
    requires now - saved < MaxAge
    ensures var k := CacheKey(text, voice, speed);
      Lookup(Saved(c, k, CacheItem(text, voice, speed, url, saved)), k, now) == Some(url)
  {
    SavedContents(c, CacheKey(text, voice, speed), CacheItem(text, voice, speed, url, saved));
  }

  /**
   * Because the key keeps only 100 code units of the text, a read for a
   * longer text that agrees with a stored one on its first 100 code units
   * is answered with the stored text's audio.
   */
  lemma SharedKeyAnswers(c: CacheData, a: JsString, b: JsString, voice: JsString, speed: Speed, url: JsString, saved: int, now: int)
    requires WellFormed(c)
    requires Prefix(a, KeyTextLength) == Prefix(b, KeyTextLength)
    requires now - saved < MaxAge
    ensures Lookup(Saved(c, CacheKey(a, voice, speed), CacheItem(a, voice, speed, url, saved)), CacheKey(b, voice, speed), now) == Some(url)
  {
    CacheKeySharing(a, b, voice, speed);
    SaveThenLookup(c, a, voice, speed, url, saved, now);
  }

  /** Seven days or more after it was stored, an entry is not found, and the read deletes it. */
  lemma ExpiredEntryDropped(c: CacheData, k: JsString, now: int)
    requires WellFormed(c) && k in c.items
    requires now - c.items[k].timestamp >= MaxAge
    ensures Lookup(c, k, now) == None
    ensures k !in AfterLookup(c, k, now).items && k !in AfterLookup(c, k, now).keys
  {
    DeletedWellFormed(c, k);
  }

  // ------------------------------------------------------------- the store

  /**
   * The local-storage entry together with the page's `cacheSize` counter.
   * Every operation catches the parse failure of a corrupt entry.
   */
  class CacheStore {
    var stored: Option<CacheData>
    var size: nat

    ghost predicate Valid()
      reads this
    {
      stored.Some? ==> WellFormed(stored.value)
    }

    /** The entry count `updateCacheSize` reports: zero for a store that cannot be parsed. */
    function StoredCount(): (n: nat)
      reads this
      requires Valid()
      ensures stored.Some? ==> n == |stored.value.items|
      ensures stored.None? ==> n == 0
    {
      if stored.None? then 0
      else
        var c := stored.value;
        assert c.items.Keys == set x | x in c.keys;
        DistinctCard(c.keys);
        |c.keys|
    }

    constructor (initial: Option<CacheData>)
      requires initial.Some? ==> WellFormed(initial.value)
      ensures stored == initial && Valid()
      ensures size == StoredCount()
    {
      stored := initial;
      size := 0;
      new;
      size := StoredCount();
    }

    /** `saveToCache`: evict the oldest entry of a full cache, store the new one, refresh the count. */
    method SaveToCache(text: JsString, voice: JsString, speed: Speed, audioUrl: JsString, now: int)
      requires Valid()
      modifies this
      ensures Valid()
      ensures stored == StoreAfterSave(old(stored), CacheKey(text, voice, speed), CacheItem(text, voice, speed, audioUrl, now))
      ensures size == if old(stored).None? then old(size) else StoredCount()
    {
      if stored.None? {
        return;
      }
      var cache := stored.value;
      var key := CacheKey(text, voice, speed);
      var item := CacheItem(text, voice, speed, audioUrl, now);
      SavedInvariant(cache, key, item);
      if |cache.keys| >= MaxCacheSize {
        var oldestKey := cache.keys[OldestIndex(cache.keys, cache.items)];
        cache := Deleted(cache, oldestKey);
      }
      cache := Put(cache, key, item);
      stored := Some(cache);
      size := StoredCount();
    }

    /** `getFromCache`: the URL of a fresh entry, or nothing; an expired entry is deleted on the way. */
    method GetFromCache(text: JsString, voice: JsString, speed: Speed, now: int) returns (url: Option<JsString>)
      requires Valid()
      modifies this
      ensures Valid() && size == old(size)
      ensures url == StoreLookup(old(stored), CacheKey(text, voice, speed), now)
      ensures stored == StoreAfterLookup(old(stored), CacheKey(text, voice, speed), now)
    {
      url := None;
      if stored.None? {
        return;
      }
      var cache := stored.value;
      var key := CacheKey(text, voice, speed);
      if key in cache.items {
        var cached := cache.items[key];
        var age := now - cached.timestamp;
        if age < MaxAge {
          url := Some(cached.audioUrl);
        } else {
          DeletedWellFormed(cache, key);
          stored := Some(Deleted(cache, key));
        }
      }
    }

    /** `clearCache`: the entry is removed, so it reads as the empty object again. */
    method ClearCache()
      modifies this
      ensures stored == Some(EmptyCache()) && size == 0 && Valid()
    {
      stored := Some(EmptyCache());
      size := 0;
    }

    /** `updateCacheSize`. */
    method UpdateCacheSize()
      requires Valid()
      modifies this
      ensures stored == old(stored) && Valid()
      ensures size == StoredCount()
    {
      size := StoredCount();
    }
  }

  lemma {:induction false} DistinctCard(keys: seq<JsString>)
    requires Distinct(keys)
    ensures |set x | x in keys| == |keys|
    decreases |keys|
  {
    if keys != [] {
      var rest := keys[1..];
      assert Distinct(rest);
      DistinctCard(rest);
      assert keys[0] !in rest;
      assert (set x | x in keys) == (set x | x in rest) + {keys[0]};
    }
  }
}
