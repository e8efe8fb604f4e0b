/**
 * The caching audio provider: a pool of cached audio files keyed by
 * `album/disc/track`, with a size budget and least-recently-used eviction,
 * the provider wrapper that routes `get_audio` and `invalidate` through the
 * pool, the reader over a file that may still be filling, and its range
 * projection. The pool is modelled sequentially: one call at a time.
 */
module CacheProvider {
  import opened Wrappers
  import opened Text

  /** `usize::MAX` on a 64-bit target. */
  const USIZE_MAX: nat := 0xFFFF_FFFF_FFFF_FFFF

  type U8 = x: nat | x <= 255
  type NonZeroU8 = x: nat | 1 <= x <= 255 witness 1

  datatype ProviderError = ProviderError(reason: string)

  /** What a provider reports about an audio file. */
  datatype AudioInfo = AudioInfo(extension: string, size: nat, duration: nat)

  /** A byte range: skip `start` bytes, then yield at most `length` bytes when bounded. */
  datatype Range = Range(start: nat, length: Option<nat>)

  /** The whole file. */
  const FULL: Range := Range(0, None)

  /** What `get_audio` hands back besides the byte stream: the info and the range served. */
  datatype AudioResource = AudioResource(info: AudioInfo, range: Range)

  // ---------------------------------------------------------------------------
  // Size budget and keys
  // ---------------------------------------------------------------------------

  /** A requested budget of 0 means unlimited and is stored as `usize::MAX`. */
  function EffectiveMaxSize(requested: nat): (m: nat)
    ensures m > 0
    ensures requested == 0 ==> m == USIZE_MAX
    ensures requested != 0 ==> m == requested
  {
    if requested == 0 then USIZE_MAX else requested
  }

  /** `format!("{}/{:02}/{:02}", album_id, disc_id, track_id)`, the text that is hashed into the key. */
  function CacheKey(album: string, disc: U8, track: U8): string {
    album + "/" + Pad2(disc) + "/" + Pad2(track)
  }

  lemma NoSlashInDigits(s: string)
    requires AllDigits(s)
    ensures '/' !in s
  {
  }

  /** For an album id without `/`, the key splits back into its three parts. */
  lemma CacheKeyParts(album: string, disc: U8, track: U8)
    requires '/' !in album
    ensures SplitOn(CacheKey(album, disc, track), '/') == [album, Pad2(disc), Pad2(track)]
  {
    var d := Pad2(disc);
    var t := Pad2(track);
    NoSlashInDigits(d);
    NoSlashInDigits(t);
    assert CacheKey(album, disc, track) == album + ['/'] + (d + ['/'] + t);
    SplitOnCons(album, '/', d + ['/'] + t);
    SplitOnCons(d, '/', t);
  }

  /** Distinct requests get distinct keys: the key determines album, disc and track. */
  lemma CacheKeyInjective(a1: string, d1: U8, t1: U8, a2: string, d2: U8, t2: U8)
    requires '/' !in a1 && '/' !in a2
    requires CacheKey(a1, d1, t1) == CacheKey(a2, d2, t2)
    ensures a1 == a2 && d1 == d2 && t1 == t2
  {
    CacheKeyParts(a1, d1, t1);
    CacheKeyParts(a2, d2, t2);
    assert Pad2(d1) == Pad2(d2) && Pad2(t1) == Pad2(t2);
  }

  // ---------------------------------------------------------------------------
  // Range projection
  // ---------------------------------------------------------------------------

  /** What a reader over `data` yields for `range`: skip `start`, then take `length` if bounded. */
  function Project<T>(data: seq<T>, range: Range): (r: seq<T>)
    ensures |r| <= |data|
    ensures range.length.Some? ==> |r| <= range.length.value
    ensures range.start + |r| <= |data| || r == []
  {
    var rest := if range.start <= |data| then data[range.start..] else [];
    if range.length.Some? && range.length.value < |rest| then rest[..range.length.value] else rest
  }

  function Min(a: nat, b: nat): nat {
    if a < b then a else b
  }

  /** The projection is the contiguous slice starting at `start`, cut at `start + length`. */
  lemma ProjectIsSlice<T>(data: seq<T>, range: Range)
    ensures var s := Min(range.start, |data|);
            var e := if range.length.Some? then Min(s + range.length.value, |data|) else |data|;
            Project(data, range) == data[s..e]
  {
  }

  /** The full range yields everything. */
  lemma ProjectFull<T>(data: seq<T>)
    ensures Project(data, FULL) == data
  {
  }

  /** Skipping `s1` and then reading `range` is reading `range` shifted by `s1`. */
  lemma ProjectCompose<T>(data: seq<T>, s1: nat, range: Range)
    ensures Project(Project(data, Range(s1, None)), range) == Project(data, Range(s1 + range.start, range.length))
  {
    ProjectIsSlice(data, Range(s1, None));
    ProjectIsSlice(Project(data, Range(s1, None)), range);
    ProjectIsSlice(data, Range(s1 + range.start, range.length));
  }

  // ---------------------------------------------------------------------------
  // Cache items
  // ---------------------------------------------------------------------------

  /** One cached file: its size so far and whether the copy into it has finished. */
  class CacheItem {
    const path: string
    const ext: string
    const duration: nat
    var size: nat
    var cached: bool
    /** Whether the file at `path` exists; only file removal on drop touches it. */
    ghost var filePresent: bool

    constructor(path: string, info: AudioInfo, cached: bool)
      ensures this.path == path && ext == info.extension && duration == info.duration
      ensures size == info.size && this.cached == cached && filePresent
    {
      this.path := path;
      ext := info.extension;
      duration := info.duration;
      size := info.size;
      this.cached := cached;
      filePresent := true;
    }

    /** The info a reader over this item reports: the size as of now. */
    function Info(): (info: AudioInfo)
      reads this
      ensures info.size == size && info.extension == ext && info.duration == duration
    {
      AudioInfo(ext, size, duration)
    }

    method SetSize(size: nat)
      modifies this
      ensures this.size == size && cached == old(cached) && filePresent == old(filePresent)
    {
      this.size := size;
    }

    method SetCached(cached: bool)
      modifies this
      ensures this.cached == cached && size == old(size) && filePresent == old(filePresent)
    {
      this.cached := cached;
    }

    /** The end of the background copy: the size becomes the bytes copied, and the item is cached. */
    method CompleteCopy(actualSize: nat)
      modifies this
      ensures size == actualSize && cached && filePresent == old(filePresent)
    {
      if size != actualSize {
        SetSize(actualSize);
      }
      SetCached(true);
    }

    /** Dropping the item removes its file unless it is cached. */
    method Drop()
      modifies this
      ensures filePresent == (old(filePresent) && cached)
      ensures size == old(size) && cached == old(cached)
    {
      if !cached {
        filePresent := false;
      }
    }
  }

  // ---------------------------------------------------------------------------
  // Sums of sizes
  // ---------------------------------------------------------------------------

  /** The sum of `sizes[k]` over the keys, in no particular order. */
  ghost function SizeSum(keys: set<string>, sizes: map<string, nat>): nat
    requires keys <= sizes.Keys
  {
    if keys == {} then 0
    else
      var k :| k in keys;
      sizes[k] + SizeSum(keys - {k}, sizes)
  }

  /** Any key can be taken out first: the sum does not depend on the order of the keys. */
  lemma SizeSumRemove(keys: set<string>, sizes: map<string, nat>, k: string)
    requires keys <= sizes.Keys && k in keys
    ensures SizeSum(keys, sizes) == sizes[k] + SizeSum(keys - {k}, sizes)
    decreases |keys|
  {
    var j :| j in keys && SizeSum(keys, sizes) == sizes[j] + SizeSum(keys - {j}, sizes);
    if j != k {
      SizeSumRemove(keys - {j}, sizes, k);
      SizeSumRemove(keys - {k}, sizes, j);
      assert keys - {j} - {k} == keys - {k} - {j};
    }
  }

  /** A sum over a non-empty set of keys is at least the size of each key. */
  lemma SizeSumAtLeast(keys: set<string>, sizes: map<string, nat>, k: string)
    requires keys <= sizes.Keys && k in keys
    ensures SizeSum(keys, sizes) >= sizes[k]
  {
    SizeSumRemove(keys, sizes, k);
  }

  /** The current size of each item. */
  function SizesOf(items: map<string, CacheItem>): (m: map<string, nat>)
    reads items.Values
    ensures m.Keys == items.Keys
  {
    map k | k in items :: items[k].size
  }

  /** The space a set of items uses: the sum of their sizes. */
  ghost function UsedBy(items: map<string, CacheItem>): nat
    reads items.Values
  {
    SizeSum(items.Keys, SizesOf(items))
  }

  // ---------------------------------------------------------------------------
  // Recency order
  // ---------------------------------------------------------------------------

  predicate Distinct(s: seq<string>) {
    forall i, j :: 0 <= i < j < |s| ==> s[i] != s[j]
  }

  lemma DistinctSnoc(s: seq<string>, x: string)
    requires Distinct(s) && x !in s
    ensures Distinct(s + [x])
  {
  }

  /** Where `x` first occurs in `s`. */
  function PositionOf(s: seq<string>, x: string): (i: nat)
    requires x in s
    ensures i < |s| && s[i] == x && x !in s[..i]
  {
    if s[0] == x then 0 else 1 + PositionOf(s[1..], x)
  }

  /** The order with `x` taken out (LruCache::pop). */
  function Without(s: seq<string>, x: string): (r: seq<string>)
    ensures forall y :: y in r <==> y in s && y != x
    ensures |r| <= |s|
    ensures Distinct(s) ==> Distinct(r)
    ensures x !in s ==> r == s
  {
    if s == [] then []
    else
      var rest := Without(s[1..], x);
      assert Distinct(s) ==> s[0] !in s[1..];
      if s[0] == x then rest else [s[0]] + rest
  }

  /** In a recency order without repeats, taking `x` out keeps the others in their order. */
  lemma {:induction false} WithoutKeepsOrder(s: seq<string>, x: string)
    requires Distinct(s) && x in s
    ensures Without(s, x) == s[..PositionOf(s, x)] + s[PositionOf(s, x) + 1..]
  {
    DistinctTail(s);
    if s[0] == x {
      assert Without(s, x) == Without(s[1..], x) == s[1..];
      assert s[..0] + s[1..] == s[1..];
    } else {
      var j := PositionOf(s[1..], x);
      assert PositionOf(s, x) == j + 1;
      WithoutKeepsOrder(s[1..], x);
      assert Without(s, x) == [s[0]] + (s[1..][..j] + s[1..][j + 1..]);
      ConsAround(s, j);
    }
  }

  /** Dropping position j of the tail, then putting the head back, drops position j + 1. */
  lemma ConsAround<T>(s: seq<T>, j: nat)
    requires j + 1 < |s|
    ensures [s[0]] + (s[1..][..j] + s[1..][j + 1..]) == s[..j + 1] + s[j + 2..]
  {
    assert s[..j + 1] == [s[0]] + s[1..][..j];
  }

  lemma DistinctTail(s: seq<string>)
    requires Distinct(s) && s != []
    ensures Distinct(s[1..]) && s[0] !in s[1..]
  {
  }

  /** The order with `x` made the most recent (LruCache::get and put). */
  function Promote(s: seq<string>, x: string): (r: seq<string>)
    ensures Distinct(s) ==> Distinct(r)
    ensures forall y :: y in r <==> y in s || y == x
    ensures |r| >= 1 && r[|r| - 1] == x
    ensures x !in s ==> r == s + [x]
    ensures Distinct(s) && x in s ==> r == s[..PositionOf(s, x)] + s[PositionOf(s, x) + 1..] + [x]
  {
    if Distinct(s) && x in s then WithoutKeepsOrder(s, x); Without(s, x) + [x]
    else Without(s, x) + [x]
  }

  /** The recency order holds each key once, and exactly the keys of the map. */
  ghost predicate Consistent<V>(cache: map<string, V>, lastUsed: seq<string>) {
    Distinct(lastUsed) && forall k :: k in cache <==> k in lastUsed
  }

  /** Inserting a new key as the most recent, after evicting the least recent or not, stays consistent. */
  lemma ConsistentAfterAdmit<V>(cache: map<string, V>, lastUsed: seq<string>, key: string, v: V)
    requires Consistent(cache, lastUsed) && key !in lastUsed
    ensures Consistent(cache[key := v], lastUsed + [key])
    ensures lastUsed != [] ==> Consistent((cache - {lastUsed[0]})[key := v], lastUsed[1..] + [key])
  {
    if lastUsed != [] {
      var rest := lastUsed[1..] + [key];
      forall i, j | 0 <= i < j < |rest|
        ensures rest[i] != rest[j]
      {
        if j < |rest| - 1 {
          assert rest[i] == lastUsed[i + 1] && rest[j] == lastUsed[j + 1];
        }
      }
      forall k
        ensures k in (cache - {lastUsed[0]})[key := v] <==> k in rest
      {
        if k in lastUsed[1..] {
          assert k != lastUsed[0];
        }
        if k in lastUsed && k != lastUsed[0] {
          var i :| 0 <= i < |lastUsed| && lastUsed[i] == k;
          assert lastUsed[1..][i - 1] == k;
        }
      }
    }
  }

  // ---------------------------------------------------------------------------
  // The pool
  // ---------------------------------------------------------------------------

  /**
   * The pool: the items by key and the keys from least to most recently
   * used. `cache` and `lastUsed` always hold the same keys.
   */
  class CachePool {
    const root: string
    const maxSize: nat
    var cache: map<string, CacheItem>
    var lastUsed: seq<string>

    ghost predicate ItemsDistinct()
      reads this
    {
      forall k1, k2 :: k1 in cache && k2 in cache && k1 != k2 ==> cache[k1] != cache[k2]
    }

    ghost predicate Valid()
      reads this
    {
      maxSize > 0 && Consistent(cache, lastUsed) && ItemsDistinct()
    }

    constructor(root: string, maxSize: nat)
      ensures this.root == root && this.maxSize == EffectiveMaxSize(maxSize)
      ensures cache == map[] && lastUsed == []
      ensures Valid()
    {
      this.root := root;
      this.maxSize := EffectiveMaxSize(maxSize);
      cache := map[];
      lastUsed := [];
    }

    /** The space the pool uses: the sum of its items' sizes. */
    ghost function Used(): nat
      reads this, cache.Values
    {
      UsedBy(cache)
    }

    /** `has_cache`: whether the key is in the recency order. */
    method HasCache(key: string) returns (b: bool)
      ensures b <==> key in lastUsed
      ensures Valid() ==> (b <==> key in cache)
    {
      b := key in lastUsed;
    }

    /** `space_used`: the item sizes added up one item at a time. */
    method SpaceUsed() returns (total: nat)
      ensures total == Used()
      ensures cache == map[] ==> total == 0
    {
      ghost var sizes := SizesOf(cache);
      var keys := cache.Keys;
      total := 0;
      while keys != {}
        invariant keys <= cache.Keys
        invariant total + SizeSum(keys, sizes) == SizeSum(cache.Keys, sizes)
        decreases |keys|
      {
        var k :| k in keys;
        SizeSumRemove(keys, sizes, k);
        total := total + cache[k].size;
        keys := keys - {k};
      }
    }

    /** `remove`: the key leaves both structures, and its item is marked not cached. */
    method Remove(key: string)
      requires ItemsDistinct()
      modifies this, cache.Values
      ensures cache == old(cache) - {key}
      ensures lastUsed == Without(old(lastUsed), key)
      ensures key in old(cache) ==> !old(cache)[key].cached && old(cache)[key].size == old(cache[key].size)
      ensures forall k :: k in cache ==> unchanged(cache[k])
      ensures ItemsDistinct()
      ensures old(Valid()) ==> Valid()
    {
      if key in cache {
        var item := cache[key];
        cache := cache - {key};
        item.SetCached(false);
      }
      lastUsed := Without(lastUsed, key);
    }

    /**
     * `fetch` for one request, in sequence. A key in the recency order is a hit:
     * it becomes the most recent and its item is served. Otherwise the key is
     * recorded, the inner provider's answer `onMiss` and the file creation are
     * awaited, and if the space used is over budget the least recently used
     * entry is removed before the new, not yet cached item is inserted. When
     * the inner provider or the file creation fails, the key is taken out of
     * the recency order again. `openError` is the outcome of opening the file.
     * Both are the intended behaviour: `FetchAsWritten` gives the source's,
     * which keeps the failed key and never finishes an eviction.
     */
    method Fetch(key: string, range: Range, onMiss: Result<AudioInfo, ProviderError>,
                 createError: Option<ProviderError>, openError: Option<ProviderError>)
      returns (r: Result<AudioResource, ProviderError>)
      requires Valid()
      modifies this, cache.Values
      ensures Valid()
      ensures forall k :: k in old(cache) && k in cache ==> cache[k] == old(cache)[k] && unchanged(cache[k])
      // a hit
      ensures key in old(lastUsed) ==>
        cache == old(cache) && lastUsed == Promote(old(lastUsed), key)
        && r == (if openError.None? then Success(AudioResource(cache[key].Info(), range)) else Failure(openError.value))
      // a miss that fails before there is an item
      ensures key !in old(lastUsed) && (onMiss.Failure? || createError.Some?) ==>
        cache == old(cache) && lastUsed == old(lastUsed)
        && r == Failure(if onMiss.Failure? then onMiss.error else createError.value)
      // a miss that inserts a new item
      ensures key !in old(lastUsed) && onMiss.Success? && createError.None? ==>
        key in cache && fresh(cache[key]) && cache[key].path == root + "/" + key
        && cache[key].Info() == onMiss.value && !cache[key].cached
        && r == (if openError.None? then Success(AudioResource(onMiss.value, range)) else Failure(openError.value))
      ensures key !in old(lastUsed) && onMiss.Success? && createError.None? && old(UsedBy(cache)) <= maxSize ==>
        lastUsed == old(lastUsed) + [key] && cache == old(cache)[key := cache[key]]
      ensures key !in old(lastUsed) && onMiss.Success? && createError.None? && old(UsedBy(cache)) > maxSize ==>
        old(lastUsed) != [] && lastUsed == old(lastUsed)[1..] + [key]
        && cache == (old(cache) - {old(lastUsed)[0]})[key := cache[key]]
        && !old(cache)[old(lastUsed)[0]].cached
    {
      var hit := HasCache(key);
      if hit {
        r := FetchHit(key, range, openError);
      } else {
        r := FetchMiss(key, range, onMiss, createError, openError);
      }
    }

    /** The hit path: the key becomes the most recent, and its item is served. */
    method FetchHit(key: string, range: Range, openError: Option<ProviderError>)
      returns (r: Result<AudioResource, ProviderError>)
      requires Valid() && key in lastUsed
      modifies this
      ensures Valid() && cache == old(cache) && lastUsed == Promote(old(lastUsed), key)
      ensures r == (if openError.None? then Success(AudioResource(cache[key].Info(), range)) else Failure(openError.value))
    {
      // The wait for an in-flight miss is concurrency; in sequence the item is there.
      lastUsed := Promote(lastUsed, key);
      var item := cache[key];
      if openError.Some? {
        return Failure(openError.value);
      }
      r := Success(AudioResource(item.Info(), range));
    }

    /** The miss path, from recording the key to inserting the new item. */
    method FetchMiss(key: string, range: Range, onMiss: Result<AudioInfo, ProviderError>,
                     createError: Option<ProviderError>, openError: Option<ProviderError>)
      returns (r: Result<AudioResource, ProviderError>)
      requires Valid() && key !in lastUsed
      modifies this, cache.Values
      ensures Valid()
      ensures forall k :: k in old(cache) && k in cache ==> cache[k] == old(cache)[k] && unchanged(cache[k])
      ensures (onMiss.Failure? || createError.Some?) ==>
        cache == old(cache) && lastUsed == old(lastUsed)
        && r == Failure(if onMiss.Failure? then onMiss.error else createError.value)
      ensures onMiss.Success? && createError.None? ==>
        key in cache && fresh(cache[key]) && cache[key].path == root + "/" + key
        && cache[key].Info() == onMiss.value && !cache[key].cached
        && r == (if openError.None? then Success(AudioResource(onMiss.value, range)) else Failure(openError.value))
      ensures onMiss.Success? && createError.None? && old(UsedBy(cache)) <= maxSize ==>
        lastUsed == old(lastUsed) + [key] && cache == old(cache)[key := cache[key]]
      ensures onMiss.Success? && createError.None? && old(UsedBy(cache)) > maxSize ==>
        old(lastUsed) != [] && lastUsed == old(lastUsed)[1..] + [key]
        && cache == (old(cache) - {old(lastUsed)[0]})[key := cache[key]]
        && !old(cache)[old(lastUsed)[0]].cached
    {
      if onMiss.Failure? || createError.Some? {
        // The corrected fetch does not record a key whose miss failed.
        r := Failure(if onMiss.Failure? then onMiss.error else createError.value);
      } else {
        var item := AdmitNew(key, onMiss.value);
        r := if openError.Some? then Failure(openError.value) else Success(AudioResource(item.Info(), range));
      }
    }

    /** A successful miss: the key becomes the most recent, and a new item is admitted under it. */
    method AdmitNew(key: string, info: AudioInfo) returns (item: CacheItem)
      requires Valid() && key !in lastUsed
      modifies this, cache.Values
      ensures Valid()
      ensures forall k :: k in old(cache) && k in cache ==> cache[k] == old(cache)[k] && unchanged(cache[k])
      ensures key in cache && cache[key] == item
      ensures fresh(item) && item.path == root + "/" + key && item.Info() == info && !item.cached
      ensures old(UsedBy(cache)) <= maxSize ==> lastUsed == old(lastUsed) + [key] && cache == old(cache)[key := item]
      ensures old(UsedBy(cache)) > maxSize ==>
        old(lastUsed) != [] && lastUsed == old(lastUsed)[1..] + [key]
        && cache == (old(cache) - {old(lastUsed)[0]})[key := item]
        && !old(cache)[old(lastUsed)[0]].cached
    {
      ghost var before := lastUsed;
      ghost var cacheBefore := cache;
      if UsedBy(cache) > maxSize {
        OverBudgetHasEntry();
        assert (before + [key])[1..] == before[1..] + [key];
      }
      item := Admit(key, info);
      ConsistentAfterAdmit(cacheBefore, before, key, item);
    }

    /**
     * The miss once the inner provider has answered: record the key as most
     * recent, create the item, evict the least recently used entry when over
     * budget, insert.
     */
    method Admit(key: string, info: AudioInfo) returns (item: CacheItem)
      requires ItemsDistinct() && Distinct(lastUsed) && key !in lastUsed && key !in cache
      modifies this, cache.Values
      ensures fresh(item) && item.path == root + "/" + key && item.Info() == info && !item.cached
      ensures old(UsedBy(cache)) > maxSize ==>
        var order := old(lastUsed) + [key];
        lastUsed == order[1..] && cache == (old(cache) - {order[0]})[key := item]
        && (order[0] in old(cache) ==> !old(cache)[order[0]].cached)
      ensures old(UsedBy(cache)) <= maxSize ==> lastUsed == old(lastUsed) + [key] && cache == old(cache)[key := item]
      ensures forall k :: k in old(cache) && k in cache ==> cache[k] == old(cache)[k] && unchanged(cache[k])
      ensures ItemsDistinct()
    {
      MakeRoom(key);
      // The new item is not part of the space used, so it is made here.
      item := new CacheItem(root + "/" + key, info, false);
      cache := cache[key := item];
    }

    /** Records `key` as the most recent and, over budget, evicts the least recent entry. */
    method MakeRoom(key: string)
      requires ItemsDistinct() && Distinct(lastUsed) && key !in lastUsed && key !in cache
      modifies this, cache.Values
      ensures old(UsedBy(cache)) > maxSize ==>
        var order := old(lastUsed) + [key];
        lastUsed == order[1..] && cache == old(cache) - {order[0]}
        && (order[0] in old(cache) ==> !old(cache)[order[0]].cached)
      ensures old(UsedBy(cache)) <= maxSize ==> lastUsed == old(lastUsed) + [key] && cache == old(cache)
      ensures forall k :: k in cache ==> unchanged(cache[k])
      ensures key !in cache && ItemsDistinct()
    {
      DistinctSnoc(lastUsed, key);
      lastUsed := lastUsed + [key];
      var used := SpaceUsed();
      if used > maxSize {
        EvictLeastRecent();
      }
    }

    /** `pop_lru` followed by `remove` of the popped key. */
    method EvictLeastRecent()
      requires ItemsDistinct() && Distinct(lastUsed) && lastUsed != []
      modifies this, cache.Values
      ensures lastUsed == old(lastUsed)[1..]
      ensures cache == old(cache) - {old(lastUsed)[0]}
      ensures old(lastUsed)[0] in old(cache) ==> !old(cache)[old(lastUsed)[0]].cached
      ensures forall k :: k in cache ==> unchanged(cache[k])
      ensures ItemsDistinct()
    {
      var victim := lastUsed[0];
      lastUsed := lastUsed[1..];
      Remove(victim);
    }

    /** A pool over budget holds at least one entry. */
    lemma OverBudgetHasEntry()
      requires Valid() && Used() > maxSize
      ensures lastUsed != [] && lastUsed[0] in cache
    {
      assert cache.Keys != {};
      var k :| k in cache;
      assert k in lastUsed;
    }
  }

  // ---------------------------------------------------------------------------
  // The caching provider
  // ---------------------------------------------------------------------------

  /** One request made to the inner provider. */
  datatype AudioRequest = AudioRequest(album: string, disc: NonZeroU8, track: NonZeroU8, range: Range)

  /** The provider being cached, with a record of the requests it served. */
  class InnerProvider {
    const answer: (string, NonZeroU8, NonZeroU8, Range) -> Result<AudioInfo, ProviderError>
    ghost var requests: seq<AudioRequest>

    constructor(answer: (string, NonZeroU8, NonZeroU8, Range) -> Result<AudioInfo, ProviderError>)
      ensures this.answer == answer && requests == []
    {
      this.answer := answer;
      requests := [];
    }

    method GetAudio(album: string, disc: NonZeroU8, track: NonZeroU8, range: Range)
      returns (r: Result<AudioInfo, ProviderError>)
      modifies this
      ensures requests == old(requests) + [AudioRequest(album, disc, track, range)]
      ensures r == answer(album, disc, track, range)
    {
      requests := requests + [AudioRequest(album, disc, track, range)];
      r := answer(album, disc, track, range);
    }
  }

  /** The caching provider: an inner provider and a (possibly shared) pool. */
  class Cache {
    const inner: InnerProvider
    const pool: CachePool

    constructor(inner: InnerProvider, pool: CachePool)
      ensures this.inner == inner && this.pool == pool
    {
      this.inner := inner;
      this.pool := pool;
    }

    /** `invalidate`: drops the entry under the same key `get_audio` uses. */
    method Invalidate(album: string, disc: U8, track: U8)
      requires pool.Valid()
      modifies pool, pool.cache.Values
      ensures pool.Valid()
      ensures var key := CacheKey(album, disc, track);
              pool.cache == old(pool.cache) - {key} && pool.lastUsed == Without(old(pool.lastUsed), key)
      ensures var key := CacheKey(album, disc, track);
              key in old(pool.cache) ==> !old(pool.cache)[key].cached && old(pool.cache)[key].size == old(pool.cache[key].size)
      ensures forall k :: k in pool.cache ==> unchanged(pool.cache[k])
      ensures CacheKey(album, disc, track) !in pool.lastUsed
    {
      pool.Remove(CacheKey(album, disc, track));
    }

    /**
     * `get_audio`: fetches under `album/dd/tt`. Only a miss reaches the inner
     * provider, and it is always asked for the whole file.
     */
    method GetAudio(album: string, disc: NonZeroU8, track: NonZeroU8, range: Range,
                    createError: Option<ProviderError>, openError: Option<ProviderError>)
      returns (r: Result<AudioResource, ProviderError>)
      requires pool.Valid()
      modifies pool, pool.cache.Values, inner
      ensures pool.Valid()
      ensures CacheKey(album, disc, track) in old(pool.lastUsed) ==> inner.requests == old(inner.requests)
      ensures CacheKey(album, disc, track) !in old(pool.lastUsed) ==>
        inner.requests == old(inner.requests) + [AudioRequest(album, disc, track, FULL)]
      ensures r.Success? ==> CacheKey(album, disc, track) in pool.cache && r.value.range == range
      // a hit: the item stored under the key is served
      ensures var key := CacheKey(album, disc, track);
        key in old(pool.lastUsed) ==>
          pool.cache == old(pool.cache) && pool.lastUsed == Promote(old(pool.lastUsed), key)
          && r == (if openError.None? then Success(AudioResource(pool.cache[key].Info(), range)) else Failure(openError.value))
      // a miss whose inner request or file creation fails leaves the pool as it was
      ensures var key := CacheKey(album, disc, track);
              var a := inner.answer(album, disc, track, FULL);
        key !in old(pool.lastUsed) && (a.Failure? || createError.Some?) ==>
          pool.cache == old(pool.cache) && pool.lastUsed == old(pool.lastUsed)
          && r == Failure(if a.Failure? then a.error else createError.value)
      // a successful miss admits a new item holding the inner provider's answer
      ensures var key := CacheKey(album, disc, track);
              var a := inner.answer(album, disc, track, FULL);
        key !in old(pool.lastUsed) && a.Success? && createError.None? ==>
          key in pool.cache && fresh(pool.cache[key]) && pool.cache[key].path == pool.root + "/" + key
          && pool.cache[key].Info() == a.value && !pool.cache[key].cached
          && r == (if openError.None? then Success(AudioResource(a.value, range)) else Failure(openError.value))
      // the new key is the most recent; over budget, the least recent entry made room for it
      ensures var key := CacheKey(album, disc, track);
              var a := inner.answer(album, disc, track, FULL);
        key !in old(pool.lastUsed) && a.Success? && createError.None? && old(UsedBy(pool.cache)) <= pool.maxSize ==>
          pool.lastUsed == old(pool.lastUsed) + [key] && pool.cache == old(pool.cache)[key := pool.cache[key]]
      ensures var key := CacheKey(album, disc, track);
              var a := inner.answer(album, disc, track, FULL);
        key !in old(pool.lastUsed) && a.Success? && createError.None? && old(UsedBy(pool.cache)) > pool.maxSize ==>
          old(pool.lastUsed) != [] && pool.lastUsed == old(pool.lastUsed)[1..] + [key]
          && pool.cache == (old(pool.cache) - {old(pool.lastUsed)[0]})[key := pool.cache[key]]
          && !old(pool.cache)[old(pool.lastUsed)[0]].cached
    {
      var key := CacheKey(album, disc, track);
      var hit := pool.HasCache(key);
      var onMiss := OnMiss(album, disc, track, hit);
      assert pool.cache == old(pool.cache) && pool.lastUsed == old(pool.lastUsed);
      assert UsedBy(pool.cache) == old(UsedBy(pool.cache));
      r := pool.Fetch(key, range, onMiss, createError, openError);
    }

    /**
     * The `on_miss` future `get_audio` hands to `fetch`: the inner provider is
     * asked for the whole file only when it is awaited, that is on a miss.
     */
    method OnMiss(album: string, disc: NonZeroU8, track: NonZeroU8, hit: bool)
      returns (onMiss: Result<AudioInfo, ProviderError>)
      modifies inner
      ensures !hit ==> onMiss == inner.answer(album, disc, track, FULL)
      ensures inner.requests == old(inner.requests) + (if hit then [] else [AudioRequest(album, disc, track, FULL)])
    {
      onMiss := Failure(ProviderError(""));
      if !hit {
        onMiss := inner.GetAudio(album, disc, track, FULL);
      }
    }
  }

  // ---------------------------------------------------------------------------
  // Reading an item that may still be filling
  // ---------------------------------------------------------------------------

  /** What one read of the underlying file gives. */
  datatype FileRead = Bytes(n: nat) | ReadError(error: ProviderError) | NotReady

  /** What one `poll_read` returns. */
  datatype PollOutcome =
    | ReadyData(n: nat)      // Ready(Ok) with n > 0 bytes
    | ReadyEof               // Ready(Ok) with no bytes: the end
    | ReadyErr(error: ProviderError)
    | PendingWake            // Pending, woken at once to read again
    | PendingTimer           // Pending, a 100 ms timer armed and the waker called
    | PendingIdle            // Pending: the timer or the file is not ready

  datatype ReaderState = ReaderState(filled: nat, timerArmed: bool)

  /** One `poll_read` step, given the item's `cached`/`size` and what the timer and file do. */
  function PollStep(st: ReaderState, cached: bool, size: nat, timerFires: bool, read: FileRead)
    : (result: (ReaderState, PollOutcome))
    ensures result.0.filled >= st.filled
  {
    if st.timerArmed && !timerFires then (st, PendingIdle)
    else
      var st1 := st.(timerArmed := false);
      match read
      case NotReady => (st1, PendingIdle)
      case ReadError(e) => (st1, ReadyErr(e))
      case Bytes(n) =>
        if n > 0 then (st1.(filled := st1.filled + n), ReadyData(n))
        else if cached then (if st1.filled != size then (st1, PendingWake) else (st1, ReadyEof))
        else (st1.(timerArmed := true), PendingTimer)
  }

  /** The reader over one item's file. */
  class CacheItemReader {
    const item: CacheItem
    var filled: nat
    var timerArmed: bool

    constructor(item: CacheItem)
      ensures this.item == item && filled == 0 && !timerArmed
    {
      this.item := item;
      filled := 0;
      timerArmed := false;
    }

    method PollRead(timerFires: bool, read: FileRead) returns (outcome: PollOutcome)
      modifies this
      ensures (ReaderState(filled, timerArmed), outcome)
              == PollStep(ReaderState(old(filled), old(timerArmed)), item.cached, item.size, timerFires, read)
    {
      if timerArmed {
        if timerFires {
          timerArmed := false;
        } else {
          return PendingIdle;
        }
      }
      match read {
        case NotReady =>
          outcome := PendingIdle;
        case ReadError(e) =>
          outcome := ReadyErr(e);
        case Bytes(n) =>
          if n > 0 {
            filled := filled + n;
            outcome := ReadyData(n);
          } else if item.cached {
            if filled != item.size {
              outcome := PendingWake;
            } else {
              outcome := ReadyEof;
            }
          } else {
            timerArmed := true;
            outcome := PendingTimer;
          }
      }
    }
  }

  // ---------------------------------------------------------------------------
  // The resource reader: skip to the start of the range, then cap its length
  // ---------------------------------------------------------------------------

  /** What the timer and the file do at one poll. */
  datatype PollInput = PollInput(timerFires: bool, read: FileRead)

  /** A file read into a buffer cut to the room `limit` leaves (no cut without a limit). */
  function Room(read: FileRead, limit: Option<nat>): (r: FileRead)
    ensures r.Bytes? <==> read.Bytes?
    ensures r.Bytes? && limit.Some? ==> r.n <= limit.value && (read.n > 0 && limit.value > 0 ==> r.n > 0)
    ensures limit.None? ==> r == read
  {
    if read.Bytes? && limit.Some? then Bytes(Min(read.n, limit.value)) else read
  }

  /**
   * `AsyncReadExt::take(limit)` over a cache item reader, or the reader
   * itself when `limit` is `None`. `yielded` counts the bytes passed on and
   * `length` is the limit it started with.
   */
  class TakeReader {
    const inner: CacheItemReader
    var limit: Option<nat>
    ghost const length: Option<nat>
    ghost var yielded: nat

    /** The bytes passed on and the room left add up to the starting limit. */
    ghost predicate Valid()
      reads this
    {
      limit.Some? == length.Some? && (limit.Some? ==> limit.value + yielded == length.value)
    }

    constructor(inner: CacheItemReader, limit: Option<nat>)
      ensures this.inner == inner && this.limit == limit && length == limit && yielded == 0
      ensures Valid()
    {
      this.inner := inner;
      this.limit := limit;
      length := limit;
      yielded := 0;
    }

    /**
     * One `poll_read`: with no room left the end, without polling the inner
     * reader; otherwise the inner poll into a buffer cut to the room left,
     * whose bytes are taken off the limit.
     */
    method PollRead(timerFires: bool, read: FileRead) returns (outcome: PollOutcome)
      requires Valid()
      modifies this, inner
      ensures Valid() && limit.Some? == old(limit).Some?
      ensures old(limit) == Some(0) ==>
        outcome == ReadyEof && limit == old(limit) && yielded == old(yielded) && unchanged(inner)
      ensures old(limit) != Some(0) ==>
        (ReaderState(inner.filled, inner.timerArmed), outcome)
        == PollStep(ReaderState(old(inner.filled), old(inner.timerArmed)), inner.item.cached, inner.item.size,
                    timerFires, Room(read, old(limit)))
      ensures old(inner.filled) <= inner.filled && yielded == old(yielded) + (inner.filled - old(inner.filled))
      ensures outcome == ReadyEof ==> limit == Some(0) || (inner.item.cached && inner.filled == inner.item.size)
    {
      if limit == Some(0) {
        return ReadyEof;
      }
      outcome := inner.PollRead(timerFires, Room(read, limit));
      if outcome.ReadyData? {
        yielded := yielded + outcome.n;
        if limit.Some? {
          limit := Some(limit.value - outcome.n);
        }
      }
    }
  }

  /** How `tokio::io::copy` ends: done, failed, or still awaited when the given polls run out. */
  datatype CopyOutcome = Copied | CopyFailed(error: ProviderError) | Awaiting

  /**
   * `tokio::io::copy(&mut reader.take(start), &mut tokio::io::sink())`: polls
   * the reader through a take of `start` bytes until that take reports its
   * end or an error, throwing the bytes away. `inputs` are the polls the
   * await goes through.
   */
  method SkipStart(reader: CacheItemReader, start: nat, inputs: seq<PollInput>) returns (copy: CopyOutcome)
    modifies reader
    ensures old(reader.filled) <= reader.filled <= old(reader.filled) + start
    ensures copy == Copied ==>
      reader.filled == old(reader.filled) + start || (reader.item.cached && reader.filled == reader.item.size)
  {
    var take := new TakeReader(reader, Some(start));
    copy := Awaiting;
    var i := 0;
    while i < |inputs| && copy == Awaiting
      invariant i <= |inputs| && take.inner == reader && take.Valid() && take.length == Some(start)
      invariant reader.filled == old(reader.filled) + take.yielded
      invariant copy == Copied ==> take.limit == Some(0) || (reader.item.cached && reader.filled == reader.item.size)
    {
      var outcome := take.PollRead(inputs[i].timerFires, inputs[i].read);
      if outcome == ReadyEof {
        copy := Copied;
      } else if outcome.ReadyErr? {
        copy := CopyFailed(outcome.error);
      }
      i := i + 1;
    }
  }

  /**
   * `to_audio_resource_reader`: a reader over the item's file that first
   * skips `range.start` bytes (the copy's result is ignored), then is capped
   * at `range.length()` bytes when that is bounded; with it the item's info
   * as of then and the range. `skipInputs` are the polls of the skip.
   */
  method ToAudioResourceReader(item: CacheItem, range: Range, skipInputs: seq<PollInput>)
    returns (reader: TakeReader, resource: AudioResource, ghost copy: CopyOutcome)
    ensures fresh(reader) && fresh(reader.inner) && reader.inner.item == item
    ensures reader.Valid() && reader.limit == range.length && reader.yielded == 0
    ensures reader.inner.filled <= range.start
    ensures range.start == 0 ==> reader.inner.filled == 0 && !reader.inner.timerArmed && copy == Copied
    ensures copy == Copied ==> reader.inner.filled == range.start || (item.cached && reader.inner.filled == item.size)
    ensures resource == AudioResource(item.Info(), range)
  {
    var file := new CacheItemReader(item);
    copy := Copied;
    if range.start > 0 {
      copy := SkipStart(file, range.start, skipInputs);
    }
    reader := new TakeReader(file, range.length);
    resource := AudioResource(item.Info(), range);
  }

  /**
   * What a resource reader passes on is its range of the file. Let `data` be
   * the item's content: the inner reader yields it in order and reports its
   * end once the item is cached with `size == |data|`, and it never yields
   * past it. A reader whose skip ended at `skipped` (the start of the range,
   * or the end of the file before it) and that then passed on `yielded` bytes
   * up to its own end (its limit used up, or the end of the file) has passed
   * on exactly `Project(data, range)`.
   */
  lemma ResourceBytes<T>(data: seq<T>, range: Range, skipped: nat, yielded: nat)
    requires skipped == range.start || (skipped == |data| && skipped <= range.start)
    requires skipped + yielded <= |data|
    requires range.length.Some? ==> yielded <= range.length.value
    requires (range.length.Some? && yielded == range.length.value) || skipped + yielded == |data|
    ensures data[skipped..skipped + yielded] == Project(data, range)
  {
    ProjectCompose(data, skipped, Range(0, range.length));
    ProjectIsSlice(data, Range(skipped, range.length));
    ProjectIsSlice(data, range);
  }

  /** A pending timer blocks the read until it fires; nothing changes meanwhile. */
  lemma TimerBlocks(st: ReaderState, cached: bool, size: nat, read: FileRead)
    requires st.timerArmed
    ensures PollStep(st, cached, size, false, read) == (st, PendingIdle)
  {
  }

  /** Once the timer is passed (or absent) it is cleared, and only an empty uncached read arms it again. */
  lemma TimerCleared(st: ReaderState, cached: bool, size: nat, timerFires: bool, read: FileRead)
    requires !st.timerArmed || timerFires
    ensures PollStep(st, cached, size, timerFires, read).0.timerArmed <==> (read == Bytes(0) && !cached)
  {
  }

  /** Bytes read are counted and returned. */
  lemma DataAdvances(st: ReaderState, cached: bool, size: nat, timerFires: bool, n: nat)
    requires (!st.timerArmed || timerFires) && n > 0
    ensures PollStep(st, cached, size, timerFires, Bytes(n)) == (ReaderState(st.filled + n, false), ReadyData(n))
  {
  }

  /** The end is reported exactly when an empty read meets a cached item that was read whole. */
  lemma EofExactly(st: ReaderState, cached: bool, size: nat, timerFires: bool, read: FileRead)
    ensures PollStep(st, cached, size, timerFires, read).1 == ReadyEof
            <==> (!st.timerArmed || timerFires) && read == Bytes(0) && cached && st.filled == size
  {
  }

  /** An empty read on a cached item that is not read whole retries at once. */
  lemma RetryWhenShort(st: ReaderState, size: nat, timerFires: bool)
    requires (!st.timerArmed || timerFires) && st.filled != size
    ensures PollStep(st, true, size, timerFires, Bytes(0)) == (ReaderState(st.filled, false), PendingWake)
  {
  }

  /** An empty read on an item still being copied arms the timer. */
  lemma WaitWhileCopying(st: ReaderState, size: nat, timerFires: bool)
    requires !st.timerArmed || timerFires
    ensures PollStep(st, false, size, timerFires, Bytes(0)) == (ReaderState(st.filled, true), PendingTimer)
  {
  }

  /** `filled` changes only by the bytes of a successful read. */
  lemma FilledCountsData(st: ReaderState, cached: bool, size: nat, timerFires: bool, read: FileRead)
    ensures var (next, outcome) := PollStep(st, cached, size, timerFires, read);
            next.filled == st.filled + (if outcome.ReadyData? then outcome.n else 0)
  {
  }

  // ---------------------------------------------------------------------------
  // `fetch` as written, on values
  // ---------------------------------------------------------------------------

  /**
   * The pool's content as values: each key's item size, the recency order, and
   * whether a fetch is stuck holding the write lock of the recency order.
   */
  datatype PoolState = PoolState(cache: map<string, nat>, lastUsed: seq<string>, writeHeld: bool)

  /** `Blocked`: the request never completes. */
  datatype FetchOutcome = Served(size: nat) | Error(error: ProviderError) | Panic | Blocked

  /**
   * `fetch` as written, for one request.
   * - On a failed miss the key put in the recency order stays there although
   *   no item is inserted, and a later hit on that key unwraps a missing map
   *   entry.
   * - On a miss over budget the eviction holds the write guard of `last_used`
   *   while `remove` asks for it again. The lock is not reentrant, so that
   *   request never returns and the lock is never released: every later fetch
   *   waits for it in `has_cache`. The least recent key has left the order and
   *   the map by then.
   */
  ghost function FetchAsWritten(st: PoolState, maxSize: nat, key: string,
                                onMiss: Result<AudioInfo, ProviderError>, createError: Option<ProviderError>)
    : (result: (PoolState, FetchOutcome))
    ensures st.writeHeld ==> result == (st, Blocked)
    ensures result.1 == Blocked <==>
      st.writeHeld
      || (key !in st.lastUsed && onMiss.Success? && createError.None? && SizeSum(st.cache.Keys, st.cache) > maxSize)
    ensures result.1 == Blocked ==> result.0.writeHeld
    ensures result.1.Served? ==> key in result.0.cache && result.0.cache[key] == result.1.size
  {
    if st.writeHeld then (st, Blocked)
    else if key !in st.lastUsed then
      var put := st.(lastUsed := st.lastUsed + [key]);
      if onMiss.Failure? then (put, Error(onMiss.error))
      else if createError.Some? then (put, Error(createError.value))
      else if SizeSum(st.cache.Keys, st.cache) > maxSize then
        // `pop_lru` and the map removal in `remove` happen; its second lock does not return.
        var victim := put.lastUsed[0];
        (PoolState(put.cache - {victim}, put.lastUsed[1..], true), Blocked)
      else (put.(cache := put.cache[key := onMiss.value.size]), Served(onMiss.value.size))
    else
      var promoted := st.(lastUsed := Promote(st.lastUsed, key));
      if key !in st.cache then (promoted, Panic) else (promoted, Served(st.cache[key]))
  }

  /**
   * A miss that finds the pool over its budget never returns, and from then on
   * no fetch of any key completes.
   */
  lemma OverBudgetMissBlocks(st: PoolState, maxSize: nat, key: string, info: AudioInfo,
                             later: seq<(string, Result<AudioInfo, ProviderError>, Option<ProviderError>)>)
    requires !st.writeHeld && key !in st.lastUsed && SizeSum(st.cache.Keys, st.cache) > maxSize
    ensures FetchAsWritten(st, maxSize, key, Success(info), None).1 == Blocked
    ensures RunAsWritten(FetchAsWritten(st, maxSize, key, Success(info), None).0, maxSize, later)
            == seq(|later|, _ => Blocked)
  {
    BlockedStaysBlocked(FetchAsWritten(st, maxSize, key, Success(info), None).0, maxSize, later);
  }

  /** The outcomes of a sequence of fetches, each on the pool the previous one left. */
  ghost function RunAsWritten(st: PoolState, maxSize: nat,
                              requests: seq<(string, Result<AudioInfo, ProviderError>, Option<ProviderError>)>)
    : (outcomes: seq<FetchOutcome>)
    ensures |outcomes| == |requests|
    decreases |requests|
  {
    if requests == [] then []
    else
      var (next, outcome) := FetchAsWritten(st, maxSize, requests[0].0, requests[0].1, requests[0].2);
      [outcome] + RunAsWritten(next, maxSize, requests[1..])
  }

  lemma {:induction false} BlockedStaysBlocked(st: PoolState, maxSize: nat,
                                               requests: seq<(string, Result<AudioInfo, ProviderError>, Option<ProviderError>)>)
    requires st.writeHeld
    ensures RunAsWritten(st, maxSize, requests) == seq(|requests|, _ => Blocked)
  {
    if requests != [] {
      BlockedStaysBlocked(st, maxSize, requests[1..]);
    }
  }

  /**
   * The concrete case: a pool holding one item of 2 bytes with a budget of 1.
   * A request for another key blocks, and so does a request for the stored key.
   */
  lemma OverBudgetOnOneItem(stored: string, key: string, info: AudioInfo)
    requires key != stored
    ensures var (after, first) := FetchAsWritten(PoolState(map[stored := 2], [stored], false), 1, key, Success(info), None);
            first == Blocked && after.writeHeld
            && FetchAsWritten(after, 1, stored, Success(info), None).1 == Blocked
  {
    var st := PoolState(map[stored := 2], [stored], false);
    SizeSumAtLeast(st.cache.Keys, st.cache, stored);
  }

  /**
   * A miss whose inner request fails leaves the key behind: the next fetch of
   * the same key, whatever the inner provider would answer, panics.
   */
  lemma FailedMissPoisonsKey(st: PoolState, maxSize: nat, key: string, e: ProviderError,
                             next: Result<AudioInfo, ProviderError>, nextCreate: Option<ProviderError>)
    requires !st.writeHeld && key !in st.lastUsed && key !in st.cache
    ensures FetchAsWritten(st, maxSize, key, Failure(e), None).1 == Error(e)
    ensures FetchAsWritten(FetchAsWritten(st, maxSize, key, Failure(e), None).0, maxSize, key, next, nextCreate).1 == Panic
  {
  }

  /** The concrete case: an empty pool, one failed request, then the same request again. */
  lemma FailedMissOnEmptyPool(key: string, e: ProviderError, info: AudioInfo)
    ensures var (afterFailure, first) := FetchAsWritten(PoolState(map[], [], false), 1, key, Failure(e), None);
            first == Error(e) && afterFailure == PoolState(map[], [key], false)
            && FetchAsWritten(afterFailure, 1, key, Success(info), None).1 == Panic
  {
  }
}
