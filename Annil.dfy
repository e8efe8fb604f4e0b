/**
 * The annil audio server's request rules: which albums a caller sees, which
 * backend serves an audio or cover request, what bitrate and content type the
 * answer has, and how backends configured with the same cache root come to
 * share one cache pool.
 */
module Annil {
  import opened Wrappers
  import CacheProvider

  // ---------------------------------------------------------------------------
  // Backends and claims
  // ---------------------------------------------------------------------------

  /**
   * One backend as the handlers see it: whether it is enabled, the album map
   * it lists, the catalogs `has_album` and `has_album_wide` accept, the audio
   * it can serve by (catalog, track), and the catalogs it has a cover for.
   */
  datatype Backend = Backend(
    name: string,
    enabled: bool,
    albums: map<string, set<string>>,
    catalogs: set<string>,
    wideCatalogs: set<string>,
    audio: map<(string, nat), CacheProvider.AudioInfo>,
    covers: set<string>)

  /** A signed-in user, or a share link that grants the listed albums' audio. */
  datatype Claims = User | Share(audios: map<string, set<nat>>)

  // ---------------------------------------------------------------------------
  // Album list
  // ---------------------------------------------------------------------------

  /** The album maps of all backends, each extending the ones before it. */
  function Merged(backends: seq<Backend>): map<string, set<string>> {
    if backends == [] then map[]
    else Merged(backends[..|backends| - 1]) + backends[|backends| - 1].albums
  }

  /** A catalog is listed exactly when some backend, enabled or not, lists it. */
  lemma {:induction false} MergedKeys(backends: seq<Backend>, catalog: string)
    ensures catalog in Merged(backends) <==> exists i :: 0 <= i < |backends| && catalog in backends[i].albums
  {
    if backends != [] {
      var init := backends[..|backends| - 1];
      MergedKeys(init, catalog);
      if catalog in Merged(init) {
        var i :| 0 <= i < |init| && catalog in init[i].albums;
        assert backends[i] == init[i];
      }
      if exists i :: 0 <= i < |backends| && catalog in backends[i].albums {
        var i :| 0 <= i < |backends| && catalog in backends[i].albums;
        if i < |init| {
          assert init[i] == backends[i];
        }
      }
    }
  }

  /** A catalog listed by several backends carries the entry of the last of them. */
  lemma {:induction false} MergedLastWins(backends: seq<Backend>, i: nat, catalog: string)
    requires i < |backends| && catalog in backends[i].albums
    requires forall j :: i < j < |backends| ==> catalog !in backends[j].albums
    ensures catalog in Merged(backends) && Merged(backends)[catalog] == backends[i].albums[catalog]
  {
    var init := backends[..|backends| - 1];
    if i < |init| {
      assert init[i] == backends[i];
      forall j | i < j < |init|
        ensures catalog !in init[j].albums
      {
        assert init[j] == backends[j];
      }
      MergedLastWins(init, i, catalog);
    }
  }

  /** What `/albums` answers. */
  datatype AlbumList = FullList(albums: map<string, set<string>>) | SharedList(catalogs: set<string>)

  /**
   * `/albums`: a user gets every backend's albums merged in backend order; a
   * share claim gets only the albums the share names.
   */
  method Albums(claims: Claims, backends: seq<Backend>) returns (list: AlbumList)
    ensures claims.User? ==> list == FullList(Merged(backends))
    ensures claims.Share? ==> list == SharedList(claims.audios.Keys)
  {
    match claims {
      case User =>
        var albums: map<string, set<string>> := map[];
        for i := 0 to |backends|
          invariant albums == Merged(backends[..i])
        {
          assert backends[..i + 1][..i] == backends[..i];
          albums := albums + backends[i].albums;
        }
        assert backends[..|backends|] == backends;
        list := FullList(albums);
      case Share(audios) =>
        list := SharedList(audios.Keys);
    }
  }

  // ---------------------------------------------------------------------------
  // Bitrate and content type
  // ---------------------------------------------------------------------------

  /** The preferred bitrate: guests always get "low", others their query or "medium". */
  function Preference(guest: bool, preferBitrate: Option<string>): (p: string)
    ensures guest ==> p == "low"
    ensures !guest ==> p == preferBitrate.GetOr("medium")
  {
    if guest then "low" else preferBitrate.GetOr("medium")
  }

  /** The transcoding bitrate for a preference; `None` streams the original file. */
  function SelectBitrate(preference: string): (b: Option<string>)
    ensures b.None? <==> preference == "lossless"
    ensures b == Some("320k") <==> preference == "high"
    ensures b == Some("192k") <==> preference == "medium"
    ensures b == Some("128k") <==> preference != "high" && preference != "medium" && preference != "lossless"
    ensures b.Some? ==> b.value == "128k" || b.value == "192k" || b.value == "320k"
  {
    match preference
    case "low" => Some("128k")
    case "medium" => Some("192k")
    case "high" => Some("320k")
    case "lossless" => None
    case _ => Some("128k")
  }

  /** The `X-Origin-Type` header: the original file's type. */
  function OriginType(extension: string): string {
    "audio/" + extension
  }

  /** The content type: AAC when transcoding, the original type otherwise. */
  function ContentType(bitrate: Option<string>, extension: string): (t: string)
    ensures bitrate.Some? ==> t == "audio/aac"
    ensures bitrate.None? ==> t == OriginType(extension)
  {
    if bitrate.Some? then "audio/aac" else OriginType(extension)
  }

  /** A guest is always served at 128k, whatever it asks for. */
  lemma GuestsGetLow(preferBitrate: Option<string>)
    ensures SelectBitrate(Preference(true, preferBitrate)) == Some("128k")
  {
  }

  /** Without a preference a user gets 192k. */
  lemma UsersDefaultToMedium()
    ensures SelectBitrate(Preference(false, None)) == Some("192k")
  {
  }

  /** The original file is streamed only to a user who asks for "lossless". */
  lemma LosslessOnlyOnRequest(guest: bool, preferBitrate: Option<string>)
    ensures SelectBitrate(Preference(guest, preferBitrate)).None? <==> !guest && preferBitrate == Some("lossless")
  {
  }

  /** An unknown preference falls back to 128k. */
  lemma UnknownPreferenceIsLow(preference: string)
    requires preference != "low" && preference != "medium" && preference != "high" && preference != "lossless"
    ensures SelectBitrate(preference) == Some("128k")
  {
  }

  /** The content type repeats the origin type exactly when nothing is transcoded or the original is AAC. */
  lemma ContentTypeIsOriginType(bitrate: Option<string>, extension: string)
    ensures ContentType(bitrate, extension) == OriginType(extension) <==> bitrate.None? || extension == "aac"
  {
    if bitrate.Some? && ContentType(bitrate, extension) == OriginType(extension) {
      assert "audio/" + extension == "audio/" + "aac";
      assert extension == ("audio/" + extension)[6..];
    }
  }

  // ---------------------------------------------------------------------------
  // Backend selection
  // ---------------------------------------------------------------------------

  /** Whether a backend takes an audio request (`has_album`) or a cover request (`has_album_wide`). */
  predicate Serves(b: Backend, catalog: string, wide: bool) {
    b.enabled && catalog in (if wide then b.wideCatalogs else b.catalogs)
  }

  /** The first backend at or after `from` that takes the request. */
  function FirstServing(backends: seq<Backend>, catalog: string, wide: bool, from: nat): (r: Option<nat>)
    requires from <= |backends|
    ensures r.Some? ==> from <= r.value < |backends| && Serves(backends[r.value], catalog, wide)
    ensures r.Some? ==> forall j :: from <= j < r.value ==> !Serves(backends[j], catalog, wide)
    ensures r.None? ==> forall j :: from <= j < |backends| ==> !Serves(backends[j], catalog, wide)
    decreases |backends| - from
  {
    if from == |backends| then None
    else if Serves(backends[from], catalog, wide) then Some(from)
    else FirstServing(backends, catalog, wide, from + 1)
  }

  /** A handler's answer. */
  datatype Response =
    | Unauthorized
    | Forbidden
    | NotFound
    | AudioStream(contentType: string, originType: string, originSize: nat, duration: nat,
                  bitrate: Option<string>, backend: nat)
    | CoverStream(contentType: string, backend: nat)

  /** The answer `/{catalog}/{track_id}` gives, in terms of the first backend that takes it. */
  function AudioAnswer(authorized: bool, guest: bool, preferBitrate: Option<string>,
                       backends: seq<Backend>, catalog: string, track: nat): Response
  {
    if !authorized then Unauthorized
    else
      match FirstServing(backends, catalog, false, 0)
      case None => NotFound
      case Some(i) =>
        if (catalog, track) !in backends[i].audio then NotFound
        else
          var info := backends[i].audio[(catalog, track)];
          var bitrate := SelectBitrate(Preference(guest, preferBitrate));
          AudioStream(ContentType(bitrate, info.extension), OriginType(info.extension), info.size, info.duration, bitrate, i)
  }

  /**
   * `/{catalog}/{track_id}`: `authorized` is the claim's `can_fetch` for this
   * track and `guest` its `is_guest`. Backends are tried in order; the first
   * enabled one that has the album answers, and its failure is final.
   */
  method Audio(authorized: bool, guest: bool, preferBitrate: Option<string>,
               backends: seq<Backend>, catalog: string, track: nat) returns (resp: Response)
    ensures resp == AudioAnswer(authorized, guest, preferBitrate, backends, catalog, track)
  {
    if !authorized {
      return Unauthorized;
    }
    for i := 0 to |backends|
      invariant FirstServing(backends, catalog, false, 0) == FirstServing(backends, catalog, false, i)
    {
      if backends[i].enabled && catalog in backends[i].catalogs {
        if (catalog, track) !in backends[i].audio {
          return NotFound;
        }
        var info := backends[i].audio[(catalog, track)];
        var bitrate := SelectBitrate(Preference(guest, preferBitrate));
        return AudioStream(ContentType(bitrate, info.extension), OriginType(info.extension), info.size, info.duration, bitrate, i);
      }
    }
    return NotFound;
  }

  /** The answer `/{catalog}/cover` gives. */
  function CoverAnswer(authorized: bool, backends: seq<Backend>, catalog: string): Response {
    if !authorized then Forbidden
    else
      match FirstServing(backends, catalog, true, 0)
      case None => NotFound
      case Some(i) => if catalog in backends[i].covers then CoverStream("image/jpeg", i) else NotFound
  }

  /** `/{catalog}/cover`: like audio, with `has_album_wide` and Forbidden for a claim that cannot fetch. */
  method Cover(authorized: bool, backends: seq<Backend>, catalog: string) returns (resp: Response)
    ensures resp == CoverAnswer(authorized, backends, catalog)
  {
    if !authorized {
      return Forbidden;
    }
    for i := 0 to |backends|
      invariant FirstServing(backends, catalog, true, 0) == FirstServing(backends, catalog, true, i)
    {
      if backends[i].enabled && catalog in backends[i].wideCatalogs {
        if catalog in backends[i].covers {
          return CoverStream("image/jpeg", i);
        }
        return NotFound;
      }
    }
    return NotFound;
  }

  /** A claim that cannot fetch is turned away whatever the backends hold. */
  lemma AuthorizationFirst(guest: bool, preferBitrate: Option<string>, backends: seq<Backend>, catalog: string, track: nat)
    ensures AudioAnswer(false, guest, preferBitrate, backends, catalog, track) == Unauthorized
    ensures CoverAnswer(false, backends, catalog) == Forbidden
  {
  }

  /** Only an enabled backend that has the album serves, and every one before it lacks it or is disabled. */
  lemma ServedByFirstMatch(authorized: bool, guest: bool, preferBitrate: Option<string>,
                           backends: seq<Backend>, catalog: string, track: nat)
    ensures var resp := AudioAnswer(authorized, guest, preferBitrate, backends, catalog, track);
            resp.AudioStream? ==>
              resp.backend < |backends| && backends[resp.backend].enabled && catalog in backends[resp.backend].catalogs
              && (catalog, track) in backends[resp.backend].audio
              && forall j :: 0 <= j < resp.backend ==> !Serves(backends[j], catalog, false)
  {
  }

  /** With no enabled backend having the album, the answer is 404. */
  lemma NoBackendIsNotFound(authorized: bool, guest: bool, preferBitrate: Option<string>,
                            backends: seq<Backend>, catalog: string, track: nat)
    requires authorized
    requires forall j :: 0 <= j < |backends| ==> !Serves(backends[j], catalog, false)
    ensures AudioAnswer(authorized, guest, preferBitrate, backends, catalog, track) == NotFound
  {

  }

  /** A failure of the first matching backend is final: a later backend holding the track is not tried. */
  lemma FirstFailureIsFinal(guest: bool, preferBitrate: Option<string>, backends: seq<Backend>,
                            catalog: string, track: nat, i: nat)
    requires i < |backends| && Serves(backends[i], catalog, false) && (catalog, track) !in backends[i].audio
    requires forall j :: 0 <= j < i ==> !Serves(backends[j], catalog, false)
    ensures AudioAnswer(true, guest, preferBitrate, backends, catalog, track) == NotFound
  {

  }

  /** A served stream reports the original file's type, size and duration, and the chosen bitrate. */
  lemma StreamDescribesOriginal(guest: bool, preferBitrate: Option<string>, backends: seq<Backend>,
                                catalog: string, track: nat)
    ensures var resp := AudioAnswer(true, guest, preferBitrate, backends, catalog, track);
            resp.AudioStream? ==>
              var info := backends[resp.backend].audio[(catalog, track)];
              resp.originType == OriginType(info.extension) && resp.originSize == info.size
              && resp.duration == info.duration
              && resp.bitrate == SelectBitrate(Preference(guest, preferBitrate))
              && resp.contentType == ContentType(resp.bitrate, info.extension)
  {
  }

  /** A cover is served by the first enabled backend with the album in its wide set, as JPEG. */
  lemma CoverServedByFirstMatch(backends: seq<Backend>, catalog: string)
    ensures var resp := CoverAnswer(true, backends, catalog);
            resp.CoverStream? ==>
              resp.contentType == "image/jpeg" && resp.backend < |backends|
              && Serves(backends[resp.backend], catalog, true) && catalog in backends[resp.backend].covers
              && forall j :: 0 <= j < resp.backend ==> !Serves(backends[j], catalog, true)
  {
  }

  // ---------------------------------------------------------------------------
  // Initialisation
  // ---------------------------------------------------------------------------

  datatype CacheConfig = CacheConfig(root: string, maxSize: nat)

  datatype BackendConfig = BackendConfig(name: string, enable: bool, cache: Option<CacheConfig>)

  /** A configured backend: its name, whether it is enabled, and the pool its cache wrapper uses. */
  datatype ServedBackend = ServedBackend(name: string, enabled: bool, pool: Option<CacheProvider.CachePool>)

  predicate HasRoot(c: BackendConfig, root: string) {
    c.cache.Some? && c.cache.value.root == root
  }

  /** The first configuration at or after `from` whose cache root is `root`. */
  function FirstWithRoot(configs: seq<BackendConfig>, root: string, from: nat): (r: Option<nat>)
    requires from <= |configs|
    ensures r.Some? ==> from <= r.value < |configs| && HasRoot(configs[r.value], root)
    ensures r.Some? ==> forall j :: from <= j < r.value ==> !HasRoot(configs[j], root)
    ensures r.None? ==> forall j :: from <= j < |configs| ==> !HasRoot(configs[j], root)
    decreases |configs| - from
  {
    if from == |configs| then None
    else if HasRoot(configs[from], root) then Some(from)
    else FirstWithRoot(configs, root, from + 1)
  }

  /**
   * `init_state`: one backend per configuration, in order. A configuration
   * with a cache gets the pool of its root, and a pool is created, with that
   * configuration's size budget, only the first time its root appears.
   */
  method InitState(configs: seq<BackendConfig>)
    returns (backends: seq<ServedBackend>, caches: map<string, CacheProvider.CachePool>)
    ensures |backends| == |configs|
    ensures forall i :: 0 <= i < |configs| ==>
      backends[i].name == configs[i].name && backends[i].enabled == configs[i].enable
      && (configs[i].cache.None? <==> backends[i].pool.None?)
    ensures forall i :: 0 <= i < |configs| && configs[i].cache.Some? ==>
      configs[i].cache.value.root in caches && backends[i].pool == Some(caches[configs[i].cache.value.root])
    ensures forall root :: root in caches <==> exists i :: 0 <= i < |configs| && HasRoot(configs[i], root)
    ensures forall root :: root in caches ==>
      fresh(caches[root]) && caches[root].root == root
      && FirstWithRoot(configs, root, 0).Some?
      && caches[root].maxSize == CacheProvider.EffectiveMaxSize(configs[FirstWithRoot(configs, root, 0).value].cache.value.maxSize)
    ensures EmptyPools(caches)
    ensures forall r1, r2 :: r1 in caches && r2 in caches && r1 != r2 ==> caches[r1] != caches[r2]
  {
    backends := [];
    caches := map[];
    for i := 0 to |configs|
      invariant |backends| == i
      invariant BackendsFit(configs, backends, caches) && PoolsFit(configs, caches, i)
      invariant forall root :: root in caches ==> fresh(caches[root])
      invariant EmptyPools(caches)
    {
      backends, caches := AddBackend(configs, backends, caches);
    }
    forall root
      ensures root in caches <==> exists i :: 0 <= i < |configs| && HasRoot(configs[i], root)
    {
      RootsUpToMeans(configs, |configs|, root);
    }
  }

  /** Every pool is as `CachePool::new` leaves it: valid, with no item and no recency entry. */
  ghost predicate EmptyPools(caches: map<string, CacheProvider.CachePool>)
    reads caches.Values
  {
    forall root :: root in caches ==>
      caches[root].Valid() && caches[root].cache == map[] && caches[root].lastUsed == []
  }

  /**
   * One turn of the `init_state` loop: the backend of the next configuration,
   * with its pool, and the pool map with a new pool when its root is new.
   */
  method AddBackend(configs: seq<BackendConfig>, backends: seq<ServedBackend>,
                    caches: map<string, CacheProvider.CachePool>)
    returns (more: seq<ServedBackend>, next: map<string, CacheProvider.CachePool>)
    requires |backends| < |configs| && BackendsFit(configs, backends, caches) && PoolsFit(configs, caches, |backends|)
    ensures |more| == |backends| + 1
    ensures BackendsFit(configs, more, next) && PoolsFit(configs, next, |more|)
    ensures forall root :: root in next ==> (root in caches && next[root] == caches[root]) || fresh(next[root])
    ensures EmptyPools(caches) ==> EmptyPools(next)
  {
    var i := |backends|;
    var pool;
    pool, next := PoolFor(configs, i, caches);
    BackendsFitStep(configs, backends, caches, pool, next);
    PoolsFitStep(configs, caches, i, next);
    more := backends + [ServedBackend(configs[i].name, configs[i].enable, pool)];
  }

  /** Backend `k` has the name, switch and pool configuration `k` asks for. */
  predicate BackendsFit(configs: seq<BackendConfig>, backends: seq<ServedBackend>,
                        caches: map<string, CacheProvider.CachePool>)
  {
    && |backends| <= |configs|
    && forall k :: 0 <= k < |backends| ==>
         && backends[k].name == configs[k].name && backends[k].enabled == configs[k].enable
         && (configs[k].cache.None? <==> backends[k].pool.None?)
         && (configs[k].cache.Some? ==>
               configs[k].cache.value.root in caches
               && backends[k].pool == Some(caches[configs[k].cache.value.root]))
  }

  /**
   * The pools are those of the roots of the first `n` configurations, each
   * made with the budget of the first configuration that names its root.
   */
  predicate PoolsFit(configs: seq<BackendConfig>, caches: map<string, CacheProvider.CachePool>, n: nat)
    requires n <= |configs|
  {
    && caches.Keys == RootsUpTo(configs, n)
    && forall root :: root in caches ==>
         && caches[root].root == root
         && FirstWithRoot(configs, root, 0).Some? && FirstWithRoot(configs, root, 0).value < n
         && caches[root].maxSize
              == CacheProvider.EffectiveMaxSize(configs[FirstWithRoot(configs, root, 0).value].cache.value.maxSize)
  }

  /** A backend for one more configuration, with a pool kept in the map, keeps `BackendsFit`. */
  lemma BackendsFitStep(configs: seq<BackendConfig>, backends: seq<ServedBackend>,
                        caches: map<string, CacheProvider.CachePool>, pool: Option<CacheProvider.CachePool>,
                        next: map<string, CacheProvider.CachePool>)
    requires |backends| < |configs| && BackendsFit(configs, backends, caches)
    requires forall root :: root in caches ==> root in next && next[root] == caches[root]
    requires var c := configs[|backends|];
      && (c.cache.None? <==> pool.None?)
      && (c.cache.Some? ==> c.cache.value.root in next && pool == Some(next[c.cache.value.root]))
    ensures BackendsFit(configs, backends + [ServedBackend(configs[|backends|].name, configs[|backends|].enable, pool)], next)
  {
    var more := backends + [ServedBackend(configs[|backends|].name, configs[|backends|].enable, pool)];
    assert more[..|backends|] == backends;
  }

  /** A pool for a root not met before, made with this configuration's budget, keeps `PoolsFit`. */
  lemma PoolsFitStep(configs: seq<BackendConfig>, caches: map<string, CacheProvider.CachePool>, i: nat,
                     next: map<string, CacheProvider.CachePool>)
    requires i < |configs| && PoolsFit(configs, caches, i)
    requires next.Keys == RootsUpTo(configs, i + 1)
    requires forall root :: root in caches ==> next[root] == caches[root]
    requires forall root :: root in next && root !in caches ==>
      next[root].root == root && FirstWithRoot(configs, root, 0) == Some(i)
      && next[root].maxSize == CacheProvider.EffectiveMaxSize(configs[i].cache.value.maxSize)
    ensures PoolsFit(configs, next, i + 1)
  {
  }

  /**
   * The pool of configuration `i`: none without a cache, the pool already
   * made for its root, or a new pool with this configuration's budget.
   */
  method PoolFor(configs: seq<BackendConfig>, i: nat, caches: map<string, CacheProvider.CachePool>)
    returns (pool: Option<CacheProvider.CachePool>, next: map<string, CacheProvider.CachePool>)
    requires i < |configs| && caches.Keys == RootsUpTo(configs, i)
    ensures next.Keys == RootsUpTo(configs, i + 1)
    ensures forall root :: root in caches ==> root in next && next[root] == caches[root]
    ensures forall root :: root in next && root !in caches ==>
      fresh(next[root]) && next[root].root == root && FirstWithRoot(configs, root, 0) == Some(i)
      && next[root].maxSize == CacheProvider.EffectiveMaxSize(configs[i].cache.value.maxSize)
      && next[root].Valid() && next[root].cache == map[] && next[root].lastUsed == []
    ensures EmptyPools(caches) ==> EmptyPools(next)
    ensures configs[i].cache.None? <==> pool.None?
    ensures configs[i].cache.Some? ==>
      configs[i].cache.value.root in next && pool == Some(next[configs[i].cache.value.root])
  {
    RootsUpToStep(configs, i);
    next := caches;
    pool := None;
    var config := configs[i];
    if config.cache.Some? {
      var root := config.cache.value.root;
      if root !in caches {
        RootsUpToMeans(configs, i, root);
        FirstAtNewRoot(configs, root, i);
        var created := new CacheProvider.CachePool(root, config.cache.value.maxSize);
        next := caches[root := created];
      }
      pool := Some(next[root]);
    }
  }

  /** The cache roots of the first `n` configurations. */
  function RootsUpTo(configs: seq<BackendConfig>, n: nat): set<string>
    requires n <= |configs|
  {
    set k | 0 <= k < n && configs[k].cache.Some? :: configs[k].cache.value.root
  }

  lemma RootsUpToStep(configs: seq<BackendConfig>, n: nat)
    requires n < |configs|
    ensures RootsUpTo(configs, n + 1)
            == RootsUpTo(configs, n) + (if configs[n].cache.Some? then {configs[n].cache.value.root} else {})
  {
  }

  lemma RootsUpToMeans(configs: seq<BackendConfig>, n: nat, root: string)
    requires n <= |configs|
    ensures root in RootsUpTo(configs, n) <==> exists k :: 0 <= k < n && HasRoot(configs[k], root)
  {
  }

  /** A root met at `i` and at no earlier configuration is first met at `i`. */
  lemma FirstAtNewRoot(configs: seq<BackendConfig>, root: string, i: nat)
    requires i < |configs| && HasRoot(configs[i], root)
    requires !exists k :: 0 <= k < i && HasRoot(configs[k], root)
    ensures FirstWithRoot(configs, root, 0) == Some(i)
  {
  }
}
