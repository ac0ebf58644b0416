/**
 * The archimadrid client: a provider URL, a cache TTL and a day cache shared
 * by every section lookup.
 *
 * The cache holds two kinds of value: extracted artifacts (`*Gospel`, under
 * `prefix + day`) and raw provider records (`*gospelResponse`, under
 * `"response " + day`). Reads are typed: a value of the other kind is an
 * error, exactly like a missing key. A `*Gospel` may be the nil pointer, which
 * the typed read accepts (Go's type assertion succeeds on a typed nil).
 *
 * The HTTP round trip is the `Provider` parameter; the ghost `fetches`
 * counter records every call to it.
 */
module Archimadrid {
  import opened Wrappers
  import opened Text
  import opened Calendar
  import opened Extract
  import opened Sections

  const DefaultURL := "https://www.archimadrid.org/index.php/oracion-y-liturgia/index.php?option=com_archimadrid&format=ajax&task=leer_lecturas"

  /** Durations are counted in nanoseconds, as Go's `time.Duration`. */
  const Hour := 3_600_000_000_000
  const DefaultTTL := 24 * Hour

  /** The cache library's error for an absent key. */
  const KeyNotFound := "key not found"
  const NotAGospel := "no valid object of type *Gospel found"
  const NotAResponse := "no valid object of type *gospelResponse found"
  const ExtractionFailed := "error getting the gospel from the response: "
  const RequestFailed := "error performing the request: "

  /**
   * `Magnificat`: all the sections of one day. The first lecture, the psalm
   * and the gospel are always present; the second lecture is optional.
   */
  datatype Magnificat = Magnificat(day: string, firstLecture: Gospel, psalm: Gospel,
                                   secondLecture: Option<Gospel>, gospel: Gospel)

  /** A `*Gospel`: nil, or a pointer to a value. */
  datatype GospelRef = Nil | Ref(gospel: Gospel)

  /** What the cache can hold under a key. */
  datatype CacheValue = Artifact(ref: GospelRef) | Response(record: RawRecord)

  type Cache = map<string, CacheValue>

  /**
   * What the provider round trip delivers: a transport failure, a body that is
   * not a JSON array of records, a cancelled context, or the decoded records.
   */
  datatype FetchOutcome =
    | TransportFailure(msg: string)
    | DecodeFailure(msg: string)
    | Cancelled(msg: string)
    | Records(records: seq<RawRecord>)

  /** The provider, queried with the URL and the `dia` form field. */
  type Provider = (string, string) -> FetchOutcome

  // ---------------------------------------------------------------------------
  // Keys and typed cache reads

  function ArtifactKey(prefix: string, day: Date): string
  {
    prefix + Format(day)
  }

  function ResponseKey(day: Date): string
  {
    ResponsePrefix + Format(day)
  }

  /** `getGospelFromCache`. */
  function GospelFromCache(cache: Cache, key: string): (r: Result<GospelRef>)
    ensures r.Ok? <==> key in cache && cache[key].Artifact?
    ensures r.Ok? ==> cache[key] == Artifact(r.value)
    ensures key !in cache ==> r == Err(KeyNotFound)
    ensures key in cache && cache[key].Response? ==> r == Err(NotAGospel)
  {
    if key !in cache then Err(KeyNotFound)
    else match cache[key]
      case Artifact(g) => Ok(g)
      case Response(_) => Err(NotAGospel)
  }

  /** `getResponseFromCache`. */
  function ResponseFromCache(cache: Cache, key: string): (r: Result<RawRecord>)
    ensures r.Ok? <==> key in cache && cache[key].Response?
    ensures r.Ok? ==> cache[key] == Response(r.value)
    ensures key !in cache ==> r == Err(KeyNotFound)
    ensures key in cache && cache[key].Artifact? ==> r == Err(NotAResponse)
  {
    if key !in cache then Err(KeyNotFound)
    else match cache[key]
      case Response(r) => Ok(r)
      case Artifact(_) => Err(NotAResponse)
  }

  /** The error a failed round trip yields (the records case never reaches here). */
  function RequestError(o: FetchOutcome): string
    requires !o.Records?
  {
    match o
    case TransportFailure(m) => RequestFailed + m
    case DecodeFailure(m) => m
    case Cancelled(m) => m
  }

  /** No nil `*Gospel` is cached. */
  predicate NoNilArtifact(cache: Cache)
  {
    forall k | k in cache :: cache[k] != Artifact(Nil)
  }

  // ---------------------------------------------------------------------------
  // The shared section lookup, stated as a function

  /** The result of one lookup, the cache after it, and whether the provider was called. */
  datatype Lookup = Lookup(result: Result<GospelRef>, cache: Cache, fetched: bool)

  /** What `getGospelOrLecture` does, as a function of the cache before it. */
  function Resolve(cache: Cache, url: string, s: Section, day: Date, engine: Engine, provider: Provider): Lookup
  {
    var today := Format(day);
    var artKey := s.cachePrefix + today;
    var rawKey := ResponsePrefix + today;
    var hit := GospelFromCache(cache, artKey);
    if hit.Ok? then Lookup(hit, cache, false)
    else
      var raw := ResponseFromCache(cache, rawKey);
      if raw.Ok? then
        match FromResponse(raw.value, s.pattern, s.psalm, engine)
        case Err(e) => Lookup(Err(ExtractionFailed + e), cache, false)
        case Ok(g) => Lookup(Ok(Ref(g)), cache[artKey := Artifact(Ref(g))], false)
      else
        var o := provider(url, today);
        if !o.Records? then Lookup(Err(RequestError(o)), cache, true)
        else if |o.records| <= 0 then Lookup(Err("no gospel or lecture found for day " + today), cache, true)
        else
          var saved := cache[rawKey := Response(o.records[0])];
          match FromResponse(o.records[0], s.pattern, s.psalm, engine)
          case Err(e) => Lookup(Err(ExtractionFailed + e), saved, true)
          case Ok(g) => Lookup(Ok(Ref(g)), saved[artKey := Artifact(Ref(g))], true)
  }

  /** What the older gospel lookup does, as written: after a fetch it caches the nil pointer. */
  function ResolveGospelAsWritten(cache: Cache, url: string, day: Date, engine: Engine, provider: Provider): Lookup
  {
    ResolveGospelStoring(cache, url, day, engine, provider, false)
  }

  /** The older gospel lookup with the extracted gospel cached, as evidently intended. */
  function ResolveGospel(cache: Cache, url: string, day: Date, engine: Engine, provider: Provider): Lookup
  {
    ResolveGospelStoring(cache, url, day, engine, provider, true)
  }

  /** The older gospel lookup; `storeExtracted` says whether the extracted value or nil is cached. */
  function ResolveGospelStoring(cache: Cache, url: string, day: Date, engine: Engine, provider: Provider,
                                storeExtracted: bool): Lookup
  {
    var today := Format(day);
    var key := GospelPrefix + today;
    var hit := GospelFromCache(cache, key);
    if hit.Ok? then Lookup(hit, cache, false)
    else
      var o := provider(url, today);
      if !o.Records? then Lookup(Err(RequestError(o)), cache, true)
      else if |o.records| <= 0 then Lookup(Err("no gospel found for day " + today), cache, true)
      else
        var g := LegacyFromResponse(o.records[0], engine);
        Lookup(Ok(Ref(g)), cache[key := Artifact(if storeExtracted then Ref(g) else Nil)], true)
  }

  // ---------------------------------------------------------------------------
  // Client options

  /** The two client settings. */
  datatype Settings = Settings(url: string, ttl: int)

  /** `SetURL` and `SetCacheTTL`. */
  datatype ClientOption = SetURL(url: string) | SetCacheTTL(ttl: int)

  /** An option's effect on the settings, and the option it returns. */
  function ApplyOption(o: ClientOption, s: Settings): (Settings, ClientOption)
  {
    match o
    case SetURL(u) => (s.(url := u), SetURL(s.url))
    case SetCacheTTL(t) => (s.(ttl := t), SetCacheTTL(s.ttl))
  }

  /** Options applied left to right. */
  function ApplyOptions(opts: seq<ClientOption>, s: Settings): Settings
    decreases |opts|
  {
    if opts == [] then s else ApplyOptions(opts[1..], ApplyOption(opts[0], s).0)
  }

  class Client {
    var url: string
    var ttl: int
    var cache: Cache
    ghost var fetches: nat

    ghost predicate Valid()
      reads this
    {
      NoNilArtifact(cache)
    }

    /** `NewClient`: the defaults, then each option in turn, then an empty cache. */
    constructor (opts: seq<ClientOption>)
      ensures Settings(url, ttl) == ApplyOptions(opts, Settings(DefaultURL, DefaultTTL))
      ensures cache == map[] && fetches == 0
      ensures Valid()
    {
      url, ttl := DefaultURL, DefaultTTL;
      cache := map[];
      fetches := 0;
      new;
      var i := 0;
      while i < |opts|
        invariant 0 <= i <= |opts|
        invariant ApplyOptions(opts[i..], Settings(url, ttl)) == ApplyOptions(opts, Settings(DefaultURL, DefaultTTL))
        invariant cache == map[] && fetches == 0
        modifies this
      {
        assert opts[i..][1..] == opts[i + 1..];
        var _ := Apply(opts[i]);
        i := i + 1;
      }
    }

    /** Runs one option closure on this client; returns its undo. */
    method Apply(o: ClientOption) returns (undo: ClientOption)
      modifies this
      ensures (Settings(url, ttl), undo) == ApplyOption(o, old(Settings(url, ttl)))
      ensures cache == old(cache) && fetches == old(fetches)
    {
      match o
      case SetURL(u) =>
        var prev := url;
        url := u;
        undo := SetURL(prev);
      case SetCacheTTL(t) =>
        var prev := ttl;
        ttl := t;
        undo := SetCacheTTL(prev);
    }

    /** `saveInCache`. */
    method SaveInCache(key: string, v: CacheValue)
      modifies this
      ensures cache == old(cache)[key := v]
      ensures url == old(url) && ttl == old(ttl) && fetches == old(fetches)
    {
      cache := cache[key := v];
    }

    /** One provider round trip. */
    method Fetch(provider: Provider, today: string) returns (o: FetchOutcome)
      modifies this
      ensures o == provider(url, today)
      ensures fetches == old(fetches) + 1
      ensures url == old(url) && ttl == old(ttl) && cache == old(cache)
    {
      o := provider(url, today);
      fetches := fetches + 1;
    }

    /** `getGospelOrLecture`. */
    method GetGospelOrLecture(s: Section, day: Date, engine: Engine, provider: Provider) returns (r: Result<GospelRef>)
      modifies this
      ensures var l := Resolve(old(cache), url, s, day, engine, provider);
              r == l.result && cache == l.cache && fetches == old(fetches) + (if l.fetched then 1 else 0)
      ensures url == old(url) && ttl == old(ttl)
      ensures old(Valid()) ==> Valid()
    {
      ResolveKeepsNoNil(cache, url, s, day, engine, provider);
      var today := Format(day);
      var g := GospelFromCache(cache, s.cachePrefix + today);
      if g.Ok? {
        return g;
      }
      var raw := ResponseFromCache(cache, ResponsePrefix + today);
      if raw.Ok? {
        var e := GospelOrLectureFromResponse(raw.value, s.pattern, s.psalm, engine);
        if e.Err? {
          return Err(ExtractionFailed + e.msg);
        }
        SaveInCache(s.cachePrefix + today, Artifact(Ref(e.value)));
        return Ok(Ref(e.value));
      }
      var o := Fetch(provider, today);
      if !o.Records? {
        return Err(RequestError(o));
      }
      if |o.records| <= 0 {
        return Err("no gospel or lecture found for day " + today);
      }
      SaveInCache(ResponsePrefix + today, Response(o.records[0]));
      var e := GospelOrLectureFromResponse(o.records[0], s.pattern, s.psalm, engine);
      if e.Err? {
        return Err(ExtractionFailed + e.msg);
      }
      SaveInCache(s.cachePrefix + today, Artifact(Ref(e.value)));
      r := Ok(Ref(e.value));
    }

    /** `GetFirstLecture`. */
    method GetFirstLecture(day: Date, engine: Engine, provider: Provider) returns (r: Result<GospelRef>)
      modifies this
      ensures var l := Resolve(old(cache), url, FirstLecture, day, engine, provider);
              r == l.result && cache == l.cache && fetches == old(fetches) + (if l.fetched then 1 else 0)
      ensures url == old(url) && ttl == old(ttl)
      ensures old(Valid()) ==> Valid()
    {
      r := GetGospelOrLecture(FirstLecture, day, engine, provider);
    }

    /** `GetSecondLecture`. */
    method GetSecondLecture(day: Date, engine: Engine, provider: Provider) returns (r: Result<GospelRef>)
      modifies this
      ensures var l := Resolve(old(cache), url, SecondLecture, day, engine, provider);
              r == l.result && cache == l.cache && fetches == old(fetches) + (if l.fetched then 1 else 0)
      ensures url == old(url) && ttl == old(ttl)
      ensures old(Valid()) ==> Valid()
    {
      r := GetGospelOrLecture(SecondLecture, day, engine, provider);
    }

    /** `GetPsalm`. */
    method GetPsalm(day: Date, engine: Engine, provider: Provider) returns (r: Result<GospelRef>)
      modifies this
      ensures var l := Resolve(old(cache), url, Psalm, day, engine, provider);
              r == l.result && cache == l.cache && fetches == old(fetches) + (if l.fetched then 1 else 0)
      ensures url == old(url) && ttl == old(ttl)
      ensures old(Valid()) ==> Valid()
    {
      r := GetGospelOrLecture(Psalm, day, engine, provider);
    }

    /**
     * The older `GetGospel`, as written: after a fetch it returns the
     * extracted gospel but caches the nil pointer left over from the cache miss.
     */
    method GetGospelAsWritten(day: Date, engine: Engine, provider: Provider) returns (r: Result<GospelRef>)
      modifies this
      ensures var l := ResolveGospelAsWritten(old(cache), url, day, engine, provider);
              r == l.result && cache == l.cache && fetches == old(fetches) + (if l.fetched then 1 else 0)
      ensures url == old(url) && ttl == old(ttl)
    {
      r := GospelLookup(day, engine, provider, false);
    }

    /** The older `GetGospel`, caching the gospel it extracted. */
    method GetGospel(day: Date, engine: Engine, provider: Provider) returns (r: Result<GospelRef>)
      modifies this
      ensures var l := ResolveGospel(old(cache), url, day, engine, provider);
              r == l.result && cache == l.cache && fetches == old(fetches) + (if l.fetched then 1 else 0)
      ensures url == old(url) && ttl == old(ttl)
      ensures old(Valid()) ==> Valid()
    {
      ResolveGospelKeepsNoNil(cache, url, day, engine, provider);
      r := GospelLookup(day, engine, provider, true);
    }

    /** The body of the older `GetGospel`; `storeExtracted` chooses what is cached after a fetch. */
    method GospelLookup(day: Date, engine: Engine, provider: Provider, storeExtracted: bool) returns (r: Result<GospelRef>)
      modifies this
      ensures var l := ResolveGospelStoring(old(cache), url, day, engine, provider, storeExtracted);
              r == l.result && cache == l.cache && fetches == old(fetches) + (if l.fetched then 1 else 0)
      ensures url == old(url) && ttl == old(ttl)
    {
      var today := Format(day);
      var gospel := GospelFromCache(cache, GospelPrefix + today);
      if gospel.Ok? {
        return gospel;
      }
      var missed: GospelRef := Nil;
      var o := Fetch(provider, today);
      if !o.Records? {
        return Err(RequestError(o));
      }
      if |o.records| <= 0 {
        return Err("no gospel found for day " + today);
      }
      var g := LegacyGospelFromResponse(o.records[0], engine);
      SaveInCache(GospelPrefix + today, Artifact(if storeExtracted then Ref(g) else missed));
      r := Ok(Ref(g));
    }
  }

  // ---------------------------------------------------------------------------
  // Laws of the lookup

  /** Key spelling: two artifact keys with one prefix are equal only for the same day. */
  lemma ArtifactKeyInjective(prefix: string, a: Date, b: Date)
    requires ArtifactKey(prefix, a) == ArtifactKey(prefix, b)
    ensures a == b
  {
    assert Format(a) == ArtifactKey(prefix, a)[|prefix|..];
    assert Format(b) == ArtifactKey(prefix, b)[|prefix|..];
    FormatInjective(a, b);
  }

  /** No section's artifact key is ever a raw-record key or a gospel key. */
  lemma KeysApart(s: Section, a: Date, b: Date)
    requires IsSection(s)
    ensures ArtifactKey(s.cachePrefix, a) != ResponseKey(b)
    ensures ArtifactKey(s.cachePrefix, a) != ArtifactKey(GospelPrefix, b)
    ensures forall t :: IsSection(t) && t != s ==> ArtifactKey(s.cachePrefix, a) != ArtifactKey(t.cachePrefix, b)
  {
    PrefixesDistinct(s);
    assert ArtifactKey(s.cachePrefix, a)[0] == s.cachePrefix[0];
    assert ResponseKey(b)[0] == ResponsePrefix[0];
    assert ArtifactKey(GospelPrefix, b)[0] == GospelPrefix[0];
    forall t | IsSection(t) && t != s
      ensures ArtifactKey(s.cachePrefix, a) != ArtifactKey(t.cachePrefix, b)
    {
      assert ArtifactKey(t.cachePrefix, b)[0] == t.cachePrefix[0];
    }
  }

  /** A cached artifact is returned as it is, with no fetch and no cache write. */
  lemma ArtifactHit(cache: Cache, url: string, s: Section, day: Date, engine: Engine, provider: Provider)
    requires ArtifactKey(s.cachePrefix, day) in cache
    requires cache[ArtifactKey(s.cachePrefix, day)].Artifact?
    ensures var l := Resolve(cache, url, s, day, engine, provider);
            l.result == Ok(cache[ArtifactKey(s.cachePrefix, day)].ref) && l.cache == cache && !l.fetched
  {
  }

  /**
   * With no artifact cached but the day's raw record present, the lookup
   * extracts from the record, caches the artifact (and nothing else), and
   * does not fetch.
   */
  lemma ResponseHit(cache: Cache, url: string, s: Section, day: Date, engine: Engine, provider: Provider)
    requires GospelFromCache(cache, ArtifactKey(s.cachePrefix, day)).Err?
    requires ResponseKey(day) in cache && cache[ResponseKey(day)].Response?
    ensures var l := Resolve(cache, url, s, day, engine, provider);
            var x := FromResponse(cache[ResponseKey(day)].record, s.pattern, s.psalm, engine);
            !l.fetched &&
            (x.Ok? ==> l.result == Ok(Ref(x.value)) &&
                       l.cache == cache[ArtifactKey(s.cachePrefix, day) := Artifact(Ref(x.value))]) &&
            (x.Err? ==> l.result == Err(ExtractionFailed + x.msg) && l.cache == cache)
  {
  }

  /** The provider is called exactly when neither the artifact nor the day's raw record is cached. */
  lemma FetchOnlyOnMiss(cache: Cache, url: string, s: Section, day: Date, engine: Engine, provider: Provider)
    ensures Resolve(cache, url, s, day, engine, provider).fetched <==>
              GospelFromCache(cache, ArtifactKey(s.cachePrefix, day)).Err? &&
              ResponseFromCache(cache, ResponseKey(day)).Err?
  {
  }

  /**
   * A fetch that yields records leaves the raw record cached under the day's
   * raw key, whatever the extraction gives; a successful one also leaves the
   * artifact cached. An empty array is an error and caches nothing.
   */
  lemma FetchStores(cache: Cache, url: string, s: Section, day: Date, engine: Engine, provider: Provider)
    requires IsSection(s)
    requires Resolve(cache, url, s, day, engine, provider).fetched
    ensures var l := Resolve(cache, url, s, day, engine, provider);
            var o := provider(url, Format(day));
            (o.Records? && |o.records| > 0 ==>
               ResponseKey(day) in l.cache && l.cache[ResponseKey(day)] == Response(o.records[0])) &&
            (l.result.Ok? ==>
               ArtifactKey(s.cachePrefix, day) in l.cache &&
               l.cache[ArtifactKey(s.cachePrefix, day)] == Artifact(l.result.value)) &&
            (o.Records? && |o.records| == 0 ==>
               l.result == Err("no gospel or lecture found for day " + Format(day)) && l.cache == cache) &&
            (!o.Records? ==> l.result == Err(RequestError(o)) && l.cache == cache)
  {
    KeysApart(s, day, day);
  }

  /**
   * A repeated lookup for the same section and day after a successful one
   * fetches nothing, writes nothing and returns the same result: the provider
   * is asked at most once per section and day.
   */
  lemma RepeatNoFetch(cache: Cache, url: string, s: Section, day: Date, engine: Engine, provider: Provider)
    requires Resolve(cache, url, s, day, engine, provider).result.Ok?
    ensures var l1 := Resolve(cache, url, s, day, engine, provider);
            var l2 := Resolve(l1.cache, url, s, day, engine, provider);
            !l2.fetched && l2.result == l1.result && l2.cache == l1.cache
  {
  }

  /**
   * Once any section has fetched the day's records, every other section of
   * the same day is served from the cached raw record without a fetch.
   */
  lemma OtherSectionNoFetch(cache: Cache, url: string, s: Section, t: Section, day: Date, engine: Engine,
                            provider: Provider)
    requires IsSection(s) && IsSection(t)
    requires var o := provider(url, Format(day)); o.Records? && |o.records| > 0
    requires Resolve(cache, url, s, day, engine, provider).fetched
    ensures var l1 := Resolve(cache, url, s, day, engine, provider);
            !Resolve(l1.cache, url, t, day, engine, provider).fetched
  {
    KeysApart(s, day, day);
  }

  /** The shared lookup never caches a nil pointer and never returns one unless one was cached. */
  lemma ResolveKeepsNoNil(cache: Cache, url: string, s: Section, day: Date, engine: Engine, provider: Provider)
    ensures var l := Resolve(cache, url, s, day, engine, provider);
            NoNilArtifact(cache) ==> NoNilArtifact(l.cache) && l.result != Ok(Nil)
  {
  }

  lemma ResolveGospelKeepsNoNil(cache: Cache, url: string, day: Date, engine: Engine, provider: Provider)
    ensures var l := ResolveGospel(cache, url, day, engine, provider);
            NoNilArtifact(cache) ==> NoNilArtifact(l.cache) && l.result != Ok(Nil)
  {
  }

  /** The shared lookup returns nil only when nil was cached under its own key, and it never caches nil. */
  lemma ResolveNilLocal(cache: Cache, url: string, s: Section, day: Date, engine: Engine, provider: Provider)
    ensures var l := Resolve(cache, url, s, day, engine, provider);
            var key := ArtifactKey(s.cachePrefix, day);
            (l.result == Ok(Nil) ==> key in cache && cache[key] == Artifact(Nil)) &&
            (forall k | k in l.cache && l.cache[k] == Artifact(Nil) :: k in cache && cache[k] == Artifact(Nil))
  {
  }

  /** Whether a cache key is one of the older gospel lookup's keys. */
  predicate IsGospelKey(k: string)
  {
    |GospelPrefix| <= |k| && k[..|GospelPrefix|] == GospelPrefix
  }

  /** Every nil artifact sits under a gospel key: what the lookups as written can leave behind. */
  predicate NilOnlyGospel(cache: Cache)
  {
    forall k | k in cache && cache[k] == Artifact(Nil) :: IsGospelKey(k)
  }

  /**
   * With nil cached under gospel keys at most, a section lookup finds no nil
   * and caches none.
   */
  lemma ResolveKeepsNilOnlyGospel(cache: Cache, url: string, s: Section, day: Date, engine: Engine, provider: Provider)
    requires IsSection(s) && NilOnlyGospel(cache)
    ensures var l := Resolve(cache, url, s, day, engine, provider);
            NilOnlyGospel(l.cache) && l.result != Ok(Nil)
  {
    ResolveNilLocal(cache, url, s, day, engine, provider);
    var key := ArtifactKey(s.cachePrefix, day);
    PrefixesDistinct(s);
    assert key[0] == s.cachePrefix[0];
  }

  /** The older gospel lookup, as written or corrected, caches nil under its own key at most. */
  lemma ResolveGospelKeepsNilOnlyGospel(cache: Cache, url: string, day: Date, engine: Engine, provider: Provider,
                                        storeExtracted: bool)
    requires NilOnlyGospel(cache)
    ensures NilOnlyGospel(ResolveGospelStoring(cache, url, day, engine, provider, storeExtracted).cache)
  {
    var key := ArtifactKey(GospelPrefix, day);
    assert key[..|GospelPrefix|] == GospelPrefix;
  }

  /** The older gospel lookup: a cached gospel is returned without a fetch; an empty array is an error. */
  lemma GospelLookupLaws(cache: Cache, url: string, day: Date, engine: Engine, provider: Provider, storeExtracted: bool)
    ensures var l := ResolveGospelStoring(cache, url, day, engine, provider, storeExtracted);
            var key := ArtifactKey(GospelPrefix, day);
            var o := provider(url, Format(day));
            (key in cache && cache[key].Artifact? ==> l.result == Ok(cache[key].ref) && !l.fetched && l.cache == cache) &&
            (l.fetched && o.Records? && |o.records| == 0 ==> l.result == Err("no gospel found for day " + Format(day))) &&
            (ResponseKey(day) in l.cache ==> ResponseKey(day) in cache && l.cache[ResponseKey(day)] == cache[ResponseKey(day)])
  {
    assert ArtifactKey(GospelPrefix, day)[0] == 'g';
    assert ResponseKey(day)[0] == 'r';
  }

  /**
   * As written, the older gospel lookup answers a second request for a day it
   * has just fetched with a nil gospel and no error, and without a fetch.
   */
  lemma GospelSecondLookupNil(cache: Cache, url: string, day: Date, engine: Engine, provider: Provider)
    requires ArtifactKey(GospelPrefix, day) !in cache
    requires var o := provider(url, Format(day)); o.Records? && |o.records| > 0
    ensures var l1 := ResolveGospelAsWritten(cache, url, day, engine, provider);
            var l2 := ResolveGospelAsWritten(l1.cache, url, day, engine, provider);
            l1.result.Ok? && l1.result.value.Ref? &&
            l2.result == Ok(Nil) && !l2.fetched
  {
  }

  /** Corrected, the second request for the day returns the same gospel, still without a fetch. */
  lemma GospelSecondLookupSame(cache: Cache, url: string, day: Date, engine: Engine, provider: Provider)
    requires ResolveGospel(cache, url, day, engine, provider).result.Ok?
    ensures var l1 := ResolveGospel(cache, url, day, engine, provider);
            var l2 := ResolveGospel(l1.cache, url, day, engine, provider);
            l2.result == l1.result && !l2.fetched && l2.cache == l1.cache
  {
  }

  /** Each option returns the option that restores the previous setting, and the undo of the undo is the option itself. */
  lemma UndoRestores(o: ClientOption, s: Settings)
    ensures var (s1, undo) := ApplyOption(o, s);
            var (s2, redo) := ApplyOption(undo, s1);
            s2 == s && redo == o
  {
  }

  /** Options applied left to right: the last `SetURL` in the list decides the URL. */
  lemma {:induction false} LastURLWins(opts: seq<ClientOption>, u: string, rest: seq<ClientOption>, s: Settings)
    requires forall i :: 0 <= i < |rest| ==> !rest[i].SetURL?
    ensures ApplyOptions(opts + [SetURL(u)] + rest, s).url == u
    decreases |opts|
  {
    if opts == [] {
      assert ([] + [SetURL(u)] + rest)[1..] == rest;
      RestKeepsURL(rest, s.(url := u));
    } else {
      assert (opts + [SetURL(u)] + rest)[1..] == opts[1..] + [SetURL(u)] + rest;
      LastURLWins(opts[1..], u, rest, ApplyOption(opts[0], s).0);
    }
  }

  /** Options other than `SetURL` leave the URL alone. */
  lemma {:induction false} RestKeepsURL(rest: seq<ClientOption>, s: Settings)
    requires forall i :: 0 <= i < |rest| ==> !rest[i].SetURL?
    ensures ApplyOptions(rest, s).url == s.url
    decreases |rest|
  {
    if rest != [] {
      RestKeepsURL(rest[1..], ApplyOption(rest[0], s).0);
    }
  }
}
