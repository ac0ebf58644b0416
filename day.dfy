/**
 * The four lookups a handler makes for one day, in the order both the
 * on-demand and the daily handler make them: gospel, first lecture, psalm,
 * second lecture. A failed lookup is logged as fatal and ends the process;
 * otherwise the sections are assembled into a `Magnificat`, with the second
 * lecture present only when it has content.
 *
 * The gospel comes from the older lookup. The handlers call it as written
 * (`Client.GetGospelAsWritten`), which caches a nil gospel after a fetch;
 * `Gather` takes the choice as `storeExtracted` so that the corrected lookup
 * can be stated beside it.
 */
module Day {
  import opened Wrappers
  import opened Calendar
  import opened Extract
  import opened Sections
  import opened Archimadrid

  /**
   * How the day's lookups end: a fatal log with its message and the error
   * (after which the process exits), a dereference of a nil section, or the
   * assembled day.
   */
  datatype DayResult = Fatal(message: string, error: string) | NilDereference | Day(m: Magnificat)

  /** How a handler ends: the process exits after a fatal log, a nil section is dereferenced, or it returns. */
  datatype Outcome = Exited(message: string, cause: string) | Panicked | Returned(error: Option<string>)

  /** The outcome of the four lookups, the cache after them and the number of provider calls. */
  datatype Gathered = Gathered(result: DayResult, cache: Cache, fetches: nat)

  /** `Magnificat` assembly: the day is the gospel's; the second lecture is set only when its content is non-empty. */
  function Assemble(gospel: Gospel, first: Gospel, psalm: Gospel, second: Gospel): (m: Magnificat)
    ensures m.day == gospel.day && m.gospel == gospel && m.firstLecture == first && m.psalm == psalm
    ensures m.secondLecture.Some? <==> |second.content| > 0
    ensures m.secondLecture.Some? ==> m.secondLecture.value == second
  {
    Magnificat(gospel.day, first, psalm, if |second.content| > 0 then Some(second) else None, gospel)
  }

  function Fetched(l: Lookup): nat
  {
    if l.fetched then 1 else 0
  }

  /** A section lookup after the gospel's, with the message logged when it fails. */
  datatype Stage = Stage(section: Section, failure: string)

  const FirstStage := Stage(FirstLecture, "error getting first lecture")
  const PsalmStage := Stage(Psalm, "error getting psalm")
  const SecondStage := Stage(SecondLecture, "error getting second lecture")

  /** The section lookups after the gospel's, in the handlers' order. */
  const Stages: seq<Stage> := [FirstStage, PsalmStage, SecondStage]

  /** Stages over distinct sections of the three. */
  predicate ValidStages(stages: seq<Stage>)
  {
    (forall i :: 0 <= i < |stages| ==> IsSection(stages[i].section)) &&
    (forall i, j :: 0 <= i < j < |stages| ==> stages[i].section != stages[j].section)
  }

  /** A section lookup as a function of the cache before it, everything else fixed. */
  type Resolver = (Cache, Section) -> Lookup

  /** The handlers' section lookup: `getGospelOrLecture` for one day on the client's url. */
  function Lookups(url: string, day: Date, engine: Engine, provider: Provider): Resolver
  {
    (c: Cache, s: Section) => Resolve(c, url, s, day, engine, provider)
  }

  /**
   * The four lookups as a function of the cache before them; the first
   * failure ends them. The gospel lookup caches the extracted gospel when
   * `storeExtracted` holds and nil otherwise, as the code is written.
   */
  function Gather(cache: Cache, url: string, day: Date, engine: Engine, provider: Provider, storeExtracted: bool)
    : Gathered
  {
    var l1 := ResolveGospelStoring(cache, url, day, engine, provider, storeExtracted);
    if l1.result.Err? then Gathered(Fatal("error getting gospel", l1.result.msg), l1.cache, Fetched(l1))
    else Conclude(GatherFrom([l1.result.value], l1.cache, Fetched(l1), Stages, Lookups(url, day, engine, provider)))
  }

  /** What the section lookups found: the first failure with its message, or every section looked up. */
  datatype Findings = Failed(message: string, error: string) | Found(refs: seq<GospelRef>)

  /** The sections, the cache after their lookups and the number of provider calls so far. */
  datatype Collected = Collected(sections: Findings, cache: Cache, fetches: nat)

  /**
   * The lookups of `stages` by `resolve`, after those that found `found` and
   * left `cache` with `fetches` provider calls; the first failure ends them.
   */
  function GatherFrom(found: seq<GospelRef>, cache: Cache, fetches: nat, stages: seq<Stage>, resolve: Resolver)
    : (c: Collected)
    ensures c.sections.Found? ==> |c.sections.refs| == |found| + |stages|
    decreases |stages|
  {
    if stages == [] then Collected(Found(found), cache, fetches)
    else
      var l := resolve(cache, stages[0].section);
      if l.result.Err? then Collected(Failed(stages[0].failure, l.result.msg), l.cache, fetches + Fetched(l))
      else GatherFrom(found + [l.result.value], l.cache, fetches + Fetched(l), stages[1..], resolve)
  }

  /** The four sections found, in lookup order: a nil one is dereferenced, otherwise they are assembled. */
  function Conclude(c: Collected): Gathered
    requires c.sections.Found? ==> |c.sections.refs| == 4
  {
    match c.sections
    case Failed(message, error) => Gathered(Fatal(message, error), c.cache, c.fetches)
    case Found(refs) =>
      if refs[0].Nil? || refs[1].Nil? || refs[2].Nil? || refs[3].Nil? then Gathered(NilDereference, c.cache, c.fetches)
      else Gathered(Day(Assemble(refs[0].gospel, refs[1].gospel, refs[2].gospel, refs[3].gospel)), c.cache, c.fetches)
  }

  /** The handlers' lookup sequence on the shared client: the gospel as written, then the rest. */
  method FetchDay(client: Client, day: Date, engine: Engine, provider: Provider) returns (d: DayResult)
    modifies client
    ensures var g := Gather(old(client.cache), client.url, day, engine, provider, false);
            d == g.result && client.cache == g.cache && client.fetches == old(client.fetches) + g.fetches
    ensures client.url == old(client.url) && client.ttl == old(client.ttl)
  {
    ghost var l1 := ResolveGospelAsWritten(client.cache, client.url, day, engine, provider);
    var gospel := client.GetGospelAsWritten(day, engine, provider);
    if gospel.Err? {
      return Fatal("error getting gospel", gospel.msg);
    }
    d := FetchFirst(client, day, engine, provider, [gospel.value], Stages, Fetched(l1));
  }

  /** The first-lecture lookup after the gospel's that found `found`, then the rest. */
  method FetchFirst(client: Client, day: Date, engine: Engine, provider: Provider, found: seq<GospelRef>,
                    ghost stages: seq<Stage>, ghost n: nat) returns (d: DayResult)
    requires |found| == 1 && stages == Stages
    modifies client
    ensures var g := Conclude(GatherFrom(found, old(client.cache), n, stages, Lookups(client.url, day, engine, provider)));
            d == g.result && client.cache == g.cache && client.fetches == old(client.fetches) + g.fetches - n
    ensures client.url == old(client.url) && client.ttl == old(client.ttl)
  {
    LookupsApply(client.url, day, engine, provider, client.cache, FirstLecture);
    var first := client.GetFirstLecture(day, engine, provider);
    if first.Err? {
      return Fatal("error getting first lecture", first.msg);
    }
    assert stages[1..] == [PsalmStage, SecondStage];
    d := FetchRest(client, day, engine, provider, found + [first.value], stages[1..],
                   n + client.fetches - old(client.fetches));
  }

  /** The psalm lookup after the two that found `found`, then the rest. */
  method FetchRest(client: Client, day: Date, engine: Engine, provider: Provider, found: seq<GospelRef>,
                   ghost stages: seq<Stage>, ghost n: nat) returns (d: DayResult)
    requires |found| == 2 && stages == [PsalmStage, SecondStage]
    modifies client
    ensures var g := Conclude(GatherFrom(found, old(client.cache), n, stages, Lookups(client.url, day, engine, provider)));
            d == g.result && client.cache == g.cache && client.fetches == old(client.fetches) + g.fetches - n
    ensures client.url == old(client.url) && client.ttl == old(client.ttl)
  {
    LookupsApply(client.url, day, engine, provider, client.cache, Psalm);
    var psalm := client.GetPsalm(day, engine, provider);
    if psalm.Err? {
      return Fatal("error getting psalm", psalm.msg);
    }
    assert stages[1..] == [SecondStage];
    d := FetchLast(client, day, engine, provider, found + [psalm.value], stages[1..],
                   n + client.fetches - old(client.fetches));
  }

  /** The second-lecture lookup after the three that found `found`, then the assembly. */
  method FetchLast(client: Client, day: Date, engine: Engine, provider: Provider, found: seq<GospelRef>,
                   ghost stages: seq<Stage>, ghost n: nat) returns (d: DayResult)
    requires |found| == 3 && stages == [SecondStage]
    modifies client
    ensures var g := Conclude(GatherFrom(found, old(client.cache), n, stages, Lookups(client.url, day, engine, provider)));
            d == g.result && client.cache == g.cache && client.fetches == old(client.fetches) + g.fetches - n
    ensures client.url == old(client.url) && client.ttl == old(client.ttl)
  {
    LookupsApply(client.url, day, engine, provider, client.cache, SecondLecture);
    var second := client.GetSecondLecture(day, engine, provider);
    if second.Err? {
      return Fatal("error getting second lecture", second.msg);
    }
    assert stages[1..] == [];
    var all := found + [second.value];
    if all[0].Nil? || all[1].Nil? || all[2].Nil? || all[3].Nil? {
      return NilDereference;
    }
    d := Day(Assemble(all[0].gospel, all[1].gospel, all[2].gospel, all[3].gospel));
  }

  // ---------------------------------------------------------------------------
  // What a section lookup does to the cache

  /** Once the day's raw record is cached, a section lookup does not fetch and the record stays. */
  ghost predicate KeepsRaw(resolve: Resolver, day: Date)
  {
    forall c: Cache, s: Section {:trigger resolve(c, s)} | IsSection(s) && ResponseFromCache(c, ResponseKey(day)).Ok? ::
      !resolve(c, s).fetched && ResponseFromCache(resolve(c, s).cache, ResponseKey(day)) == ResponseFromCache(c, ResponseKey(day))
  }

  /** A section lookup that fetched and succeeded leaves the day's raw record cached. */
  ghost predicate FetchCachesRaw(resolve: Resolver, day: Date)
  {
    forall c: Cache, s: Section {:trigger resolve(c, s)} | IsSection(s) && resolve(c, s).fetched && resolve(c, s).result.Ok? ::
      ResponseFromCache(resolve(c, s).cache, ResponseKey(day)).Ok?
  }

  /** A lookup keeps a cache free of nil artifacts and finds no nil section in it. */
  ghost predicate KeepsNoNil(resolve: Resolver)
  {
    forall c: Cache, s: Section {:trigger resolve(c, s)} | NoNilArtifact(c) :: NoNilArtifact(resolve(c, s).cache) && resolve(c, s).result != Ok(Nil)
  }

  /** `after` holds what `before` holds under every key but `a` and `b`. */
  ghost predicate SameExcept(before: Cache, after: Cache, a: string, b: string)
  {
    forall k {:trigger Entry(after, k)} | k != a && k != b :: Entry(after, k) == Entry(before, k)
  }

  /** What `cache` holds under `k`, if anything. */
  ghost function Entry(cache: Cache, k: string): Option<CacheValue>
  {
    if k in cache then Some(cache[k]) else None
  }

  /** A lookup writes at most its section's artifact key and the day's raw key. */
  ghost predicate WritesOwnKeys(resolve: Resolver, day: Date)
  {
    forall c: Cache, s: Section {:trigger resolve(c, s)} ::
      SameExcept(c, resolve(c, s).cache, ArtifactKey(s.cachePrefix, day), ResponseKey(day))
  }

  /** A successful section lookup leaves its result cached under its artifact key. */
  ghost predicate CachesResult(resolve: Resolver, day: Date)
  {
    forall c: Cache, s: Section {:trigger resolve(c, s)} | IsSection(s) && resolve(c, s).result.Ok? ::
      ArtifactKey(s.cachePrefix, day) in resolve(c, s).cache &&
      resolve(c, s).cache[ArtifactKey(s.cachePrefix, day)] == Artifact(resolve(c, s).result.value)
  }

  /** A lookup whose artifact is cached returns it, with no write and no fetch. */
  ghost predicate HitsCache(resolve: Resolver, day: Date)
  {
    forall c: Cache, s: Section {:trigger resolve(c, s)} |
      ArtifactKey(s.cachePrefix, day) in c && c[ArtifactKey(s.cachePrefix, day)].Artifact? ::
      resolve(c, s) == Lookup(Ok(c[ArtifactKey(s.cachePrefix, day)].ref), c, false)
  }

  lemma LookupsKeepRaw(url: string, day: Date, engine: Engine, provider: Provider)
    ensures KeepsRaw(Lookups(url, day, engine, provider), day)
  {
    var resolve := Lookups(url, day, engine, provider);
    forall c: Cache, s: Section | IsSection(s) && ResponseFromCache(c, ResponseKey(day)).Ok?
      ensures !resolve(c, s).fetched &&
              ResponseFromCache(resolve(c, s).cache, ResponseKey(day)) == ResponseFromCache(c, ResponseKey(day))
    {
      KeysApart(s, day, day);
    }
  }

  lemma LookupsFetchCachesRaw(url: string, day: Date, engine: Engine, provider: Provider)
    ensures FetchCachesRaw(Lookups(url, day, engine, provider), day)
  {
    var resolve := Lookups(url, day, engine, provider);
    forall c: Cache, s: Section | IsSection(s) && resolve(c, s).fetched && resolve(c, s).result.Ok?
      ensures ResponseFromCache(resolve(c, s).cache, ResponseKey(day)).Ok?
    {
      KeysApart(s, day, day);
    }
  }

  lemma LookupsKeepNoNil(url: string, day: Date, engine: Engine, provider: Provider)
    ensures KeepsNoNil(Lookups(url, day, engine, provider))
  {
    var resolve := Lookups(url, day, engine, provider);
    forall c: Cache, s: Section | NoNilArtifact(c)
      ensures NoNilArtifact(resolve(c, s).cache) && resolve(c, s).result != Ok(Nil)
    {
      ResolveKeepsNoNil(c, url, s, day, engine, provider);
    }
  }

  lemma LookupsWriteOwnKeys(url: string, day: Date, engine: Engine, provider: Provider)
    ensures WritesOwnKeys(Lookups(url, day, engine, provider), day)
  {
    var resolve := Lookups(url, day, engine, provider);
    forall c: Cache, s: Section
      ensures SameExcept(c, resolve(c, s).cache, ArtifactKey(s.cachePrefix, day), ResponseKey(day))
    {
      assert resolve(c, s) == Resolve(c, url, s, day, engine, provider);
    }
  }

  /** The handlers' lookup of a section is `getGospelOrLecture`'s. */
  lemma LookupsApply(url: string, day: Date, engine: Engine, provider: Provider, c: Cache, s: Section)
    ensures Lookups(url, day, engine, provider)(c, s) == Resolve(c, url, s, day, engine, provider)
  {
  }

  lemma LookupsCacheResult(url: string, day: Date, engine: Engine, provider: Provider)
    ensures CachesResult(Lookups(url, day, engine, provider), day)
  {
    var resolve := Lookups(url, day, engine, provider);
    forall c: Cache, s: Section | IsSection(s) && resolve(c, s).result.Ok?
      ensures ArtifactKey(s.cachePrefix, day) in resolve(c, s).cache &&
              resolve(c, s).cache[ArtifactKey(s.cachePrefix, day)] == Artifact(resolve(c, s).result.value)
    {
      KeysApart(s, day, day);
    }
  }

  lemma LookupsHitCache(url: string, day: Date, engine: Engine, provider: Provider)
    ensures HitsCache(Lookups(url, day, engine, provider), day)
  {
    var resolve := Lookups(url, day, engine, provider);
    forall c: Cache, s: Section | ArtifactKey(s.cachePrefix, day) in c && c[ArtifactKey(s.cachePrefix, day)].Artifact?
      ensures resolve(c, s) == Lookup(Ok(c[ArtifactKey(s.cachePrefix, day)].ref), c, false)
    {
      ArtifactHit(c, url, s, day, engine, provider);
    }
  }

  /**
   * The gospel lookup writes only the gospel key; a success leaves there its
   * result, corrected, and nil after a fetch, as written.
   */
  lemma ResolveGospelFrame(cache: Cache, url: string, day: Date, engine: Engine, provider: Provider, storeExtracted: bool)
    ensures var l := ResolveGospelStoring(cache, url, day, engine, provider, storeExtracted);
            var key := ArtifactKey(GospelPrefix, day);
            (forall k :: k != key ==> (k in l.cache <==> k in cache) && (k in cache ==> l.cache[k] == cache[k])) &&
            (l.result.Ok? && storeExtracted ==> key in l.cache && l.cache[key] == Artifact(l.result.value)) &&
            (l.result.Ok? && !storeExtracted && l.fetched ==> key in l.cache && l.cache[key] == Artifact(Nil))
  {
  }

  // ---------------------------------------------------------------------------
  // Laws of the day's lookups

  /** The handlers' stages look up the three sections, each once. */
  lemma StagesValid()
    ensures ValidStages(Stages)
  {
  }

  /** The stages after the first of valid stages are valid. */
  lemma ValidTail(stages: seq<Stage>)
    requires stages != [] && ValidStages(stages)
    ensures IsSection(stages[0].section) && ValidStages(stages[1..])
    ensures forall j :: 0 <= j < |stages[1..]| ==> stages[1..][j].section != stages[0].section
  {
    assert forall j :: 0 <= j < |stages[1..]| ==> stages[1..][j] == stages[j + 1];
  }

  /** Once the day's raw record is cached, the remaining lookups call the provider no more. */
  lemma {:induction false} GatherFromNoFetch(found: seq<GospelRef>, cache: Cache, fetches: nat, stages: seq<Stage>,
                                             resolve: Resolver, day: Date)
    requires ValidStages(stages) && KeepsRaw(resolve, day)
    requires ResponseFromCache(cache, ResponseKey(day)).Ok?
    ensures GatherFrom(found, cache, fetches, stages, resolve).fetches == fetches
    decreases |stages|
  {
    if stages != [] {
      ValidTail(stages);
      var l := resolve(cache, stages[0].section);
      if l.result.Ok? {
        GatherFromNoFetch(found + [l.result.value], l.cache, fetches, stages[1..], resolve, day);
      }
    }
  }

  /** The section lookups call the provider at most once: the first fetch caches the raw record or ends them. */
  lemma {:induction false} GatherFromFetchesAtMostOne(found: seq<GospelRef>, cache: Cache, fetches: nat,
                                                      stages: seq<Stage>, resolve: Resolver, day: Date)
    requires ValidStages(stages)
    requires KeepsRaw(resolve, day) && FetchCachesRaw(resolve, day)
    ensures GatherFrom(found, cache, fetches, stages, resolve).fetches <= fetches + 1
    decreases |stages|
  {
    if stages != [] {
      ValidTail(stages);
      var l := resolve(cache, stages[0].section);
      if l.result.Ok? {
        if l.fetched {
          GatherFromNoFetch(found + [l.result.value], l.cache, fetches + 1, stages[1..], resolve, day);
        } else {
          GatherFromFetchesAtMostOne(found + [l.result.value], l.cache, fetches, stages[1..], resolve, day);
        }
      }
    }
  }

  /**
   * The provider is called at most twice for a day, whatever the cache holds:
   * once by the gospel lookup (which caches no raw record) and once by the
   * first section lookup that misses; that fetch either caches the raw
   * record for the other sections or ends the lookups.
   */
  lemma GatherFetchesAtMostTwo(cache: Cache, url: string, day: Date, engine: Engine, provider: Provider,
                               storeExtracted: bool)
    ensures Gather(cache, url, day, engine, provider, storeExtracted).fetches <= 2
  {
    var l1 := ResolveGospelStoring(cache, url, day, engine, provider, storeExtracted);
    if l1.result.Ok? {
      StagesValid();
      LookupsKeepRaw(url, day, engine, provider);
      LookupsFetchCachesRaw(url, day, engine, provider);
      GatherFromFetchesAtMostOne([l1.result.value], l1.cache, Fetched(l1), Stages, Lookups(url, day, engine, provider), day);
    }
  }

  /** The section lookups keep a cache free of nil artifacts and find no nil section in it. */
  lemma {:induction false} GatherFromNeverNil(found: seq<GospelRef>, cache: Cache, fetches: nat, stages: seq<Stage>,
                                              resolve: Resolver)
    requires KeepsNoNil(resolve)
    requires NoNilArtifact(cache) && forall j :: 0 <= j < |found| ==> found[j].Ref?
    ensures var g := GatherFrom(found, cache, fetches, stages, resolve);
            (g.sections.Found? ==> forall j :: 0 <= j < |g.sections.refs| ==> g.sections.refs[j].Ref?) &&
            NoNilArtifact(g.cache)
    decreases |stages|
  {
    if stages != [] {
      var l := resolve(cache, stages[0].section);
      if l.result.Ok? {
        var next := found + [l.result.value];
        assert forall j :: 0 <= j < |found| ==> next[j] == found[j];
        GatherFromNeverNil(next, l.cache, fetches + Fetched(l), stages[1..], resolve);
      }
    }
  }

  /**
   * With the corrected gospel lookup, the day's lookups never dereference a
   * nil section when no nil is cached, and cache none. (As written, the
   * gospel lookup itself caches the nil: see `GatherRepeatAsWritten`.)
   */
  lemma GatherNeverNil(cache: Cache, url: string, day: Date, engine: Engine, provider: Provider)
    requires NoNilArtifact(cache)
    ensures var g := Gather(cache, url, day, engine, provider, true);
            !g.result.NilDereference? && NoNilArtifact(g.cache)
  {
    var l1 := ResolveGospel(cache, url, day, engine, provider);
    ResolveGospelKeepsNoNil(cache, url, day, engine, provider);
    if l1.result.Ok? {
      LookupsKeepNoNil(url, day, engine, provider);
      GatherFromNeverNil([l1.result.value], l1.cache, Fetched(l1), Stages, Lookups(url, day, engine, provider));
    }
  }

  /** A section lookup that keeps nil under gospel keys at most, and then finds no nil. */
  ghost predicate KeepsNilOnlyGospel(resolve: Resolver)
  {
    forall c: Cache, s: Section {:trigger resolve(c, s)} | IsSection(s) && NilOnlyGospel(c) ::
      NilOnlyGospel(resolve(c, s).cache) && resolve(c, s).result != Ok(Nil)
  }

  lemma LookupsKeepNilOnlyGospel(url: string, day: Date, engine: Engine, provider: Provider)
    ensures KeepsNilOnlyGospel(Lookups(url, day, engine, provider))
  {
    var resolve := Lookups(url, day, engine, provider);
    forall c: Cache, s: Section | IsSection(s) && NilOnlyGospel(c)
      ensures NilOnlyGospel(resolve(c, s).cache) && resolve(c, s).result != Ok(Nil)
    {
      ResolveKeepsNilOnlyGospel(c, url, s, day, engine, provider);
    }
  }

  /** The section lookups add no nil to what was found and keep nil under gospel keys at most. */
  lemma {:induction false} GatherFromNilOnlyGospel(found: seq<GospelRef>, cache: Cache, fetches: nat, stages: seq<Stage>,
                                                   resolve: Resolver)
    requires KeepsNilOnlyGospel(resolve) && NilOnlyGospel(cache)
    requires forall i :: 0 <= i < |stages| ==> IsSection(stages[i].section)
    ensures var g := GatherFrom(found, cache, fetches, stages, resolve);
            (g.sections.Found? ==>
               forall j :: 0 <= j < |g.sections.refs| ==> g.sections.refs[j].Ref? || (j < |found| && g.sections.refs[j] == found[j])) &&
            NilOnlyGospel(g.cache)
    decreases |stages|
  {
    if stages != [] {
      var l := resolve(cache, stages[0].section);
      assert IsSection(stages[0].section);
      assert NilOnlyGospel(l.cache) && l.result != Ok(Nil);
      if l.result.Ok? {
        var next := found + [l.result.value];
        var rest := stages[1..];
        assert forall i :: 0 <= i < |rest| ==> rest[i] == stages[i + 1];
        GatherFromNilOnlyGospel(next, l.cache, fetches + Fetched(l), rest, resolve);
        assert GatherFrom(found, cache, fetches, stages, resolve) == GatherFrom(next, l.cache, fetches + Fetched(l), rest, resolve);
        assert forall j :: 0 <= j < |found| ==> next[j] == found[j];
      }
    }
  }

  /**
   * The caches the program builds hold nil under gospel keys at most: the
   * client starts empty, and a round of lookups, the gospel one as written
   * or corrected, keeps it so. From such a cache a round dereferences nil only
   * when the gospel lookup itself returned nil, never for another section.
   */
  lemma GatherNilOnlyGospel(cache: Cache, url: string, day: Date, engine: Engine, provider: Provider,
                            storeExtracted: bool)
    requires NilOnlyGospel(cache)
    ensures var g := Gather(cache, url, day, engine, provider, storeExtracted);
            NilOnlyGospel(g.cache) &&
            (g.result.NilDereference? ==> ResolveGospelStoring(cache, url, day, engine, provider, storeExtracted).result == Ok(Nil))
  {
    var l1 := ResolveGospelStoring(cache, url, day, engine, provider, storeExtracted);
    ResolveGospelKeepsNilOnlyGospel(cache, url, day, engine, provider, storeExtracted);
    if l1.result.Ok? {
      var resolve := Lookups(url, day, engine, provider);
      LookupsKeepNilOnlyGospel(url, day, engine, provider);
      GatherFromNilOnlyGospel([l1.result.value], l1.cache, Fetched(l1), Stages, resolve);
      ConcludeNilFirst(GatherFrom([l1.result.value], l1.cache, Fetched(l1), Stages, resolve), l1.result.value);
    }
  }

  /** Found sections of which only the first may be nil are dereferenced only when that first one is nil. */
  lemma ConcludeNilFirst(c: Collected, first: GospelRef)
    requires c.sections.Found? ==>
               |c.sections.refs| == 4 && (c.sections.refs[0].Ref? || c.sections.refs[0] == first) &&
               forall j :: 1 <= j < 4 ==> c.sections.refs[j].Ref?
    ensures Conclude(c).cache == c.cache
    ensures Conclude(c).result.NilDereference? ==> first.Nil?
  {
  }

  /** The lookups of `stages` leave alone every key that is neither the raw key nor one of their artifact keys. */
  lemma {:induction false} GatherFromFrame(found: seq<GospelRef>, cache: Cache, fetches: nat, stages: seq<Stage>,
                                           resolve: Resolver, day: Date, k: string)
    requires WritesOwnKeys(resolve, day)
    requires k != ResponseKey(day)
    requires forall j :: 0 <= j < |stages| ==> k != ArtifactKey(stages[j].section.cachePrefix, day)
    ensures Entry(GatherFrom(found, cache, fetches, stages, resolve).cache, k) == Entry(cache, k)
    decreases |stages|
  {
    if stages != [] {
      var l := resolve(cache, stages[0].section);
      if l.result.Ok? {
        assert forall j :: 0 <= j < |stages[1..]| ==> stages[1..][j] == stages[j + 1];
        GatherFromFrame(found + [l.result.value], l.cache, fetches + Fetched(l), stages[1..], resolve, day, k);
      }
    }
  }

  /** Each of `stages` has its section's artifact cached as the matching entry of `refs`. */
  ghost predicate Cached(cache: Cache, stages: seq<Stage>, refs: seq<GospelRef>, day: Date)
    requires |refs| == |stages|
    decreases |stages|
  {
    stages == [] ||
    (var key := ArtifactKey(stages[0].section.cachePrefix, day);
     key in cache && cache[key] == Artifact(refs[0]) && Cached(cache, stages[1..], refs[1..], day))
  }

  /** Lookups whose artifacts are all cached find them there, in order, and neither fetch nor write. */
  lemma {:induction false} GatherFromCached(found: seq<GospelRef>, cache: Cache, fetches: nat, stages: seq<Stage>,
                                            refs: seq<GospelRef>, resolve: Resolver, day: Date)
    requires HitsCache(resolve, day)
    requires |refs| == |stages| && Cached(cache, stages, refs, day)
    ensures GatherFrom(found, cache, fetches, stages, resolve) == Collected(Found(found + refs), cache, fetches)
    decreases |stages|
  {
    if stages == [] {
      assert found + refs == found;
    } else {
      var key := ArtifactKey(stages[0].section.cachePrefix, day);
      assert resolve(cache, stages[0].section) == Lookup(Ok(refs[0]), cache, false);
      GatherFromCached(found + [refs[0]], cache, fetches, stages[1..], refs[1..], resolve, day);
      assert found + [refs[0]] + refs[1..] == found + refs;
    }
  }

  /**
   * Successful lookups of distinct sections keep what was found before them
   * and leave each section's result cached under its artifact key.
   */
  lemma {:induction false} GatherFromLeavesCached(found: seq<GospelRef>, cache: Cache, fetches: nat,
                                                  stages: seq<Stage>, resolve: Resolver, day: Date)
    requires ValidStages(stages)
    requires WritesOwnKeys(resolve, day) && CachesResult(resolve, day)
    requires GatherFrom(found, cache, fetches, stages, resolve).sections.Found?
    ensures var g := GatherFrom(found, cache, fetches, stages, resolve);
            var refs := g.sections.refs;
            refs[..|found|] == found && Cached(g.cache, stages, refs[|found|..], day)
    decreases |stages|
  {
    var g := GatherFrom(found, cache, fetches, stages, resolve);
    var refs := g.sections.refs;
    if stages == [] {
      assert refs[|found|..] == [];
    } else {
      ValidTail(stages);
      var s := stages[0].section;
      var l := resolve(cache, s);
      var next := found + [l.result.value];
      assert l.result.Ok? && g == GatherFrom(next, l.cache, fetches + Fetched(l), stages[1..], resolve);
      GatherFromLeavesCached(next, l.cache, fetches + Fetched(l), stages[1..], resolve, day);
      var key := ArtifactKey(s.cachePrefix, day);
      KeysApart(s, day, day);
      GatherFromFrame(next, l.cache, fetches + Fetched(l), stages[1..], resolve, day, key);
      assert key in g.cache && g.cache[key] == Artifact(l.result.value);
      var tail := refs[|found|..];
      assert refs[..|next|][..|found|] == refs[..|found|];
      assert tail[0] == refs[..|next|][|found|] == l.result.value;
      assert tail[1..] == refs[|next|..];
      assert Cached(g.cache, stages[1..], tail[1..], day);
    }
  }

  /**
   * After the lookups of `stages` succeed, the same lookups on the cache they
   * left, after any number of fetches, find the same sections there and
   * fetch nothing.
   */
  lemma GatherFromRepeat(found: seq<GospelRef>, cache: Cache, fetches: nat, stages: seq<Stage>,
                         resolve: Resolver, day: Date, again: nat)
    requires ValidStages(stages)
    requires WritesOwnKeys(resolve, day) && CachesResult(resolve, day) && HitsCache(resolve, day)
    requires GatherFrom(found, cache, fetches, stages, resolve).sections.Found?
    ensures var g := GatherFrom(found, cache, fetches, stages, resolve);
            GatherFrom(found, g.cache, again, stages, resolve) == Collected(g.sections, g.cache, again)
  {
    var g := GatherFrom(found, cache, fetches, stages, resolve);
    var refs := g.sections.refs;
    GatherFromLeavesCached(found, cache, fetches, stages, resolve, day);
    GatherFromCached(found, g.cache, again, stages, refs[|found|..], resolve, day);
    assert found + refs[|found|..] == refs;
  }

  /**
   * With the corrected gospel lookup, a successful round of lookups is
   * repeated for the same day from the cache: the same day, no fetch and no
   * cache write. This is what would let every record of an on-demand batch
   * see the same sections.
   */
  lemma GatherRepeat(cache: Cache, url: string, day: Date, engine: Engine, provider: Provider)
    requires Gather(cache, url, day, engine, provider, true).result.Day?
    ensures var g := Gather(cache, url, day, engine, provider, true);
            Gather(g.cache, url, day, engine, provider, true) == Gathered(g.result, g.cache, 0)
  {
    StagesValid();
    var resolve := Lookups(url, day, engine, provider);
    LookupsWriteOwnKeys(url, day, engine, provider);
    LookupsCacheResult(url, day, engine, provider);
    LookupsHitCache(url, day, engine, provider);
    var l1 := ResolveGospel(cache, url, day, engine, provider);
    var g := GatherFrom([l1.result.value], l1.cache, Fetched(l1), Stages, resolve);
    assert g.sections.Found?;
    ResolveGospelFrame(cache, url, day, engine, provider, true);
    GospelKeyKept([l1.result.value], l1.cache, Fetched(l1), resolve, url, day, engine, provider);
    GatherFromRepeat([l1.result.value], l1.cache, Fetched(l1), Stages, resolve, day, 0);
    assert ResolveGospel(g.cache, url, day, engine, provider) == Lookup(l1.result, g.cache, false);
  }

  /** The section lookups leave the day's gospel key as they found it. */
  lemma GospelKeyKept(found: seq<GospelRef>, cache: Cache, fetches: nat, resolve: Resolver,
                      url: string, day: Date, engine: Engine, provider: Provider)
    requires resolve == Lookups(url, day, engine, provider)
    ensures var gk := ArtifactKey(GospelPrefix, day);
            Entry(GatherFrom(found, cache, fetches, Stages, resolve).cache, gk) == Entry(cache, gk)
  {
    var gk := ArtifactKey(GospelPrefix, day);
    LookupsWriteOwnKeys(url, day, engine, provider);
    PrefixesDistinct(FirstLecture);
    assert gk[0] == GospelPrefix[0] && ResponseKey(day)[0] == ResponsePrefix[0];
    forall j | 0 <= j < |Stages| ensures gk != ArtifactKey(Stages[j].section.cachePrefix, day) {
      KeysApart(Stages[j].section, day, day);
    }
    GatherFromFrame(found, cache, fetches, Stages, resolve, day, gk);
  }

  /**
   * As written, a successful round on a day with no gospel cached leaves nil
   * under the gospel key. The next round for that day finds that nil gospel,
   * serves the other sections from the cache and dereferences the nil, with
   * no fetch and no write: a later record of the same batch, or a later
   * invocation on the same warm client, panics.
   */
  lemma GatherRepeatAsWritten(cache: Cache, url: string, day: Date, engine: Engine, provider: Provider)
    requires GospelFromCache(cache, ArtifactKey(GospelPrefix, day)).Err?
    requires Gather(cache, url, day, engine, provider, false).result.Day?
    ensures var g := Gather(cache, url, day, engine, provider, false);
            Gather(g.cache, url, day, engine, provider, false) == Gathered(NilDereference, g.cache, 0)
  {
    StagesValid();
    var resolve := Lookups(url, day, engine, provider);
    LookupsWriteOwnKeys(url, day, engine, provider);
    LookupsCacheResult(url, day, engine, provider);
    LookupsHitCache(url, day, engine, provider);
    var l1 := ResolveGospelAsWritten(cache, url, day, engine, provider);
    var g := GatherFrom([l1.result.value], l1.cache, Fetched(l1), Stages, resolve);
    assert l1.fetched && g.sections.Found?;
    var gk := ArtifactKey(GospelPrefix, day);
    ResolveGospelFrame(cache, url, day, engine, provider, false);
    GospelKeyKept([l1.result.value], l1.cache, Fetched(l1), resolve, url, day, engine, provider);
    assert Entry(g.cache, gk) == Some(Artifact(Nil));
    assert ResolveGospelAsWritten(g.cache, url, day, engine, provider) == Lookup(Ok(Nil), g.cache, false);
    GatherFromLeavesCached([l1.result.value], l1.cache, Fetched(l1), Stages, resolve, day);
    var refs := g.sections.refs;
    GatherFromCached([Nil], g.cache, 0, Stages, refs[1..], resolve, day);
    assert ([Nil] + refs[1..])[0].Nil?;
  }
}
