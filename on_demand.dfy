/**
 * The on-demand queue consumer: for each record, in order, it looks up the
 * day's four sections on the shared client and sends the day's messages to
 * the record's chat. A failed lookup is fatal; the first failed send returns
 * from the handler at once, so later sections and later records get nothing.
 *
 * The lookups are the program's own, gospel lookup included: a gospel fetched
 * rather than found in the cache leaves a nil artifact cached under its key,
 * so the record after a successful first one dereferences nil
 * (`ServeAsWritten`). The last section shows what every batch does once the
 * gospel lookup caches what it extracted (`ServeCorrected`).
 */
module OnDemand {
  import opened Wrappers
  import opened Calendar
  import opened Extract
  import opened Sections
  import opened Archimadrid
  import opened Controller
  import opened Render
  import opened Day

  /** The index of the first record whose chat does not get the whole plan, or the number of records. */
  function FirstFailing(api: TelegramApi, records: seq<SqsRecord>, plan: seq<Outgoing>): (n: nat)
    ensures n <= |records|
    ensures forall j :: 0 <= j < n ==> Deliver(api, records[j].chatID, plan).error.None?
    ensures n < |records| ==> Deliver(api, records[n].chatID, plan).error.Some?
  {
    var ds := Delivered(api, records, plan);
    assert forall j :: 0 <= j < |records| ==> ds[j] == Deliver(api, records[j].chatID, plan);
    FirstError(ds)
  }

  /** What one record's step ends in: the handler stops with an outcome, or the day's plan was delivered. */
  datatype Step = Stop(outcome: Outcome) | Sent(delivery: Delivery)

  /** The step the day's lookups lead to for one chat. */
  function StepFor(r: DayResult, api: TelegramApi, chatID: string): Step
  {
    match r
    case Fatal(message, error) => Stop(Exited(message, error))
    case NilDereference => Stop(Panicked)
    case Day(m) => Sent(Deliver(api, chatID, Plan(m)))
  }

  /**
   * One record: the day's four lookups on the shared client, as it stands,
   * then the day's messages to the record's chat.
   */
  method ServeRecord(client: Client, today: Date, engine: Engine, provider: Provider, api: TelegramApi, chatID: string)
    returns (step: Step)
    modifies client
    ensures var g := Gather(old(client.cache), old(client.url), today, engine, provider, false);
            step == StepFor(g.result, api, chatID) && client.cache == g.cache &&
            client.fetches == old(client.fetches) + g.fetches
    ensures client.url == old(client.url) && client.ttl == old(client.ttl)
  {
    var d := FetchDay(client, today, engine, provider);
    match d
    case Fatal(message, error) => step := Stop(Exited(message, error));
    case NilDereference => step := Stop(Panicked);
    case Day(m) => step := Sent(Deliver(api, chatID, Plan(m)));
  }

  /** One round of the day's lookups, as a function of the cache before it. */
  type Round = Cache -> Gathered

  /** The handler's round: the four lookups of `Gather`, the gospel's caching `storeExtracted` or nil. */
  function Rounds(url: string, day: Date, engine: Engine, provider: Provider, storeExtracted: bool): Round
  {
    (c: Cache) => Gather(c, url, day, engine, provider, storeExtracted)
  }

  /** What a record's chat gets after a round of lookups ending in a given result. */
  type Answerer = (DayResult, string) -> Step

  /** The handler's answer: `StepFor` with the handler's Telegram client. */
  function Answers(api: TelegramApi): Answerer
  {
    (r: DayResult, chatID: string) => StepFor(r, api, chatID)
  }

  /** How a batch ends: the outcome, the deliveries made, the cache left and the provider calls made. */
  datatype Served = Served(outcome: Outcome, sent: seq<Delivery>, cache: Cache, fetches: nat)

  /**
   * The records served in order, each with a round of lookups on the cache
   * the previous round left: a stop, or a delivery with an error, ends the
   * batch.
   */
  function Serve(round: Round, answer: Answerer, cache: Cache, records: seq<SqsRecord>): (s: Served)
    ensures |s.sent| <= |records|
    decreases |records|
  {
    if records == [] then Served(Returned(None), [], cache, 0)
    else
      var g := round(cache);
      match answer(g.result, records[0].chatID)
      case Stop(o) => Served(o, [], g.cache, g.fetches)
      case Sent(d) =>
        if d.error.Some? then Served(Returned(d.error), [d], g.cache, g.fetches)
        else
          var rest := Serve(round, answer, g.cache, records[1..]);
          Served(rest.outcome, [d] + rest.sent, rest.cache, g.fetches + rest.fetches)
  }

  /**
   * `Handler`. Each record in turn gets a round of lookups on the shared
   * client and, when the round finds the day, the day's messages; the batch
   * is `Serve` of the handler's rounds from the client's cache.
   */
  method Handler(client: Client, today: Date, engine: Engine, provider: Provider, api: TelegramApi,
                 records: seq<SqsRecord>) returns (outcome: Outcome, ghost sent: seq<Delivery>)
    modifies client
    ensures client.url == old(client.url) && client.ttl == old(client.ttl)
    ensures var s := Serve(Rounds(old(client.url), today, engine, provider, false), Answers(api), old(client.cache), records);
            outcome == s.outcome && sent == s.sent && client.cache == s.cache &&
            client.fetches == old(client.fetches) + s.fetches
  {
    ghost var round := Rounds(client.url, today, engine, provider, false);
    ghost var answer := Answers(api);
    ghost var c0 := client.cache;
    ghost var fetched: nat := 0;
    sent := [];
    ServeStart(round, answer, c0, records);
    var i := 0;
    while i < |records|
      invariant 0 <= i <= |records|
      invariant client.url == old(client.url) && client.ttl == old(client.ttl)
      invariant client.fetches == old(client.fetches) + fetched
      invariant ServedSoFar(round, answer, c0, records, i, sent, client.cache, fetched)
    {
      ghost var before := client.cache;
      var step := ServeRecord(client, today, engine, provider, api, records[i].chatID);
      ServeNext(round, answer, c0, records, i, sent, before, fetched);
      fetched := fetched + round(before).fetches;
      if step.Stop? {
        return step.outcome, sent;
      }
      sent := sent + [step.delivery];
      if step.delivery.error.Some? {
        return Returned(step.delivery.error), sent;
      }
      i := i + 1;
    }
    ServeEnd(round, answer, c0, records, sent, client.cache, fetched);
    outcome := Returned(None);
  }

  /**
   * The first `i` records were served with the deliveries `sent`, leaving
   * `cache` after `fetched` provider calls, and none of them ended the batch.
   */
  ghost predicate ServedSoFar(round: Round, answer: Answerer, c0: Cache, records: seq<SqsRecord>, i: nat,
                              sent: seq<Delivery>, cache: Cache, fetched: nat)
    requires i <= |records|
  {
    var rest := Serve(round, answer, cache, records[i..]);
    Serve(round, answer, c0, records) == Served(rest.outcome, sent + rest.sent, rest.cache, fetched + rest.fetches)
  }

  lemma ServeStart(round: Round, answer: Answerer, c0: Cache, records: seq<SqsRecord>)
    ensures ServedSoFar(round, answer, c0, records, 0, [], c0, 0)
  {
    assert records[0..] == records;
    assert [] + Serve(round, answer, c0, records).sent == Serve(round, answer, c0, records).sent;
  }

  /** One more record: a stop or a failed delivery ends the batch, a delivery without error extends it. */
  lemma ServeNext(round: Round, answer: Answerer, c0: Cache, records: seq<SqsRecord>, i: nat,
                  sent: seq<Delivery>, cache: Cache, fetched: nat)
    requires i < |records| && ServedSoFar(round, answer, c0, records, i, sent, cache, fetched)
    ensures var g := round(cache);
            var step := answer(g.result, records[i].chatID);
            (step.Stop? ==> Serve(round, answer, c0, records) == Served(step.outcome, sent, g.cache, fetched + g.fetches)) &&
            (step.Sent? && step.delivery.error.Some? ==>
               Serve(round, answer, c0, records) ==
                 Served(Returned(step.delivery.error), sent + [step.delivery], g.cache, fetched + g.fetches)) &&
            (step.Sent? && step.delivery.error.None? ==>
               ServedSoFar(round, answer, c0, records, i + 1, sent + [step.delivery], g.cache, fetched + g.fetches))
  {
    assert records[i..][0] == records[i];
    assert records[i..][1..] == records[i + 1..];
    assert sent + [] == sent;
    var g := round(cache);
    var step := answer(g.result, records[i].chatID);
    if step.Sent? {
      var rest := Serve(round, answer, g.cache, records[i + 1..]);
      assert sent + ([step.delivery] + rest.sent) == (sent + [step.delivery]) + rest.sent;
    }
  }

  lemma ServeEnd(round: Round, answer: Answerer, c0: Cache, records: seq<SqsRecord>, sent: seq<Delivery>,
                 cache: Cache, fetched: nat)
    requires ServedSoFar(round, answer, c0, records, |records|, sent, cache, fetched)
    ensures Serve(round, answer, c0, records) == Served(Returned(None), sent, cache, fetched)
  {
    assert records[|records|..] == [] && sent + [] == sent;
  }

  // ---------------------------------------------------------------------------
  // What a batch ends in

  /** A round that does not find the day ends the batch at the first record, before any send. */
  lemma ServeStopped(round: Round, api: TelegramApi, cache: Cache, records: seq<SqsRecord>)
    requires records != [] && !round(cache).result.Day?
    ensures var g := round(cache);
            Serve(round, Answers(api), cache, records) ==
              Served(if g.result.Fatal? then Exited(g.result.message, g.result.error) else Panicked, [], g.cache, g.fetches)
  {
  }

  /**
   * As written, on a day with no gospel cached: when the first round finds
   * the day, the first chat gets the day's messages; if they all go out and
   * another record follows, that record's round finds the nil gospel the
   * first one cached and the handler panics, with no further fetch.
   */
  lemma ServeAsWritten(url: string, today: Date, engine: Engine, provider: Provider, api: TelegramApi,
                       cache: Cache, records: seq<SqsRecord>)
    requires records != [] && GospelFromCache(cache, ArtifactKey(GospelPrefix, today)).Err?
    requires Gather(cache, url, today, engine, provider, false).result.Day?
    ensures var g := Gather(cache, url, today, engine, provider, false);
            var d := Deliver(api, records[0].chatID, Plan(g.result.m));
            var s := Serve(Rounds(url, today, engine, provider, false), Answers(api), cache, records);
            s.sent == [d] && s.cache == g.cache && s.fetches == g.fetches &&
            s.outcome == (if d.error.Some? then Returned(d.error) else if |records| == 1 then Returned(None) else Panicked)
  {
    var round := Rounds(url, today, engine, provider, false);
    var g := Gather(cache, url, today, engine, provider, false);
    assert round(cache) == g;
    GatherRepeatAsWritten(cache, url, today, engine, provider);
    assert round(g.cache) == Gathered(NilDereference, g.cache, 0);
    ServeThenPanic(round, api, cache, records);
  }

  /** A round that finds the day, followed by one that dereferences a nil section, on the cache the first left. */
  lemma ServeThenPanic(round: Round, api: TelegramApi, cache: Cache, records: seq<SqsRecord>)
    requires records != [] && round(cache).result.Day?
    requires round(round(cache).cache) == Gathered(NilDereference, round(cache).cache, 0)
    ensures var g := round(cache);
            var d := Deliver(api, records[0].chatID, Plan(g.result.m));
            var s := Serve(round, Answers(api), cache, records);
            s.sent == [d] && s.cache == g.cache && s.fetches == g.fetches &&
            s.outcome == (if d.error.Some? then Returned(d.error) else if |records| == 1 then Returned(None) else Panicked)
  {
    var answer := Answers(api);
    var g := round(cache);
    var d := Deliver(api, records[0].chatID, Plan(g.result.m));
    assert answer(g.result, records[0].chatID) == Sent(d);
    if d.error.None? {
      var rest := records[1..];
      if |records| == 1 {
        assert rest == [];
      } else {
        assert answer(NilDereference, rest[0].chatID) == Stop(Panicked);
        assert Serve(round, answer, g.cache, rest) == Served(Panicked, [], g.cache, 0);
      }
      assert [d] + [] == [d];
    }
  }

  // ---------------------------------------------------------------------------
  // The corrected lookup: every chat sees the same day

  /** Each record's step after a round of lookups ending in `r`. */
  function Steps(answer: Answerer, r: DayResult, records: seq<SqsRecord>): (steps: seq<Step>)
  {
    seq(|records|, j requires 0 <= j < |records| => answer(r, records[j].chatID))
  }

  /**
   * The steps taken in order: the first stop, or the first delivery with an
   * error, ends the run; the outcome and the deliveries made.
   */
  function Run(steps: seq<Step>): (Outcome, seq<Delivery>)
    decreases |steps|
  {
    if steps == [] then (Returned(None), [])
    else
      match steps[0]
      case Stop(o) => (o, [])
      case Sent(d) =>
        if d.error.Some? then (Returned(d.error), [d])
        else
          var rest := Run(steps[1..]);
          (rest.0, [d] + rest.1)
  }

  /**
   * With the corrected gospel lookup, a round that finds the day repeats from
   * the cache for every later record: the batch is one round and then `Run`
   * of its result over every chat.
   */
  lemma ServeCorrected(url: string, today: Date, engine: Engine, provider: Provider, api: TelegramApi,
                       cache: Cache, records: seq<SqsRecord>)
    requires records != []
    ensures var g := Gather(cache, url, today, engine, provider, true);
            var r := Run(Steps(Answers(api), g.result, records));
            Serve(Rounds(url, today, engine, provider, true), Answers(api), cache, records) == Served(r.0, r.1, g.cache, g.fetches)
  {
    var round := Rounds(url, today, engine, provider, true);
    var g := Gather(cache, url, today, engine, provider, true);
    assert round(cache) == g;
    if g.result.Day? {
      GatherRepeat(cache, url, today, engine, provider);
    }
    ServeOneRound(round, Answers(api), cache, records);
  }

  /**
   * When a round that finds the day repeats itself on the cache it left, the
   * batch is that one round followed by `Run` of its result over every chat.
   */
  lemma ServeOneRound(round: Round, answer: Answerer, cache: Cache, records: seq<SqsRecord>)
    requires records != []
    requires forall r: DayResult, id: string :: !r.Day? ==> answer(r, id).Stop?
    requires round(cache).result.Day? ==> round(round(cache).cache) == Gathered(round(cache).result, round(cache).cache, 0)
    ensures var g := round(cache);
            var r := Run(Steps(answer, g.result, records));
            Serve(round, answer, cache, records) == Served(r.0, r.1, g.cache, g.fetches)
  {
    var g := round(cache);
    var steps := Steps(answer, g.result, records);
    assert steps[0] == answer(g.result, records[0].chatID);
    if g.result.Day? {
      ServeRepeats(round, answer, g, records[1..]);
      assert steps[1..] == Steps(answer, g.result, records[1..]);
    } else {
      assert steps[0].Stop?;
    }
  }

  /** Rounds that repeat `g` on the cache it left serve every record with `g`'s result and fetch nothing. */
  lemma {:induction false} ServeRepeats(round: Round, answer: Answerer, g: Gathered, records: seq<SqsRecord>)
    requires round(g.cache) == Gathered(g.result, g.cache, 0)
    ensures var r := Run(Steps(answer, g.result, records));
            Serve(round, answer, g.cache, records) == Served(r.0, r.1, g.cache, 0)
    decreases |records|
  {
    if records != [] {
      var steps := Steps(answer, g.result, records);
      assert steps[0] == answer(g.result, records[0].chatID);
      assert steps[1..] == Steps(answer, g.result, records[1..]);
      ServeRepeats(round, answer, g, records[1..]);
    }
  }

  /** The steps of a batch after a successful round: the plan delivered to each record's chat. */
  function Deliveries(api: TelegramApi, records: seq<SqsRecord>, plan: seq<Outgoing>): (steps: seq<Step>)
  {
    SentAll(Delivered(api, records, plan))
  }

  /** The plan delivered to each record's chat, one delivery per record. */
  function Delivered(api: TelegramApi, records: seq<SqsRecord>, plan: seq<Outgoing>): (ds: seq<Delivery>)
  {
    seq(|records|, j requires 0 <= j < |records| => Deliver(api, records[j].chatID, plan))
  }

  /** Deliveries taken as steps, in order. */
  function SentAll(ds: seq<Delivery>): seq<Step>
  {
    seq(|ds|, j requires 0 <= j < |ds| => Sent(ds[j]))
  }

  /** The position of the first delivery with an error, or the length when there is none. */
  function FirstError(ds: seq<Delivery>): (n: nat)
    ensures n <= |ds|
    ensures forall j :: 0 <= j < n ==> ds[j].error.None?
    ensures n < |ds| ==> ds[n].error.Some?
    decreases |ds|
  {
    if ds == [] || ds[0].error.Some? then 0 else 1 + FirstError(ds[1..])
  }

  /** Running deliveries stops right after the first one with an error, which is the outcome. */
  lemma {:induction false} RunSent(ds: seq<Delivery>)
    ensures var n := FirstError(ds);
            Run(SentAll(ds)) == (Returned(if n < |ds| then ds[n].error else None), ds[..if n < |ds| then n + 1 else n])
    decreases |ds|
  {
    if ds != [] {
      var steps := SentAll(ds);
      assert steps[0] == Sent(ds[0]);
      assert steps[1..] == SentAll(ds[1..]);
      if ds[0].error.None? {
        RunSent(ds[1..]);
        var k := FirstError(ds[1..]);
        var m := if k < |ds[1..]| then k + 1 else k;
        assert [ds[0]] + ds[1..][..m] == ds[..m + 1];
      } else {
        assert ds[..1] == [ds[0]];
      }
    }
  }

  /**
   * A batch after a successful round: the chats are served in order until the
   * first delivery with an error, which is the handler's error; without one,
   * every chat got the whole plan and the handler returns nil.
   */
  lemma RunDeliveries(api: TelegramApi, records: seq<SqsRecord>, plan: seq<Outgoing>)
    ensures var n := FirstFailing(api, records, plan);
            var (outcome, sent) := Run(Deliveries(api, records, plan));
            |sent| == (if n < |records| then n + 1 else n) &&
            (forall j :: 0 <= j < |sent| ==> sent[j] == Deliver(api, records[j].chatID, plan)) &&
            outcome == Returned(if n < |records| then sent[n].error else None)
  {
    RunSent(Delivered(api, records, plan));
  }

  /** After a successful round the steps are the day's plan delivered to each chat. */
  lemma StepsOfDay(m: Magnificat, api: TelegramApi, records: seq<SqsRecord>)
    ensures Steps(Answers(api), Day(m), records) == Deliveries(api, records, Plan(m))
  {
  }

  /** Every chat gets the whole plan exactly when no delivery has an error. */
  lemma {:induction false} AllSentIff(api: TelegramApi, records: seq<SqsRecord>, plan: seq<Outgoing>)
    ensures Run(Deliveries(api, records, plan)).0 == Returned(None) <==>
              forall j :: 0 <= j < |records| ==> Deliver(api, records[j].chatID, plan).error.None?
  {
    RunDeliveries(api, records, plan);
    var n := FirstFailing(api, records, plan);
    if n < |records| {
      DeliverLaws(api, records[n].chatID, plan);
    }
  }
}
