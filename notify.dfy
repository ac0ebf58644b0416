/**
 * The daily notifier: it looks up the day's four sections, serializes the
 * assembled `Magnificat` once, and enqueues that payload for every
 * subscribed chat. The enqueues run concurrently and each reports at most
 * one error; the handler collects them in arrival order and reports them
 * together.
 */
module Notify {
  import opened Wrappers
  import opened Text
  import opened Calendar
  import opened Extract
  import opened Archimadrid
  import opened Day
  import opened Json
  import opened FanOut

  const QueueFailed := "error sending message to queue: "
  const QueueErrors := "errors while sending messages to queue: "

  // ---------------------------------------------------------------------------
  // The payload

  /** A `Gospel` as the encoder sees it: its four fields in declaration order. */
  function GospelJson(g: Gospel): Json
  {
    JObject([("day", JString(g.day)), ("title", JString(g.title)), ("reference", JString(g.reference)),
             ("content", JString(g.content))])
  }

  /** A `Magnificat` as the encoder sees it; an absent second lecture is omitted (`omitempty`). */
  function MagnificatJson(m: Magnificat): Json
  {
    JObject([("day", JString(m.day)), ("first_lecture", GospelJson(m.firstLecture)), ("psalm", GospelJson(m.psalm))] +
            (if m.secondLecture.Some? then [("second_lecture", GospelJson(m.secondLecture.value))] else []) +
            [("gospel", GospelJson(m.gospel))])
  }

  /** The reader the queue consumer applies: every field must be present and of the right kind. */
  function ReadGospel(j: Json): Option<Gospel>
  {
    var d, t, r, c := StringMember(j, "day"), StringMember(j, "title"), StringMember(j, "reference"), StringMember(j, "content");
    if d.Some? && t.Some? && r.Some? && c.Some? then Some(Gospel(d.value, t.value, r.value, c.value)) else None
  }

  function ReadMember(j: Json, key: string): Option<Gospel>
  {
    var v := Member(j, key);
    if v.Some? then ReadGospel(v.value) else None
  }

  /** The reader for a whole day; a missing second lecture reads as none. */
  function ReadMagnificat(j: Json): Option<Magnificat>
  {
    var d, f, p, g := StringMember(j, "day"), ReadMember(j, "first_lecture"), ReadMember(j, "psalm"), ReadMember(j, "gospel");
    if d.None? || f.None? || p.None? || g.None? then None
    else if Member(j, "second_lecture").None? then Some(Magnificat(d.value, f.value, p.value, None, g.value))
    else
      var s := ReadMember(j, "second_lecture");
      if s.None? then None else Some(Magnificat(d.value, f.value, p.value, Some(s.value), g.value))
  }

  lemma GospelRoundTrip(g: Gospel)
    ensures ReadGospel(GospelJson(g)) == Some(g)
  {
    var ms := GospelJson(g).members;
    FindAfter(ms, 0, "day");
    FindAfter(ms, 1, "title");
    FindAfter(ms, 2, "reference");
    FindAfter(ms, 3, "content");
  }

  /** The payload reads back as the day it was made from, second lecture included exactly when present. */
  lemma MagnificatRoundTrip(m: Magnificat)
    ensures ReadMagnificat(MagnificatJson(m)) == Some(m)
  {
    var ms := MagnificatJson(m).members;
    GospelRoundTrip(m.firstLecture);
    GospelRoundTrip(m.psalm);
    GospelRoundTrip(m.gospel);
    FindAfter(ms, 0, "day");
    FindAfter(ms, 1, "first_lecture");
    FindAfter(ms, 2, "psalm");
    if m.secondLecture.Some? {
      GospelRoundTrip(m.secondLecture.value);
      FindAfter(ms, 3, "second_lecture");
      FindAfter(ms, 4, "gospel");
    } else {
      FindAfter(ms, 3, "gospel");
      FindAbsent(ms, "second_lecture");
    }
  }

  /** The payload's fields, in order: `second_lecture` appears exactly when the day has one. */
  lemma MagnificatKeys(m: Magnificat)
    ensures Keys(MagnificatJson(m)) ==
              ["day", "first_lecture", "psalm"] + (if m.secondLecture.Some? then ["second_lecture"] else []) + ["gospel"]
  {
  }

  // ---------------------------------------------------------------------------
  // The enqueue fan-out

  /** The payload's text; `json.Marshal` is not part of this model. */
  type Encoder = Json -> string

  /** `SendMessageToQueue(chatID, body)`: the message ID or an error; the queue client is not part of this model. */
  type Enqueue = (string, string) -> Result<string>

  /** What one enqueue reports on the error channel. */
  function QueueOutcome(r: Result<string>): (o: Option<string>)
    ensures o.None? <==> r.Ok?
    ensures r.Err? ==> o == Some(QueueFailed + r.msg)
  {
    if r.Err? then Some(QueueFailed + r.msg) else None
  }

  /** Each chat's report for the same payload. */
  function QueueOutcomes(enqueue: Enqueue, chatIDs: seq<string>, payload: string): (os: seq<Option<string>>)
  {
    seq(|chatIDs|, j requires 0 <= j < |chatIDs| => QueueOutcome(enqueue(chatIDs[j], payload)))
  }

  /**
   * The fan-out: one enqueue per chat, all with the same payload, whatever
   * the others report; the result is nil exactly when every enqueue
   * succeeded, and otherwise lists every failure once, in some order.
   */
  method EnqueueAll(enqueue: Enqueue, chatIDs: seq<string>, payload: string)
    returns (err: Option<string>, ghost enqueued: seq<(string, string)>)
    ensures |enqueued| == |chatIDs|
    ensures forall j :: 0 <= j < |chatIDs| ==> enqueued[j] == (chatIDs[j], payload)
    ensures err.None? <==> forall j :: 0 <= j < |chatIDs| ==> enqueue(chatIDs[j], payload).Ok?
    ensures err.Some? ==>
              exists arrival: seq<string> ::
                multiset(arrival) == multiset(Failures(QueueOutcomes(enqueue, chatIDs, payload))) &&
                err.value == QueueErrors + Join(arrival, "\n")
  {
    var outcomes: seq<Option<string>> := [];
    enqueued := [];
    var i := 0;
    while i < |chatIDs|
      invariant 0 <= i <= |chatIDs|
      invariant |outcomes| == i && |enqueued| == i
      invariant forall j :: 0 <= j < i ==> outcomes[j] == QueueOutcome(enqueue(chatIDs[j], payload))
      invariant forall j :: 0 <= j < i ==> enqueued[j] == (chatIDs[j], payload)
    {
      var r := enqueue(chatIDs[i], payload);
      outcomes := outcomes + [QueueOutcome(r)];
      enqueued := enqueued + [(chatIDs[i], payload)];
      i := i + 1;
    }
    assert outcomes == QueueOutcomes(enqueue, chatIDs, payload);
    err := Collect(QueueErrors, outcomes);
  }

  /** Each chat whose enqueue fails with `e` contributes one entry, and nothing else is listed. */
  lemma {:induction false} QueueFailureCount(enqueue: Enqueue, chatIDs: seq<string>, payload: string, e: string)
    ensures multiset(Failures(QueueOutcomes(enqueue, chatIDs, payload)))[QueueFailed + e] ==
              multiset(QueueOutcomes(enqueue, chatIDs, payload))[Some(QueueFailed + e)]
  {
    FailuresCount(QueueOutcomes(enqueue, chatIDs, payload), QueueFailed + e);
  }

  // ---------------------------------------------------------------------------
  // The handler

  /**
   * `Handler`. The lookups are made once; a fatal lookup or a nil section
   * ends the process before anything is enqueued. A failed chat-ID read is
   * returned before any enqueue; otherwise the serialized day goes to every
   * chat, and `enqueued` lists the enqueues made.
   */
  method Handler(client: Client, today: Date, engine: Engine, provider: Provider, encode: Encoder,
                 chatIDs: Result<seq<string>>, enqueue: Enqueue)
    returns (outcome: Outcome, ghost enqueued: seq<(string, string)>)
    modifies client
    ensures var g := Gather(old(client.cache), old(client.url), today, engine, provider, false);
            client.cache == g.cache && client.fetches == old(client.fetches) + g.fetches &&
            (g.result.Fatal? ==> outcome == Exited(g.result.message, g.result.error) && enqueued == []) &&
            (g.result.NilDereference? ==> outcome == Panicked && enqueued == []) &&
            (g.result.Day? && chatIDs.Err? ==> outcome == Returned(Some(chatIDs.msg)) && enqueued == []) &&
            (g.result.Day? && chatIDs.Ok? ==>
               var payload := encode(MagnificatJson(g.result.m));
               var ids := chatIDs.value;
               outcome.Returned? &&
               |enqueued| == |ids| && (forall j :: 0 <= j < |ids| ==> enqueued[j] == (ids[j], payload)) &&
               (outcome.error.None? <==> forall j :: 0 <= j < |ids| ==> enqueue(ids[j], payload).Ok?) &&
               (outcome.error.Some? ==>
                  exists arrival: seq<string> ::
                    multiset(arrival) == multiset(Failures(QueueOutcomes(enqueue, ids, payload))) &&
                    outcome.error.value == QueueErrors + Join(arrival, "\n")))
    ensures client.url == old(client.url) && client.ttl == old(client.ttl)
  {
    var d := FetchDay(client, today, engine, provider);
    match d {
      case Fatal(message, error) =>
        return Exited(message, error), [];
      case NilDereference =>
        return Panicked, [];
      case Day(m) =>
        var payload := encode(MagnificatJson(m));
        if chatIDs.Err? {
          return Returned(Some(chatIDs.msg)), [];
        }
        var err;
        err, enqueued := EnqueueAll(enqueue, chatIDs.value, payload);
        outcome := Returned(err);
    }
  }
}
