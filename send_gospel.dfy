/**
 * The queue consumer that sends a serialized day to one chat per record.
 *
 * Each record's body is decoded into a `Magnificat` and its plan is sent to
 * the record's chat, stopping at that record's first failure. Records run
 * concurrently and each reports at most one error; the handler collects the
 * errors in the order they arrive, which is not fixed, and reports them
 * together. The model runs the records one after the other, and its contract
 * fixes the errors only up to order.
 */
module SendGospel {
  import opened Wrappers
  import opened Text
  import opened Archimadrid
  import opened Controller
  import opened Render
  import opened FanOut

  const UnmarshalFailed := "error unmarshalling JSON: "
  const ErrorsOccurred := "errors occurred while processing sqs events: "

  /** JSON decoding of a record body into a `Magnificat`; the text codec is not part of this model. */
  type Decoder = string -> Result<Magnificat>

  /** One record: a body that does not decode is reported and nothing is sent; otherwise the day's plan goes to the record's chat. */
  function ProcessRecord(api: TelegramApi, decode: Decoder, r: SqsRecord): Delivery
  {
    match decode(r.body)
    case Err(e) => Delivery(Some(UnmarshalFailed + e), 0)
    case Ok(m) => Deliver(api, r.chatID, Plan(m))
  }

  /**
   * A body that does not decode is reported with the unmarshal prefix and
   * nothing is sent; a record reports no error only when its body decoded
   * and every message of the day's plan went out.
   */
  lemma ProcessRecordLaws(api: TelegramApi, decode: Decoder, r: SqsRecord)
    ensures var d := ProcessRecord(api, decode, r);
            (decode(r.body).Err? ==> d == Delivery(Some(UnmarshalFailed + decode(r.body).msg), 0)) &&
            (d.error.None? ==> decode(r.body).Ok? && d.attempted == |Plan(decode(r.body).value)|)
  {
  }

  /** Each record's outcome: the error it reports, if any. */
  function Outcomes(api: TelegramApi, decode: Decoder, records: seq<SqsRecord>): (os: seq<Option<string>>)
  {
    seq(|records|, i requires 0 <= i < |records| => ProcessRecord(api, decode, records[i]).error)
  }

  /**
   * Records are independent: a batch reports, in some order, the errors its
   * parts report on their own, so one record's failure costs no other record
   * any of its sends.
   */
  lemma BatchSplit(api: TelegramApi, decode: Decoder, a: seq<SqsRecord>, b: seq<SqsRecord>)
    ensures Failures(Outcomes(api, decode, a + b)) == Failures(Outcomes(api, decode, a)) + Failures(Outcomes(api, decode, b))
  {
    assert Outcomes(api, decode, a + b) == Outcomes(api, decode, a) + Outcomes(api, decode, b);
    FailuresSplit(Outcomes(api, decode, a), Outcomes(api, decode, b));
  }

  /**
   * `Handler`: every record is processed on its own; the result is nil
   * exactly when no record reported an error, and otherwise one error listing
   * every reported error once, joined with newlines, in some arrival order.
   */
  method Handler(api: TelegramApi, decode: Decoder, records: seq<SqsRecord>) returns (err: Option<string>)
    ensures err.None? <==> forall i :: 0 <= i < |records| ==> ProcessRecord(api, decode, records[i]).error.None?
    ensures err.Some? ==>
              exists arrival: seq<string> ::
                multiset(arrival) == multiset(Failures(Outcomes(api, decode, records))) &&
                err.value == ErrorsOccurred + Join(arrival, "\n")
  {
    var outcomes: seq<Option<string>> := [];
    var i := 0;
    while i < |records|
      invariant 0 <= i <= |records|
      invariant outcomes == Outcomes(api, decode, records[..i])
    {
      outcomes := outcomes + [ProcessRecord(api, decode, records[i]).error];
      i := i + 1;
    }
    assert records[..i] == records;
    assert forall j :: 0 <= j < |records| ==> outcomes[j] == ProcessRecord(api, decode, records[j]).error;
    err := Collect(ErrorsOccurred, outcomes);
  }
}
