/**
 * Rendering a day's sections as Telegram messages, and sending them to one
 * chat in order, stopping at the first failure.
 *
 * The escape is the fixed character class `_ * [ ] ( ) ~ > # + - = | { } . !`,
 * each prefixed with a backslash. It approximates Telegram's MarkdownV2
 * reserved set: the backquote and the backslash itself are left as they are.
 */
module Render {
  import opened Wrappers
  import opened Extract
  import opened Archimadrid
  import opened Controller

  predicate IsReserved(c: char)
  {
    c == '_' || c == '*' || c == '[' || c == ']' || c == '(' || c == ')' || c == '~' || c == '>' ||
    c == '#' || c == '+' || c == '-' || c == '=' || c == '|' || c == '{' || c == '}' || c == '.' || c == '!'
  }

  /** The regexp replacement: every reserved character gets a backslash in front of it. */
  function Escape(s: string): string
  {
    if s == "" then "" else (if IsReserved(s[0]) then ['\\', s[0]] else [s[0]]) + Escape(s[1..])
  }

  function ReservedCount(s: string): nat
  {
    if s == "" then 0 else (if IsReserved(s[0]) then 1 else 0) + ReservedCount(s[1..])
  }

  /** Reading an escaped text back: a backslash before a reserved character is dropped. */
  function Unescape(t: string): string
  {
    if |t| >= 2 && t[0] == '\\' && IsReserved(t[1]) then [t[1]] + Unescape(t[2..])
    else if t == "" then "" else [t[0]] + Unescape(t[1..])
  }

  /** Escaping touches each character on its own: it distributes over concatenation. */
  lemma {:induction false} EscapeConcat(a: string, b: string)
    ensures Escape(a + b) == Escape(a) + Escape(b)
  {
    if a != "" {
      assert (a + b)[1..] == a[1..] + b;
      EscapeConcat(a[1..], b);
    } else {
      assert a + b == b;
    }
  }

  /** One character: a reserved one gets a backslash, every other one (the backslash and backquote included) is kept. */
  lemma EscapeChar(c: char)
    ensures Escape([c]) == if IsReserved(c) then ['\\', c] else [c]
  {
    assert [c][1..] == "";
  }

  /** A text with no reserved character is sent as it is. */
  lemma {:induction false} EscapeIdentity(s: string)
    requires forall k :: 0 <= k < |s| ==> !IsReserved(s[k])
    ensures Escape(s) == s
  {
    if s != "" {
      EscapeIdentity(s[1..]);
    }
  }

  /** The escaped text is longer by exactly the number of reserved characters. */
  lemma {:induction false} EscapeLength(s: string)
    ensures |Escape(s)| == |s| + ReservedCount(s)
  {
    if s != "" {
      EscapeLength(s[1..]);
    }
  }

  /** The first character of an escaped non-empty text is never reserved. */
  lemma EscapeHead(s: string)
    requires s != ""
    ensures Escape(s) != "" && !IsReserved(Escape(s)[0])
  {
  }

  /** Escaping loses nothing: the escaped text determines the original. */
  lemma {:induction false} EscapeRoundTrip(s: string)
    ensures Unescape(Escape(s)) == s
  {
    if s != "" {
      var rest := s[1..];
      EscapeRoundTrip(rest);
      var t := Escape(s);
      if IsReserved(s[0]) {
        assert t == ['\\', s[0]] + Escape(rest);
        assert t[2..] == Escape(rest);
      } else {
        assert t == [s[0]] + Escape(rest);
        if rest != "" {
          EscapeHead(rest);
          assert t[1] == Escape(rest)[0];
        }
        assert t[1..] == Escape(rest);
      }
      assert s == [s[0]] + rest;
    }
  }

  // ---------------------------------------------------------------------------
  // Messages

  /** The day message: the escaped day in bold. */
  function DayMessage(day: string): string
  {
    "*" + Escape(day) + "*"
  }

  /** The day message is the day in asterisks, and what lies between them unescapes to the day. */
  lemma DayMessageReadBack(day: string)
    ensures var r := DayMessage(day);
            |r| >= |day| + 2 && r[0] == '*' && r[|r| - 1] == '*' && Unescape(r[1..|r| - 1]) == day
  {
    EscapeRoundTrip(day);
    EscapeLength(day);
    var r := DayMessage(day);
    assert r[1..|r| - 1] == Escape(day);
  }

  /** A section message: escaped reference and title in bold on two lines, a blank line, the escaped body. */
  function SectionMessage(reference: string, title: string, body: string): string
  {
    "*" + Escape(reference) + "\n" + Escape(title) + "*\n\n" + Escape(body)
  }

  /** One message to send, and the text its failure is reported with (the send error follows it). */
  datatype Outgoing = Outgoing(text: string, failure: string)

  /**
   * The messages for one day, in order: the day, the first lecture, the
   * second lecture when there is one, the psalm (its title in the reference
   * slot and its reference in the title slot) and the gospel.
   */
  function Plan(m: Magnificat): (p: seq<Outgoing>)
    ensures |p| == if m.secondLecture.Some? then 5 else 4
    ensures p[0].text == DayMessage(m.day)
    ensures p[1].text == SectionMessage(m.firstLecture.reference, m.firstLecture.title, m.firstLecture.content)
    ensures m.secondLecture.Some? ==>
              var s := m.secondLecture.value; p[2].text == SectionMessage(s.reference, s.title, s.content)
    ensures p[|p| - 2].text == SectionMessage(m.psalm.title, m.psalm.reference, m.psalm.content)
    ensures p[|p| - 1].text == SectionMessage(m.gospel.reference, m.gospel.title, m.gospel.content)
  {
    var first := m.firstLecture;
    var psalm := m.psalm;
    var gospel := m.gospel;
    [Outgoing(DayMessage(m.day), "error sending day " + Escape(m.day) + " as Telegram message: "),
     Outgoing(SectionMessage(first.reference, first.title, first.content),
              "error sending first lecture as Telegram message: ")] +
    (match m.secondLecture
     case Some(second) =>
       [Outgoing(SectionMessage(second.reference, second.title, second.content),
                 "error sending second lecture as Telegram message: ")]
     case None => []) +
    [Outgoing(SectionMessage(psalm.title, psalm.reference, psalm.content),
              "error sending psalm as Telegram message: "),
     Outgoing(SectionMessage(gospel.reference, gospel.title, gospel.content),
              "error sending gospel as Telegram message: ")]
  }

  // ---------------------------------------------------------------------------
  // Sending to one chat

  /** An SQS record as the senders read it: the message body and the `chatID` message attribute. */
  datatype SqsRecord = SqsRecord(body: string, chatID: string)

  /** How far a send sequence got: the error that ended it, if any, and how many sends were attempted. */
  datatype Delivery = Delivery(error: Option<string>, attempted: nat)

  /** Each message in turn to `chatID`; the first failed send ends the sequence with its report. */
  function Deliver(api: TelegramApi, chatID: string, msgs: seq<Outgoing>): (d: Delivery)
    ensures 1 <= d.attempted <= |msgs| || (d.attempted == 0 && msgs == [])
    ensures d.error.None? ==> d.attempted == |msgs|
    decreases |msgs|
  {
    if msgs == [] then Delivery(None, 0)
    else
      match SendTelegram(api, chatID, msgs[0].text)
      case Err(e) => Delivery(Some(msgs[0].failure + e), 1)
      case Ok(_) =>
        var rest := Deliver(api, chatID, msgs[1..]);
        Delivery(rest.error, rest.attempted + 1)
  }

  /**
   * A delivery succeeds exactly when every send succeeds; a failed one made
   * its sends in order up to the first failure, all of them accepted but the
   * last, and reports that send's error after the message's failure text.
   */
  lemma {:induction false} DeliverLaws(api: TelegramApi, chatID: string, msgs: seq<Outgoing>)
    ensures var d := Deliver(api, chatID, msgs);
            (d.error.None? <==> forall k :: 0 <= k < |msgs| ==> SendTelegram(api, chatID, msgs[k].text).Ok?) &&
            (d.error.Some? ==>
               d.attempted >= 1 &&
               (forall k :: 0 <= k < d.attempted - 1 ==> SendTelegram(api, chatID, msgs[k].text).Ok?) &&
               var last := SendTelegram(api, chatID, msgs[d.attempted - 1].text);
               last.Err? && d.error == Some(msgs[d.attempted - 1].failure + last.msg))
    decreases |msgs|
  {
    if msgs != [] && SendTelegram(api, chatID, msgs[0].text).Ok? {
      DeliverLaws(api, chatID, msgs[1..]);
      assert forall k :: 1 <= k < |msgs| ==> msgs[k] == msgs[1..][k - 1];
    }
  }

  /**
   * When a send fails, nothing after it is attempted: the sends made are a
   * prefix of the plan, and the same plan with anything appended fails at the
   * same place with the same report.
   */
  lemma {:induction false} DeliverStopsAtFailure(api: TelegramApi, chatID: string, msgs: seq<Outgoing>, more: seq<Outgoing>)
    requires Deliver(api, chatID, msgs).error.Some?
    ensures Deliver(api, chatID, msgs + more) == Deliver(api, chatID, msgs)
    decreases |msgs|
  {
    assert (msgs + more)[0] == msgs[0];
    if SendTelegram(api, chatID, msgs[0].text).Ok? {
      assert (msgs + more)[1..] == msgs[1..] + more;
      DeliverStopsAtFailure(api, chatID, msgs[1..], more);
    }
  }

  /** A chat ID that is not a decimal 64-bit integer fails at the first message, the day. */
  lemma BadChatIdFailsFirst(api: TelegramApi, chatID: string, m: Magnificat)
    requires Text.ParseInt64(chatID).None?
    ensures Deliver(api, chatID, Plan(m)) ==
              Delivery(Some(Plan(m)[0].failure + SendTelegram(api, chatID, DayMessage(m.day)).msg), 1)
    ensures SendTelegram(api, chatID, DayMessage(m.day)) == Err(ChatIdError + Text.ParseIntError(chatID))
    ensures Plan(m)[0].failure == "error sending day " + Escape(m.day) + " as Telegram message: "
  {
    var p := Plan(m);
    assert p[0] == Outgoing(DayMessage(m.day), "error sending day " + Escape(m.day) + " as Telegram message: ");
  }
}
