/**
 * The Magnifibot controller: the wiring of its three clients and its
 * configuration, the Telegram send with its chat-id parse, and the shape of
 * the gospel queue message.
 *
 * The clients themselves (DynamoDB, SQS, Telegram) are foreign; a client is
 * an opaque `Handle`, and what a client answers is a function parameter.
 */
module Controller {
  import opened Wrappers
  import opened Text
  import opened Extract

  const DefaultUserTable := "MagnifibotUser"
  const DefaultQueueName := "magnifibot"
  const TelegramParseMode := "MarkdownV2"
  const ChatIdError := "error converting chat ID from string to integer: "
  const TelegramError := "error sending telegram message: "

  /** An installed client, opaque to the controller. */
  datatype Handle = Handle(id: nat)

  /** `MagnifibotConfig`, shared by pointer with whoever built it. */
  class MagnifibotConfig {
    var userTable: string
    var queueURL: string

    constructor (userTable: string, queueURL: string)
      ensures this.userTable == userTable && this.queueURL == queueURL
    {
      this.userTable := userTable;
      this.queueURL := queueURL;
    }
  }

  /** The controller option closures. */
  datatype MagnifibotOption =
    | SetDynamoDBClient(client: Option<Handle>)
    | SetSQSClient(client: Option<Handle>)
    | SetTelegramClient(client: Option<Handle>)
    | SetConfig(config: MagnifibotConfig)

  /** Which field an option sets. */
  function Kind(o: MagnifibotOption): nat
  {
    match o
    case SetDynamoDBClient(_) => 0
    case SetSQSClient(_) => 1
    case SetTelegramClient(_) => 2
    case SetConfig(_) => 3
  }

  /** The controller's four fields. */
  datatype Wiring = Wiring(dynamo: Option<Handle>, sqs: Option<Handle>, telegram: Option<Handle>,
                           config: MagnifibotConfig)

  /** An option's effect on the fields, and the option it returns. */
  function Rewire(o: MagnifibotOption, w: Wiring): (Wiring, MagnifibotOption)
  {
    match o
    case SetDynamoDBClient(c) => (w.(dynamo := c), SetDynamoDBClient(w.dynamo))
    case SetSQSClient(c) => (w.(sqs := c), SetSQSClient(w.sqs))
    case SetTelegramClient(c) => (w.(telegram := c), SetTelegramClient(w.telegram))
    case SetConfig(c) => (w.(config := c), SetConfig(w.config))
  }

  /** Options applied left to right. */
  function RewireAll(opts: seq<MagnifibotOption>, w: Wiring): Wiring
    decreases |opts|
  {
    if opts == [] then w else RewireAll(opts[1..], Rewire(opts[0], w).0)
  }

  /** The field `o` sets holds the value `o` sets it to. */
  predicate InEffect(o: MagnifibotOption, w: Wiring)
  {
    match o
    case SetDynamoDBClient(c) => w.dynamo == c
    case SetSQSClient(c) => w.sqs == c
    case SetTelegramClient(c) => w.telegram == c
    case SetConfig(c) => w.config == c
  }

  /** The user table `SetConfig` leaves in the config it installs. */
  function Filled(userTable: string): (t: string)
    ensures t != ""
    ensures userTable != "" ==> t == userTable
  {
    if userTable == "" then DefaultUserTable else userTable
  }

  /** The configs the options install. */
  function Configs(opts: seq<MagnifibotOption>): set<MagnifibotConfig>
  {
    set i | 0 <= i < |opts| && opts[i].SetConfig? :: opts[i].config
  }

  class Magnifibot {
    var dynamo: Option<Handle>
    var sqs: Option<Handle>
    var telegram: Option<Handle>
    var config: MagnifibotConfig

    function Fields(): Wiring
      reads this
    {
      Wiring(dynamo, sqs, telegram, config)
    }

    /**
     * `NewMagnifibot`: no clients and a fresh config with the default user
     * table, then each option in turn.
     */
    constructor (opts: seq<MagnifibotOption>)
      modifies Configs(opts)
      ensures Fields() == RewireAll(opts, Wiring(None, None, None, config))
      ensures Configs(opts) == {} ==> fresh(config) && config.userTable == DefaultUserTable && config.queueURL == ""
      ensures Configs(opts) != {} ==> config in Configs(opts)
      ensures forall c | c in Configs(opts) ::
                c.userTable == Filled(old(c.userTable)) && c.queueURL == old(c.queueURL)
      ensures config.userTable != ""
    {
      var initial := new MagnifibotConfig(DefaultUserTable, "");
      dynamo, sqs, telegram := None, None, None;
      config := initial;
      new;
      InstallAll(opts, initial);
      ConfigIrrelevant(opts, config, initial);
    }

    /**
     * The constructor's range loop over its options, from the fields `initial`
     * left: a fresh config the options do not name.
     */
    method InstallAll(opts: seq<MagnifibotOption>, ghost initial: MagnifibotConfig)
      requires Fields() == Wiring(None, None, None, initial) && initial !in Configs(opts)
      modifies this, Configs(opts)
      ensures Fields() == RewireAll(opts, Wiring(None, None, None, initial))
      ensures Configs(opts) == {} ==> config == initial
      ensures Configs(opts) != {} ==> config in Configs(opts)
      ensures initial.userTable == old(initial.userTable) && initial.queueURL == old(initial.queueURL)
      ensures forall c | c in Configs(opts) ::
                c.userTable == Filled(old(c.userTable)) && c.queueURL == old(c.queueURL)
    {
      ghost var all := Configs(opts);
      ghost var done: set<MagnifibotConfig> := {};
      ghost var installed := false;
      assert opts[..0] == [];
      var i := 0;
      while i < |opts|
        invariant 0 <= i <= |opts|
        invariant done == Configs(opts[..i]) && done <= all
        invariant RewireAll(opts[i..], Fields()) == RewireAll(opts, Wiring(None, None, None, initial))
        invariant initial.userTable == old(initial.userTable) && initial.queueURL == old(initial.queueURL)
        invariant !installed ==> config == initial && done == {}
        invariant installed ==> config in done
        invariant forall c | c in all ::
                    c.queueURL == old(c.queueURL) &&
                    c.userTable == (if c in done then Filled(old(c.userTable)) else old(c.userTable))
        modifies this, all
      {
        assert opts[i..][1..] == opts[i + 1..];
        ConfigsSnoc(opts, i);
        var _ := Apply(opts[i]);
        if opts[i].SetConfig? {
          done, installed := done + {opts[i].config}, true;
        }
        i := i + 1;
      }
      assert opts[..|opts|] == opts;
    }

    /** Runs one option closure on this controller; returns its undo. */
    method Apply(o: MagnifibotOption) returns (undo: MagnifibotOption)
      modifies this, if o.SetConfig? then {o.config} else {}
      ensures (Fields(), undo) == Rewire(o, old(Fields()))
      ensures o.SetConfig? ==> o.config.userTable == Filled(old(o.config.userTable)) &&
                               o.config.queueURL == old(o.config.queueURL)
    {
      match o
      case SetDynamoDBClient(c) =>
        var prev := dynamo;
        dynamo := c;
        undo := SetDynamoDBClient(prev);
      case SetSQSClient(c) =>
        var prev := sqs;
        sqs := c;
        undo := SetSQSClient(prev);
      case SetTelegramClient(c) =>
        var prev := telegram;
        telegram := c;
        undo := SetTelegramClient(prev);
      case SetConfig(c) =>
        var prev := config;
        if c.userTable == "" {
          c.userTable := DefaultUserTable;
        }
        config := c;
        undo := SetConfig(prev);
    }

    /** `GetConfig`: the installed config itself, not a copy. */
    function GetConfig(): MagnifibotConfig
      reads this
    {
      config
    }
  }

  lemma ConfigsSnoc(opts: seq<MagnifibotOption>, i: nat)
    requires i < |opts|
    ensures Configs(opts[..i + 1]) == Configs(opts[..i]) + (if opts[i].SetConfig? then {opts[i].config} else {})
    ensures Configs(opts[..i]) <= Configs(opts)
  {
    var a, b := opts[..i + 1], opts[..i];
    forall c | c in Configs(a) ensures c in Configs(b) + (if opts[i].SetConfig? then {opts[i].config} else {}) {
      var j :| 0 <= j < |a| && a[j].SetConfig? && a[j].config == c;
      if j < i {
        assert b[j] == a[j];
      }
    }
    forall c | c in Configs(b) ensures c in Configs(a) && c in Configs(opts) {
      var j :| 0 <= j < |b| && b[j].SetConfig? && b[j].config == c;
      assert a[j] == b[j] && opts[j] == b[j];
    }
    if opts[i].SetConfig? {
      assert a[i] == opts[i];
    }
  }

  /** Only the last `SetConfig` decides the config; the starting one matters only when there is none. */
  lemma {:induction false} ConfigIrrelevant(opts: seq<MagnifibotOption>, a: MagnifibotConfig, b: MagnifibotConfig)
    requires Configs(opts) != {} || a == b
    ensures RewireAll(opts, Wiring(None, None, None, a)) == RewireAll(opts, Wiring(None, None, None, b))
  {
    ConfigIrrelevantFrom(opts, Wiring(None, None, None, a), Wiring(None, None, None, b));
  }

  lemma {:induction false} ConfigIrrelevantFrom(opts: seq<MagnifibotOption>, v: Wiring, w: Wiring)
    requires v.(config := w.config) == w
    requires Configs(opts) != {} || v == w
    ensures RewireAll(opts, v) == RewireAll(opts, w)
    decreases |opts|
  {
    if opts != [] {
      var v', w' := Rewire(opts[0], v).0, Rewire(opts[0], w).0;
      assert Configs(opts) == Configs(opts[1..]) + (if opts[0].SetConfig? then {opts[0].config} else {}) by {
        forall c | c in Configs(opts) ensures c in Configs(opts[1..]) + (if opts[0].SetConfig? then {opts[0].config} else {}) {
          var i :| 0 <= i < |opts| && opts[i].SetConfig? && opts[i].config == c;
          if i > 0 {
            assert opts[1..][i - 1] == opts[i];
          }
        }
        forall c | c in Configs(opts[1..]) ensures c in Configs(opts) {
          var i :| 0 <= i < |opts[1..]| && opts[1..][i].SetConfig? && opts[1..][i].config == c;
          assert opts[i + 1] == opts[1..][i];
        }
      }
      ConfigIrrelevantFrom(opts[1..], v', w');
    }
  }

  /**
   * Every option returns the option that puts the previous value back, and
   * the undo of the undo is the option itself. Each option changes its own
   * field and no other.
   */
  lemma UndoRestores(o: MagnifibotOption, w: Wiring)
    ensures var (w1, undo) := Rewire(o, w);
            var (w2, redo) := Rewire(undo, w1);
            w2 == w && redo == o && Kind(undo) == Kind(o)
    ensures var w1 := Rewire(o, w).0;
            InEffect(o, w1) &&
            (Kind(o) != 0 ==> w1.dynamo == w.dynamo) && (Kind(o) != 1 ==> w1.sqs == w.sqs) &&
            (Kind(o) != 2 ==> w1.telegram == w.telegram) && (Kind(o) != 3 ==> w1.config == w.config)
  {
  }

  /** Options apply left to right: a later option for the same field wins. */
  lemma {:induction false} LaterWins(opts: seq<MagnifibotOption>, o: MagnifibotOption, rest: seq<MagnifibotOption>, w: Wiring)
    requires forall i :: 0 <= i < |rest| ==> Kind(rest[i]) != Kind(o)
    ensures InEffect(o, RewireAll(opts + [o] + rest, w))
    decreases |opts|
  {
    if opts == [] {
      assert ([] + [o] + rest)[1..] == rest;
      OthersKeep(rest, o, Rewire(o, w).0);
    } else {
      assert (opts + [o] + rest)[1..] == opts[1..] + [o] + rest;
      LaterWins(opts[1..], o, rest, Rewire(opts[0], w).0);
    }
  }

  lemma {:induction false} OthersKeep(rest: seq<MagnifibotOption>, o: MagnifibotOption, w: Wiring)
    requires forall i :: 0 <= i < |rest| ==> Kind(rest[i]) != Kind(o)
    requires InEffect(o, w)
    ensures InEffect(o, RewireAll(rest, w))
    decreases |rest|
  {
    if rest != [] {
      OthersKeep(rest[1..], o, Rewire(rest[0], w).0);
    }
  }

  // ---------------------------------------------------------------------------
  // Telegram

  /** `telego.SendMessageParams`, reduced to the fields the controller sets. */
  datatype SendMessageParams = SendMessageParams(chatID: Int64, parseMode: string, text: string)

  /** What the installed Telegram client answers: the sent message's ID, or its error text. */
  type TelegramApi = SendMessageParams -> Result<int>

  /** `SendTelegram`. */
  function SendTelegram(api: TelegramApi, chatID: string, message: string): (r: Result<int>)
    ensures ParseInt64(chatID).None? ==> r == Err(ChatIdError + ParseIntError(chatID))
    ensures r.Ok? ==> ParseInt64(chatID).Some? &&
                      api(SendMessageParams(ParseInt64(chatID).value, TelegramParseMode, message)) == r
  {
    match ParseInt64(chatID)
    case None => Err(ChatIdError + ParseIntError(chatID))
    case Some(id) =>
      match api(SendMessageParams(id, TelegramParseMode, message))
      case Err(e) => Err(TelegramError + e)
      case Ok(messageID) => Ok(messageID)
  }

  /** A chat ID that does not parse fails the same way whatever the client would have answered: no call is made. */
  lemma BadChatIdNoCall(api1: TelegramApi, api2: TelegramApi, chatID: string, message: string)
    requires ParseInt64(chatID).None?
    ensures SendTelegram(api1, chatID, message) == SendTelegram(api2, chatID, message)
    ensures SendTelegram(api1, chatID, message).Err?
  {
  }

  /** Sending to the decimal spelling of an ID reaches the client with that ID, and maps its answer. */
  lemma SendToDecimalId(api: TelegramApi, id: Int64, message: string)
    ensures var a := api(SendMessageParams(id, TelegramParseMode, message));
            SendTelegram(api, FormatInt(id), message) ==
              if a.Ok? then Ok(a.value) else Err(TelegramError + a.msg)
  {
    ParseFormatRoundTrip(id);
  }

  /** The chat ID `"id"` is rejected with `strconv.ParseInt`'s syntax error, and nothing is sent. */
  lemma ChatIdLettersRejected(api: TelegramApi, message: string)
    ensures SendTelegram(api, "id", message) == Err(ChatIdError + "strconv.ParseInt: parsing \"id\": invalid syntax")
  {
    assert !IsDigit("id"[0]) && !DecimalSyntax("id");
    assert ParseIntError("id") == "strconv.ParseInt: parsing \"id\": invalid syntax";
  }

  /** The empty chat ID is rejected with `strconv.ParseInt`'s syntax error, and nothing is sent. */
  lemma ChatIdEmptyRejected(api: TelegramApi, message: string)
    ensures SendTelegram(api, "", message) == Err(ChatIdError + "strconv.ParseInt: parsing \"\": invalid syntax")
  {
    assert !DecimalSyntax("");
    assert ParseIntError("") == "strconv.ParseInt: parsing \"\": invalid syntax";
  }

  /** The chat ID `"12"` is sent to chat 12. */
  lemma ChatIdAcceptedExample(api: TelegramApi, message: string)
    requires api(SendMessageParams(12, TelegramParseMode, message)) == Ok(12)
    ensures SendTelegram(api, "12", message) == Ok(12)
  {
    assert Value("12") == 12 by {
      assert "12"[..1] == "1";
      assert "1"[..0] == "";
    }
    assert ParseInt64("12") == Some(12);
  }

  // ---------------------------------------------------------------------------
  // Gospel queue message

  /** An SQS message attribute. */
  datatype MessageAttribute = MessageAttribute(dataType: string, stringValue: string)

  /** `sqs.SendMessageInput`, reduced to the fields the controller sets. */
  datatype SendMessageInput = SendMessageInput(queueUrl: string, messageBody: string,
                                               attributes: map<string, MessageAttribute>)

  /** What the installed SQS client answers: the message ID, or its error text. */
  type QueueApi = SendMessageInput -> Result<string>

  /** The message `SendGospelToQueue` sends. */
  function QueueMessage(queueURL: string, chatID: string, gospel: Gospel): (m: SendMessageInput)
    ensures m.queueUrl == queueURL && m.messageBody == gospel.content
    ensures m.attributes.Keys == {"chatID", "gospelTitle", "gospelDay", "gospelReference"}
    ensures m.attributes["chatID"].dataType == "Number"
    ensures forall k | k in m.attributes && k != "chatID" :: m.attributes[k].dataType == "String"
  {
    SendMessageInput(queueURL, gospel.content, map[
      "chatID" := MessageAttribute("Number", chatID),
      "gospelTitle" := MessageAttribute("String", gospel.title),
      "gospelDay" := MessageAttribute("String", gospel.day),
      "gospelReference" := MessageAttribute("String", gospel.reference)])
  }

  /** A consumer's reading of a gospel queue message. */
  function MessageGospel(m: SendMessageInput): Option<(string, Gospel)>
  {
    if m.attributes.Keys >= {"chatID", "gospelTitle", "gospelDay", "gospelReference"} then
      Some((m.attributes["chatID"].stringValue,
            Gospel(m.attributes["gospelDay"].stringValue, m.attributes["gospelTitle"].stringValue,
                   m.attributes["gospelReference"].stringValue, m.messageBody)))
    else None
  }

  /** The queue message carries the chat ID and every field of the gospel. */
  lemma QueueMessageRoundTrip(queueURL: string, chatID: string, gospel: Gospel)
    ensures MessageGospel(QueueMessage(queueURL, chatID, gospel)) == Some((chatID, gospel))
  {
  }

  /** `SendGospelToQueue`: a send error comes back as it is; a send returns the message ID. */
  function SendGospelToQueue(api: QueueApi, m: Magnifibot, chatID: string, gospel: Gospel): (r: Result<string>)
    reads m, m.config
    ensures r == api(QueueMessage(m.config.queueURL, chatID, gospel))
  {
    match api(QueueMessage(m.config.queueURL, chatID, gospel))
    case Err(e) => Err(e)
    case Ok(id) => Ok(id)
  }
}
