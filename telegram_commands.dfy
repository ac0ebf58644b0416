/**
 * The webhook for bot commands. A Telegram update carries a message or a
 * channel post; the command is the word after a `/` in its text (for a
 * channel post only when addressed to the bot as `/word@name`). A valid
 * command subscribes, unsubscribes or asks for the day on demand; every
 * answer to a recognised update is a 200 response whose body asks Telegram
 * to send a reply to the chat, except a successful on-demand request.
 *
 * JSON decoding and encoding, the subscription store and the queue are not
 * part of this model: they are function parameters.
 */
module TelegramCommands {
  import opened Wrappers
  import opened Text
  import opened Json
  import opened Commands

  // ---------------------------------------------------------------------------
  // Updates and responses

  datatype UserMessage = UserMessage(chatID: Int64, chatType: string, fromID: Int64, date: Int64, text: string)
  datatype ChannelPost = ChannelPost(chatID: Int64, senderChatID: Int64, senderChatType: string, date: Int64, text: string)
  datatype Update = Update(message: Option<UserMessage>, channelPost: Option<ChannelPost>)

  /** The API gateway response. */
  datatype Response = Response(status: int, headers: map<string, string>, body: string)

  const StatusOK := 200
  const StatusBadRequest := 400
  const JsonHeaders: map<string, string> := map["Content-Type" := "application/json"]

  /** The bot name a channel post must address; this is its configured default. */
  const DefaultBotName := "magnifibot_bot"

  const InvalidMessage := "Invalid Telegram message: "
  const InvalidRequest := "Invalid request"
  const NotACommand := "Lo siento, solo acepto comandos de Telegram."
  const OnlyCommands := "Lo siento, solo acepto los siguientes comandos: "
  const SubscribeDone := "¡Hecho! Te enviaré el Evangelio cada día."
  const SubscribeFailed := "Lo siento, no he podido suscribirte: "
  const UnsubscribeDone := "¡Hecho! Ya no te enviaré más el Evangelio."
  const UnsubscribeFailed := "Lo siento, no he podido darte de baja: "
  const OnDemandFailed := "Lo siento, algo ha fallado"

  /** The reply Telegram is asked to send: the struct's set fields in order; the unset optional ones are omitted. */
  function ReplyJson(chatID: Int64, text: string): Json
  {
    JObject([("method", JString("sendMessage")), ("chat_id", JNumber(chatID)), ("text", JString(text))])
  }

  /** `createTelegramResponse`; the encoder cannot fail on this struct. */
  function TelegramResponse(encode: Json -> string, status: int, chatID: Int64, text: string): (r: Response)
    ensures r.status == status && r.headers == JsonHeaders
  {
    Response(status, JsonHeaders, encode(ReplyJson(chatID, text)))
  }

  /** The reply asks for `sendMessage` to the chat with exactly the given text. */
  lemma ReplyFields(chatID: Int64, text: string)
    ensures Keys(ReplyJson(chatID, text)) == ["method", "chat_id", "text"]
    ensures StringMember(ReplyJson(chatID, text), "method") == Some("sendMessage")
    ensures Member(ReplyJson(chatID, text), "chat_id") == Some(JNumber(chatID))
    ensures StringMember(ReplyJson(chatID, text), "text") == Some(text)
  {
    var ms := ReplyJson(chatID, text).members;
    FindAfter(ms, 0, "method");
    FindAfter(ms, 1, "chat_id");
    FindAfter(ms, 2, "text");
  }

  // ---------------------------------------------------------------------------
  // Finding the command

  /** The text's command pattern: `/(\w*)@?\w*` for a message, `/(\w*)@<name>` for a channel post. */
  datatype Pattern = MessagePattern | ChannelPattern(name: string)

  /** The word after the `/` at `p`: the longest run of word characters. */
  function WordAfter(body: string, p: nat): string
    requires p < |body|
  {
    body[p + 1..p + 1 + WordRun(body[p + 1..])]
  }

  /** Where the channel pattern matches: a `/`, its word, then `@` and the bot name. */
  predicate AddressedAt(body: string, p: nat, name: string)
    requires p < |body|
  {
    var rest := body[p + 1 + WordRun(body[p + 1..])..];
    body[p] == '/' && |rest| >= |name| + 1 && rest[..|name| + 1] == "@" + name
  }

  /** The first `/` at or after `i`, or the length of the text. */
  function SlashFrom(body: string, i: nat): (p: nat)
    requires i <= |body|
    ensures i <= p <= |body| && (p < |body| ==> body[p] == '/')
    ensures forall k :: i <= k < p ==> body[k] != '/'
    decreases |body| - i
  {
    if i == |body| || body[i] == '/' then i else SlashFrom(body, i + 1)
  }

  /** The first position at or after `i` where the channel pattern matches, or the length of the text. */
  function AddressedFrom(body: string, name: string, i: nat): (p: nat)
    requires i <= |body|
    ensures i <= p <= |body| && (p < |body| ==> AddressedAt(body, p, name))
    ensures forall k :: i <= k < p ==> !AddressedAt(body, k, name)
    decreases |body| - i
  {
    if i == |body| || AddressedAt(body, i, name) then i else AddressedFrom(body, name, i + 1)
  }

  /**
   * The message pattern's first capture group: every `/` starts a match, and
   * the group is the whole word run after the first one.
   */
  function MessageWord(body: string): (w: Option<string>)
    ensures w.None? <==> forall k :: 0 <= k < |body| ==> body[k] != '/'
    ensures w.Some? ==>
              exists p :: 0 <= p < |body| && body[p] == '/' && (forall k :: 0 <= k < p ==> body[k] != '/') &&
                          w.value == WordAfter(body, p)
  {
    var p := SlashFrom(body, 0);
    if p == |body| then None else Some(WordAfter(body, p))
  }

  /**
   * The channel pattern's first capture group: the match starts at the first
   * `/` whose word run is followed by `@` and the bot name. Such a match can
   * only use the whole run, since what follows a shorter run is a word
   * character and not `@`. The name is matched as literal text.
   */
  function ChannelWord(body: string, name: string): (w: Option<string>)
    ensures w.None? <==> forall p :: 0 <= p < |body| ==> !AddressedAt(body, p, name)
    ensures w.Some? ==>
              exists p :: 0 <= p < |body| && AddressedAt(body, p, name) &&
                          (forall k :: 0 <= k < p ==> !AddressedAt(body, k, name)) && w.value == WordAfter(body, p)
  {
    var p := AddressedFrom(body, name, 0);
    if p == |body| then None else Some(WordAfter(body, p))
  }

  /** `re.FindStringSubmatch(body)`, group 1, for the pattern the update calls for. */
  function Submatch(pattern: Pattern, body: string): Option<string>
  {
    match pattern
    case MessagePattern => MessageWord(body)
    case ChannelPattern(name) => ChannelWord(body, name)
  }

  // ---------------------------------------------------------------------------
  // Dispatch

  /** `Suscribe(chatID, userID, date, kind)`: nil or an error text. */
  type Subscriber = (Int64, Int64, Int64, string) -> Option<string>
  /** `Unsuscribe(chatID)`: nil or an error text. */
  type Unsubscriber = Int64 -> Option<string>
  /** `SendMessageToQueue(chatID, body)`: the message ID or an error text. */
  type Enqueue = (string, string) -> Result<string>

  /** The one outside call a command makes, if any. */
  datatype Effect =
    | NoEffect
    | Subscribed(chatID: Int64, userID: Int64, date: Int64, kind: string)
    | Unsubscribed(chatID: Int64)
    | Enqueued(recipient: string, body: string)

  /** The backends a command can reach. */
  datatype Backends = Backends(encode: Json -> string, subscribe: Subscriber, unsubscribe: Unsubscriber, enqueue: Enqueue)

  /**
   * What `handleCommand` answers for the extracted word `word`, given the
   * command list `listing` the map iteration produced, and the call it makes.
   */
  function Answer(b: Backends, word: Option<string>, listing: seq<string>, kind: string, chatID: Int64, userID: Int64,
                  date: Int64): (Response, Effect)
  {
    if word.None? then (TelegramResponse(b.encode, StatusOK, chatID, NotACommand), NoEffect)
    else
      var command := ToCommand(word.value);
      if command !in ValidCommands.Values then
        (TelegramResponse(b.encode, StatusOK, chatID, OnlyCommands + Join(listing, ", ")), NoEffect)
      else if ValidCommands["suscribe"] == command then
        var err := b.subscribe(chatID, userID, date, kind);
        (TelegramResponse(b.encode, StatusOK, chatID, if err.Some? then SubscribeFailed + err.value else SubscribeDone),
         Subscribed(chatID, userID, date, kind))
      else if ValidCommands["unsuscribe"] == command then
        var err := b.unsubscribe(chatID);
        (TelegramResponse(b.encode, StatusOK, chatID, if err.Some? then UnsubscribeFailed + err.value else UnsubscribeDone),
         Unsubscribed(chatID))
      else
        var id := FormatInt(chatID);
        var r := b.enqueue(id, "on_demand");
        (if r.Err? then TelegramResponse(b.encode, StatusOK, chatID, OnDemandFailed) else Response(StatusOK, map[], "success"),
         Enqueued(id, "on_demand"))
  }

  /** `handleCommand`. */
  method HandleCommand(b: Backends, pattern: Pattern, body: string, kind: string, chatID: Int64, userID: Int64,
                       date: Int64) returns (resp: Response, ghost effect: Effect, ghost listing: seq<string>)
    ensures ListsEachCommand(listing)
    ensures (resp, effect) == Answer(b, Submatch(pattern, body), listing, kind, chatID, userID, date)
  {
    var cmds, order := GetValidCommandsString();
    SlashedContents(order);
    listing := cmds;
    var submatch := Submatch(pattern, body);
    if submatch.None? {
      return TelegramResponse(b.encode, StatusOK, chatID, NotACommand), NoEffect, listing;
    }
    var command := ToCommand(submatch.value);
    var valid := IsValid(command);
    if !valid {
      return TelegramResponse(b.encode, StatusOK, chatID, OnlyCommands + Join(cmds, ", ")), NoEffect, listing;
    }
    if ValidCommands["suscribe"] == command {
      var err := b.subscribe(chatID, userID, date, kind);
      effect := Subscribed(chatID, userID, date, kind);
      if err.Some? {
        return TelegramResponse(b.encode, StatusOK, chatID, SubscribeFailed + err.value), effect, listing;
      }
      return TelegramResponse(b.encode, StatusOK, chatID, SubscribeDone), effect, listing;
    } else if ValidCommands["unsuscribe"] == command {
      var err := b.unsubscribe(chatID);
      effect := Unsubscribed(chatID);
      if err.Some? {
        return TelegramResponse(b.encode, StatusOK, chatID, UnsubscribeFailed + err.value), effect, listing;
      }
      return TelegramResponse(b.encode, StatusOK, chatID, UnsubscribeDone), effect, listing;
    }
    var id := FormatInt(chatID);
    var r := b.enqueue(id, "on_demand");
    effect := Enqueued(id, "on_demand");
    if r.Err? {
      return TelegramResponse(b.encode, StatusOK, chatID, OnDemandFailed), effect, listing;
    }
    resp := Response(StatusOK, map[], "success");
  }

  /**
   * `Handler`: a body that does not decode is a bad request; a message is
   * answered with the message pattern, to its chat and on behalf of its
   * sender; a channel post with the bot-addressed pattern, on behalf of the
   * posting chat; an update with neither is a bad request.
   */
  method Handler(b: Backends, decode: string -> Result<Update>, botName: string, request: string)
    returns (resp: Response, ghost effect: Effect, ghost listing: seq<string>)
    ensures decode(request).Err? ==>
              resp == Response(StatusBadRequest, JsonHeaders, InvalidMessage + decode(request).msg) && effect == NoEffect
    ensures decode(request).Ok? && decode(request).value.message.Some? ==>
              var m := decode(request).value.message.value;
              ListsEachCommand(listing) &&
              (resp, effect) == Answer(b, Submatch(MessagePattern, m.text), listing, m.chatType, m.chatID, m.fromID, m.date)
    ensures decode(request).Ok? && decode(request).value.message.None? && decode(request).value.channelPost.Some? ==>
              var c := decode(request).value.channelPost.value;
              ListsEachCommand(listing) &&
              (resp, effect) == Answer(b, Submatch(ChannelPattern(botName), c.text), listing, c.senderChatType, c.chatID,
                                       c.senderChatID, c.date)
    ensures decode(request).Ok? && decode(request).value.message.None? && decode(request).value.channelPost.None? ==>
              resp == Response(StatusBadRequest, JsonHeaders, InvalidRequest) && effect == NoEffect
  {
    var update := decode(request);
    if update.Err? {
      return Response(StatusBadRequest, JsonHeaders, InvalidMessage + update.msg), NoEffect, [];
    }
    if update.value.message.Some? {
      var m := update.value.message.value;
      resp, effect, listing := HandleCommand(b, MessagePattern, m.text, m.chatType, m.chatID, m.fromID, m.date);
      return;
    }
    if update.value.channelPost.Some? {
      var c := update.value.channelPost.value;
      resp, effect, listing := HandleCommand(b, ChannelPattern(botName), c.text, c.senderChatType, c.chatID,
                                             c.senderChatID, c.date);
      return;
    }
    return Response(StatusBadRequest, JsonHeaders, InvalidRequest), NoEffect, [];
  }

  // ---------------------------------------------------------------------------
  // Laws of the dispatch

  /** Every answer to a recognised update is a 200; only the on-demand success comes without the JSON header. */
  lemma AnswerStatus(b: Backends, word: Option<string>, listing: seq<string>, kind: string, chatID: Int64,
                     userID: Int64, date: Int64)
    ensures var (resp, effect) := Answer(b, word, listing, kind, chatID, userID, date);
            resp.status == StatusOK &&
            (resp.headers == JsonHeaders <==> !(effect.Enqueued? && b.enqueue(effect.recipient, effect.body).Ok?))
  {
    assert "Content-Type" in JsonHeaders;
  }

  /** A text with no command is answered with the apology, and nothing is called. */
  lemma NoCommandAnswer(b: Backends, listing: seq<string>, kind: string, chatID: Int64, userID: Int64, date: Int64)
    ensures Answer(b, None, listing, kind, chatID, userID, date) ==
              (Response(StatusOK, JsonHeaders, b.encode(ReplyJson(chatID, NotACommand))), NoEffect)
  {
  }

  /** A word that is not a command word is answered with the command list, and nothing is called. */
  lemma InvalidAnswer(b: Backends, w: string, listing: seq<string>, kind: string, chatID: Int64, userID: Int64,
                      date: Int64)
    requires w != "suscribirme" && w != "baja" && w != "obtener"
    ensures Answer(b, Some(w), listing, kind, chatID, userID, date) ==
              (Response(StatusOK, JsonHeaders, b.encode(ReplyJson(chatID, OnlyCommands + Join(listing, ", ")))), NoEffect)
  {
    ValidIff(ToCommand(w));
  }

  /** `suscribirme` subscribes the chat exactly once, and the reply says whether it worked. */
  lemma SubscribeAnswer(b: Backends, listing: seq<string>, kind: string, chatID: Int64, userID: Int64, date: Int64)
    ensures var err := b.subscribe(chatID, userID, date, kind);
            Answer(b, Some("suscribirme"), listing, kind, chatID, userID, date) ==
              (TelegramResponse(b.encode, StatusOK, chatID, if err.Some? then SubscribeFailed + err.value else SubscribeDone),
               Subscribed(chatID, userID, date, kind))
  {
    ValidIff(ToCommand("suscribirme"));
  }

  /** `baja` unsubscribes the chat, and the reply says whether it worked. */
  lemma UnsubscribeAnswer(b: Backends, listing: seq<string>, kind: string, chatID: Int64, userID: Int64, date: Int64)
    ensures var err := b.unsubscribe(chatID);
            Answer(b, Some("baja"), listing, kind, chatID, userID, date) ==
              (TelegramResponse(b.encode, StatusOK, chatID, if err.Some? then UnsubscribeFailed + err.value else UnsubscribeDone),
               Unsubscribed(chatID))
  {
    ValidIff(ToCommand("baja"));
  }

  /**
   * `obtener` enqueues `"on_demand"` for the chat's decimal ID; success is a
   * bare "success" with no reply to the chat, failure an apology.
   */
  lemma OnDemandAnswer(b: Backends, listing: seq<string>, kind: string, chatID: Int64, userID: Int64, date: Int64)
    ensures var r := b.enqueue(FormatInt(chatID), "on_demand");
            Answer(b, Some("obtener"), listing, kind, chatID, userID, date) ==
              (if r.Err? then TelegramResponse(b.encode, StatusOK, chatID, OnDemandFailed) else Response(StatusOK, map[], "success"),
               Enqueued(FormatInt(chatID), "on_demand"))
    ensures ParseInt64(FormatInt(chatID)) == Some(chatID)
  {
    ValidIff(ToCommand("obtener"));
    ParseFormatRoundTrip(chatID);
  }
}
