# Magnifibot, modelled in Dafny

Magnifibot is a Telegram bot. It reads the day's liturgy (first lecture, psalm, optional second lecture, gospel) from the archimadrid provider and sends it to the bot's subscribers. This project models the pipeline between the provider and Telegram, and proves properties of that model. The pipeline has these parts:

- **Section extraction** (`Extract`, `Sections`). A provider record's HTML body has its newlines and tabs deleted. A section pattern then picks out the section's span, and the captured marker is deleted from that span. The first title node gives the title and the first reference node gives the reference. The `<p>` texts are joined by the accumulator rule:
  - empty paragraphs are skipped;
  - the first non-empty paragraph starts the content;
  - every later paragraph follows a single newline;
  - outside the psalm, a paragraph in the last node position follows a blank line instead.

  The older gospel-only extractor (`EVANGELIO.*`) is modelled as well. The regex engine and the HTML parser are the abstract `Engine`.
- **The day cache** (`Archimadrid`). `Client` is a class with the provider URL, the cache TTL, a `map` cache and a ghost count of provider calls. A section lookup tries three things in order:
  1. the section's artifact key (`prefix + YYYY-MM-DD`);
  2. the day's raw record (`"response " + day`);
  3. only then a fetch, which caches the raw record and then the artifact.

  The older `GetGospel` has a single artifact key (`"gospel " + day`). As written, it caches a nil pointer after a fetch, and the handlers call it as written; see Findings. The options `SetURL` and `SetCacheTTL` each return the option that undoes them.
- **The day's lookups** (`Day`). `Notify` and `OnDemand` make four lookups in the same order: gospel, first lecture, psalm, second lecture. The gospel lookup is the older one as written, so a round that fetched the gospel leaves nil under the gospel key, and the next round on the same client finds that nil and dereferences it. In `OnDemand` this is the batch's second record (OnDemand/main.go:134). In `Notify` it is the next invocation on a warm client (GetGospelAndNotify/main.go:141). The rounds with the gospel lookup corrected are modelled beside them.
  - A failure is logged as fatal, which ends the process.
  - A nil section would be dereferenced.
  - Otherwise the sections are assembled into a `Magnificat`. The second lecture is included only when it has content.
- **Rendering and sending** (`Render`). The escape puts a backslash before each character of a fixed class. Messages use the `*reference\ntitle*\n\nbody` template; for the psalm, the title goes into the reference slot and the reference into the title slot. A chat's messages go out in order: day, first lecture, second lecture if any, psalm, gospel. The first failed send stops them.
- **The handlers.**
  - `SendGospel` sends a serialized day to one chat per queue record, with the records independent of each other.
  - `OnDemand` serves its records in order, and the first failed send returns at once.
  - `Notify` serializes the day once and enqueues that payload for every subscriber.
  - `TelegramCommands` answers the bot's webhook: subscribe, unsubscribe, or ask for the day on demand.

  The concurrent fan-outs and their error collectors are `FanOut`. They are modelled as sequential loops, with the collected errors stated up to order.
- **The controller** (`Controller`) covers the following:
  - the option setters, each of which returns its own undo;
  - the default user table that `SetConfig` fills in;
  - the decimal chat-id parse before a Telegram send;
  - the shape of the gospel queue message.

  `Commands` is the bot's command map, with its validity check and its command lists.

Foreign parts become function parameters:

- the provider round trip (`Provider`);
- the regex engine and the HTML parser (`Engine`);
- the Telegram and SQS clients (`TelegramApi`, `QueueApi`);
- the subscription store and the on-demand enqueue (`Backends`);
- the JSON text codec (`Json -> string`, `string -> Result<...>`).

The current day is a `Date` argument. Go's string functions used by the core are defined in `Text`: `strings.Join`, `strings.ReplaceAll` with an empty replacement, `%d`, `strconv.ParseInt` in base 10, and `\w` runs.

Where the repository's own tests disagree with the code, the model follows the code:

- A section that the pattern finds but whose fragment holds no `<p>` paragraph gets its title and reference, empty content and no error (`archimadrid/client.go:204-249`). The test "Empty First Lecture" (archimadrid/client_test.go:245-253) expects an error in this case.
- The command map has three entries, so every command list has three words. Two tests expect two.

## Model

| member | source | states |
|---|---|---|
| Text.Join | SendGospel/main.go:261 | `strings.Join`: the pieces with one separator between neighbours; its laws are `JoinSnoc` and `JoinEmptyIff` |
| Text.JoinSnoc | archimadrid/client.go:225-241 | appending a piece to a join adds exactly one separator before it, none when the join was empty |
| Text.JoinEmptyIff | archimadrid/client.go:231 | a join of non-empty pieces is empty exactly when there are no pieces, so the loop's `content == ""` test means "nothing kept yet" |
| Text.DeleteAll | archimadrid/client.go:218 | deleting a pattern never lengthens the text |
| Text.DeleteAllAbsent | archimadrid/client.go:218 | deleting a pattern that does not occur changes nothing |
| Text.SplitJoin | archimadrid/client.go:218 | splitting at the pattern and joining back with it restores the text, so deletion loses exactly the occurrences |
| Text.DeleteAllConcat | archimadrid/client.go:218 | deletion leaves exactly the pieces between occurrences, side by side |
| Text.SplitPiecesFree | archimadrid/client.go:218 | no piece left between the cut points contains the pattern: every occurrence is removed |
| Text.DeleteCharGone | archimadrid/client.go:206-207 | deleting a one-character pattern removes every copy of that character |
| Text.DeleteCharKeeps | archimadrid/client.go:206-207 | deleting a character keeps every other character with its count |
| Text.WordRun | HandleTelegramCommands/main.go:161 | the `\w*` run is the longest prefix of word characters: all word characters, followed by a non-word character or the end |
| Text.ParseInt64 | controller/telegram.go:16-19 | accepted exactly when the text is an optional sign and decimal digits whose signed value lies in the 64-bit range, and then the result is that value |
| Text.ParseIntError | controller/telegram.go:16-19 | ParseInt's error text: the quoted input, then "value out of range" when the spelling is valid or a digit prefix exceeds the unsigned 64-bit maximum before any other character, "invalid syntax" otherwise |
| Text.Quote | controller/telegram.go:16-19 | `strconv.Quote` on ASCII: the text in double quotes, never shorter than the text plus the two quotes |
| Text.QuoteChar | controller/telegram.go:16-19 | a character is kept exactly when it is not a quote, a backslash or a control character; every other one becomes an escape starting with a backslash |
| Text.QuotePlain | controller/telegram.go:16-19 | a text with no quote, backslash or control character is quoted as it is |
| Text.QuoteBodyConcat | controller/telegram.go:16-19 | quoting distributes over concatenation |
| Text.FormatInt | HandleTelegramCommands/main.go:241 | `%d` is never empty and starts with `-` exactly for negative numbers |
| Text.DecimalValue | HandleTelegramCommands/main.go:241 | `%d` of a natural number is a non-empty digit string that reads back as that number |
| Text.PadDecimalValue | archimadrid/client.go:147 | a zero-padded field has exactly its width and reads back as the number when it fits |
| Text.ParseFormatRoundTrip | HandleTelegramCommands/main.go:241 | parsing the `%d` spelling of any 64-bit integer gives it back, so the on-demand chat id reaches `SendTelegram` intact |
| Calendar.Format | archimadrid/client.go:147 | `YYYY-MM-DD` is ten characters with dashes at positions 4 and 7 |
| Calendar.FormatInjective | archimadrid/client.go:147-148 | different days never share a spelling, so day keys never collide |
| Calendar.FieldsOf | archimadrid/client.go:147 | the three digit groups of the spelling read back as year, month and day |
| Extract.Collapse | archimadrid/client.go:206-207 | the collapsed body contains no newline and no tab |
| Extract.NonEmpty | archimadrid/client.go:229-230 | the kept paragraphs are no more than the nodes and none is empty |
| Extract.NonEmptyChars | archimadrid/client.go:229-230 | every kept paragraph is one of the node texts |
| Extract.Content | archimadrid/client.go:223-245 | the specification of the paragraph accumulator; `JoinContent` proves the loop computes it, and the lemmas below state what it is |
| Extract.JoinContent | archimadrid/client.go:225-241 | the accumulator loop yields `Content`: the kept paragraphs one per line, a blank line before a last-node paragraph outside the psalm |
| Extract.JoinLaw | archimadrid/client.go:225-241 | with every node non-empty: lectures join all but the last with newlines and set the last off by a blank line; the psalm joins all with single newlines |
| Extract.EmptyParagraphSkipped | archimadrid/client.go:229-230 | an empty node anywhere before the last position changes nothing in the content |
| Extract.TrailingEmptyParagraph | archimadrid/client.go:230-235 | an empty last node introduces no blank line: the content is the kept paragraphs one per line |
| Extract.ContentStartsWithFirst | archimadrid/client.go:231-234 | the content starts with the first non-empty paragraph, with no separator before it |
| Extract.LastParagraphSetOff | archimadrid/client.go:235-237 | outside the psalm, a non-empty last node after kept paragraphs ends the content as `"\n\n" + node` |
| Extract.PsalmSingleNewlines | archimadrid/client.go:235-239 | with the psalm flag and newline-free nodes the content never contains a blank line |
| Extract.FromResponse | archimadrid/client.go:204-249 | the specification of the section extractor; `GospelOrLectureFromResponse` proves the method computes it and states its cases |
| Extract.GospelOrLectureFromResponse | archimadrid/client.go:204-248 | day is always the record title; no match gives a day-only section and no error; the only error is "invalid regex", exactly when the re-match has no group; otherwise the marker is deleted and the fields come from the parsed fragment |
| Extract.LegacyFromResponse | archimadrid/gospel.go:106-140 | the specification of the older gospel extractor; `LegacyGospelFromResponse` proves the method computes it and states its cases |
| Extract.LegacyGospelFromResponse | archimadrid/gospel.go:106-140 | day is the record title; `EVANGELIO` is deleted from the `EVANGELIO.*` span; no match with an empty parse gives a day-only gospel; the content uses the non-psalm join |
| Sections.PrefixesDistinct | archimadrid/lectures.go:9 | the first lecture, second lecture, psalm, gospel and raw-record prefixes all differ in their first letter |
| Sections.LectureEnding | archimadrid/lectures.go:8-14 | a lecture whose last node is "Palabra de Dios." ends with `"\n\nPalabra de Dios."` |
| Sections.PsalmJoin | archimadrid/psalm.go:8-10 | the psalm's content uses single newlines only |
| Archimadrid.GospelFromCache | archimadrid/client.go:102-111 | success exactly when the key holds an artifact (nil included); a missing key is the cache's error, a raw record the type error |
| Archimadrid.ResponseFromCache | archimadrid/client.go:113-122 | success exactly when the key holds a raw record; a missing key is the cache's error, an artifact the type error |
| Archimadrid.Client.constructor | archimadrid/client.go:67-82 | the settings are the defaults (DefaultURL, 24h) with the options applied in order; the cache starts empty |
| Archimadrid.Client.Apply | archimadrid/client.go:84-100 | one option changes its setting and returns the option restoring the old value; the cache is untouched |
| Archimadrid.Client.SaveInCache | archimadrid/client.go:124-126 | the key now holds the value and nothing else changes |
| Archimadrid.Client.Fetch | archimadrid/client.go:162-182 | one provider round trip with the client's URL and the day, counted once |
| Archimadrid.Client.GetGospelOrLecture | archimadrid/client.go:142-202 | result, cache and fetch count are those of `Resolve` on the old cache; settings unchanged; no nil artifact is ever cached |
| Archimadrid.Client.GetFirstLecture | archimadrid/lectures.go:8-10 | the shared lookup with the first lecture's pattern, prefix and the non-psalm join |
| Archimadrid.Client.GetSecondLecture | archimadrid/lectures.go:12-14 | the shared lookup with the second lecture's pattern, prefix and the non-psalm join |
| Archimadrid.Client.GetPsalm | archimadrid/psalm.go:8-10 | the shared lookup with the psalm's pattern, prefix and the psalm join |
| Archimadrid.Client.GetGospelAsWritten | archimadrid/gospel.go:59-104 | the older lookup as written: after a fetch it returns the extracted gospel and caches nil |
| Archimadrid.Client.GetGospel | archimadrid/gospel.go:59-104 | the older lookup caching the gospel it extracted; keeps the cache free of nil artifacts |
| Archimadrid.Client.GospelLookup | archimadrid/gospel.go:59-104 | the older lookup, with what is cached after a fetch as a parameter |
| Archimadrid.Resolve | archimadrid/client.go:142-202 | the specification of one section lookup: the artifact key, else the raw record, else a fetch caching the raw record and then the artifact; its properties are the lemmas below |
| Archimadrid.ResolveGospelStoring | archimadrid/gospel.go:59-104 | the specification of the older gospel lookup: the gospel key, else a fetch, with what is cached after it a parameter (nil as written, the gospel corrected) |
| Archimadrid.ArtifactKeyInjective | archimadrid/client.go:148 | two artifact keys with one prefix are equal only for the same day |
| Archimadrid.KeysApart | archimadrid/client.go:148-153 | a section's artifact key is never a raw-record key, a gospel key or another section's key |
| Archimadrid.ArtifactHit | archimadrid/client.go:148-151 | a cached artifact is returned as it is, with no write and no fetch |
| Archimadrid.ResponseHit | archimadrid/client.go:153-160 | with no artifact but a cached raw record: extract, cache only the artifact, no fetch |
| Archimadrid.FetchOnlyOnMiss | archimadrid/client.go:147-173 | the provider is called exactly when neither the artifact nor the raw record is cached |
| Archimadrid.FetchStores | archimadrid/client.go:183-201 | an empty array is an error and caches nothing; otherwise the raw record is cached, and on success the artifact too |
| Archimadrid.RepeatNoFetch | archimadrid/client.go:147-201 | after a successful lookup the same lookup returns the same result with no write and no fetch: at most one fetch per section and day |
| Archimadrid.OtherSectionNoFetch | archimadrid/client.go:153-160 | once one section fetched the day's records, every other section is served from the raw record with no fetch |
| Archimadrid.ResolveKeepsNoNil | archimadrid/client.go:142-202 | the shared lookup never caches nil and returns nil only when nil was cached |
| Archimadrid.ResolveNilLocal | archimadrid/client.go:142-202 | the shared lookup returns nil only when nil is cached under its own key, and never caches nil |
| Archimadrid.IsGospelKey | archimadrid/gospel.go:61 | the older gospel lookup's keys: those starting with its prefix |
| Archimadrid.ResolveKeepsNilOnlyGospel | archimadrid/client.go:142-202 | with nil cached under gospel keys at most, a section lookup finds no nil and caches none |
| Archimadrid.ResolveGospelKeepsNilOnlyGospel | archimadrid/gospel.go:59-104 | the older gospel lookup, as written or corrected, caches nil under its own key at most |
| Archimadrid.ResolveGospelKeepsNoNil | archimadrid/gospel.go:59-104 | the corrected older lookup never caches nil and returns nil only when nil was cached |
| Archimadrid.GospelLookupLaws | archimadrid/gospel.go:60-91 | a cached gospel is returned with no fetch; an empty array is "no gospel found for day"; the raw-record key is never written |
| Archimadrid.GospelSecondLookupNil | archimadrid/gospel.go:103 | as written, a second request for a freshly fetched day returns nil and no error, without a fetch |
| Archimadrid.GospelSecondLookupSame | archimadrid/gospel.go:103 | corrected, the second request returns the same gospel, without a fetch |
| Archimadrid.UndoRestores | archimadrid/client.go:84-100 | every option's returned option restores the setting, and the undo of the undo is the option |
| Archimadrid.LastURLWins | archimadrid/client.go:73-75 | options apply left to right: the last `SetURL` decides the URL |
| Archimadrid.RestKeepsURL | archimadrid/client.go:93-100 | `SetCacheTTL` leaves the URL alone |
| Commands.ToCommand | api/command.go:34-36 | the conversion keeps the text |
| Commands.ValidValues | api/command.go:7 | the command words are exactly "suscribirme", "baja" and "obtener" |
| Commands.IsValid | api/command.go:9-16 | the search loop answers true exactly when the command is one of the map's values |
| Commands.ValidIff | api/command.go:7-16 | a command is valid exactly when its text is one of the three words |
| Commands.NotCommands | api/command.go:7-16 | map keys and slash-prefixed words are never valid |
| Commands.GetValidCommandsString | api/command.go:26-32 | the list is `"/" + value` for each key in the order the iteration visited every key once |
| Commands.GetValidCommands | api/command.go:18-24 | the same list as `Command` values |
| Commands.SlashedContents | api/command.go:26-32 | whatever the order, the list has three entries holding "/suscribirme", "/baja" and "/obtener" |
| TelegramCommands.TelegramResponse | HandleTelegramCommands/main.go:267-295 | the reply has the given status and the JSON content-type header |
| TelegramCommands.ReplyFields | HandleTelegramCommands/main.go:272-276 | the reply body asks for `sendMessage` to the chat with exactly the given text, fields in struct order |
| TelegramCommands.MessageWord | HandleTelegramCommands/main.go:161 | no command exactly when the text has no `/`; otherwise the word run after the first `/` |
| TelegramCommands.ChannelWord | HandleTelegramCommands/main.go:180 | no command exactly when no `/word@name` occurs; otherwise the word of the first such occurrence |
| TelegramCommands.SlashFrom | HandleTelegramCommands/main.go:197 | the first `/` at or after a position, or the end |
| TelegramCommands.AddressedFrom | HandleTelegramCommands/main.go:197 | the first position at or after a position where `/word@name` matches, or the end |
| TelegramCommands.Answer | HandleTelegramCommands/main.go:195-265 | the specification of one command's reply and outside call; its cases are the `...Answer` lemmas below |
| TelegramCommands.HandleCommand | HandleTelegramCommands/main.go:195-265 | the response and the one outside call are `Answer` of the extracted word, with a listing holding each command once |
| TelegramCommands.Handler | HandleTelegramCommands/main.go:123-193 | undecodable body is 400 with the decode error; a message is answered with the message pattern for its chat and sender; a channel post with the bot-addressed pattern for the posting chat; neither is 400 "Invalid request"; no call in the 400 cases |
| TelegramCommands.AnswerStatus | HandleTelegramCommands/main.go:195-295 | every command answer is 200; only a successful on-demand enqueue comes without the JSON header |
| TelegramCommands.NoCommandAnswer | HandleTelegramCommands/main.go:260-264 | no command gets the "solo acepto comandos" reply and no call |
| TelegramCommands.InvalidAnswer | HandleTelegramCommands/main.go:200-209 | any other word gets the reply listing the commands joined with ", ", and no call |
| TelegramCommands.SubscribeAnswer | HandleTelegramCommands/main.go:210-223 | "suscribirme" subscribes once with chat, user, date and kind; the reply is the success text or the apology with the error |
| TelegramCommands.UnsubscribeAnswer | HandleTelegramCommands/main.go:224-238 | "baja" unsubscribes the chat; the reply is the success text or the apology with the error |
| TelegramCommands.OnDemandAnswer | HandleTelegramCommands/main.go:240-258 | "obtener" enqueues "on_demand" for the decimal chat id, which parses back to the chat; success is a bare 200 "success", failure the apology |
| Controller.MagnifibotConfig.constructor | controller/magnifibot.go:63-69 | a config with the given user table and queue URL |
| Controller.Filled | controller/magnifibot.go:116-118 | the installed user table is never empty and keeps a non-empty one |
| Controller.Magnifibot.constructor | controller/magnifibot.go:71-82 | the fields are the options applied in order to no clients and a fresh config; with no `SetConfig` the config is fresh with the default user table and empty queue URL; every passed config gets its user table filled |
| Controller.Magnifibot.InstallAll | controller/magnifibot.go:78-80 | the option loop applies each option in order; the starting config is untouched |
| Controller.Magnifibot.Apply | controller/magnifibot.go:85-123 | one option sets its field and returns its undo; `SetConfig` fills the caller's config in place |
| Controller.Magnifibot.GetConfig | controller/magnifibot.go:126-128 | the installed config itself, not a copy, so the caller sees later changes to it |
| Controller.ConfigIrrelevant | controller/magnifibot.go:78-80 | only the last `SetConfig` decides the config; the starting one matters only without one |
| Controller.UndoRestores | controller/magnifibot.go:85-123 | every option's returned option puts the old value back, and each option changes only its own field |
| Controller.LaterWins | controller/magnifibot.go:78-80 | a later option for the same field wins |
| Controller.OthersKeep | controller/magnifibot.go:85-109 | options for other fields leave a field alone |
| Controller.SendTelegram | controller/telegram.go:15-29 | an id that does not parse is the parse error; success means the client got the parsed id, MarkdownV2 and the text unchanged, and its message ID is returned |
| Controller.BadChatIdNoCall | controller/telegram.go:16-19 | an unparsable id fails the same whatever the client: no call is made |
| Controller.SendToDecimalId | controller/telegram.go:16-28 | the decimal spelling of an id reaches the client as that id; its error is wrapped, its message ID returned |
| Controller.ChatIdLettersRejected | controller/telegram.go:16-19 | "id" is rejected with ParseInt's syntax error |
| Controller.ChatIdEmptyRejected | controller/telegram.go:16-19 | "" is rejected with ParseInt's syntax error |
| Controller.ChatIdAcceptedExample | controller/telegram.go:20-28 | "12" is sent to chat 12 and returns the client's message ID |
| Controller.QueueMessage | controller/queue.go:19-28 | the body is the gospel's content, the queue URL the config's, exactly four attributes with chatID a Number and the rest Strings |
| Controller.QueueMessageRoundTrip | controller/queue.go:19-28 | the message carries the chat id and every field of the gospel |
| Controller.SendGospelToQueue | controller/queue.go:18-33 | the client's answer comes back unchanged: its error, or the message ID |
| Render.Escape | SendGospel/main.go:131-132 | the regexp replacement: every reserved character gets a backslash in front; its laws are the `Escape...` lemmas below |
| Render.DayMessage | SendGospel/main.go:146 | the `*%s*` template around the escaped day; see `DayMessageReadBack` |
| Render.DayMessageReadBack | SendGospel/main.go:146 | the day message is the day between asterisks, and what lies between them unescapes to the day |
| Render.SectionMessage | SendGospel/main.go:165 | the `*%s\n%s*\n\n%s` template over the escaped reference, title and body |
| Render.EscapeConcat | SendGospel/main.go:131-132 | escaping distributes over concatenation |
| Render.EscapeChar | SendGospel/main.go:131-132 | a reserved character gets a backslash; every other, backslash and backquote included, is kept |
| Render.EscapeIdentity | SendGospel/main.go:131-132 | a text with no reserved character is unchanged |
| Render.EscapeLength | SendGospel/main.go:131-132 | the escaped length is the length plus the number of reserved characters |
| Render.EscapeRoundTrip | SendGospel/main.go:131-132 | the escaped text determines the original |
| Render.Plan | SendGospel/main.go:146-239 | four messages, five with a second lecture: day in bold, first lecture, second lecture, psalm with title and reference swapped, gospel |
| Render.Deliver | SendGospel/main.go:146-239 | at least one send for a non-empty plan, never more than the plan; no error means every message was attempted |
| Render.DeliverLaws | SendGospel/main.go:146-230 | success exactly when every send succeeds; a failure made its sends in order up to the first failed one and reports its text with that error |
| Render.DeliverStopsAtFailure | SendGospel/main.go:147-150 | after a failed send nothing more is attempted, whatever follows in the plan |
| Render.BadChatIdFailsFirst | SendGospel/main.go:146-150 | an unparsable chat id fails at the day message with the day's failure text |
| Day.Assemble | GetGospelAndNotify/main.go:140-149 | the day is the gospel's; first lecture, psalm and gospel are set; the second lecture exactly when its content is non-empty |
| Day.Gather | OnDemand/main.go:116-131 | the specification of one round: the gospel lookup, then the three section lookups in order, the first failure fatal, then the assembly |
| Day.FetchDay | OnDemand/main.go:116-131 | the four lookups in order, the gospel one as written, end in the result, cache and fetch count of `Gather` with nil cached after a gospel fetch; settings unchanged |
| Day.FetchFirst | OnDemand/main.go:120-123 | the first-lecture lookup and the rest continue `GatherFrom` from the gospel found |
| Day.FetchRest | OnDemand/main.go:124-127 | the psalm lookup and the rest continue `GatherFrom` |
| Day.FetchLast | OnDemand/main.go:128-131 | the second-lecture lookup ends `GatherFrom` and the assembly |
| Day.GatherFromNoFetch | archimadrid/client.go:153-160 | once the raw record is cached the remaining lookups fetch nothing |
| Day.GatherFromFetchesAtMostOne | archimadrid/client.go:153-186 | the section lookups call the provider at most once |
| Day.GatherFetchesAtMostTwo | OnDemand/main.go:116-131 | a round of lookups calls the provider at most twice, whatever the cache holds |
| Day.GatherFromNeverNil | archimadrid/client.go:142-202 | the section lookups keep the cache free of nil and find no nil |
| Day.GatherNeverNil | OnDemand/main.go:134-143 | with the gospel lookup corrected, from a cache without nil artifacts a round never dereferences nil and caches none; as written this fails, see `GatherRepeatAsWritten` |
| Day.GatherFromNilOnlyGospel | archimadrid/client.go:142-202 | the section lookups add no nil to what was found and keep nil under gospel keys at most |
| Day.GatherNilOnlyGospel | OnDemand/main.go:116-134 | the client starts empty and a round keeps nil under gospel keys at most; from such a cache a round dereferences nil only when the gospel lookup returned nil |
| Day.ConcludeNilFirst | OnDemand/main.go:134-143 | found sections of which only the first may be nil are dereferenced only when that first one is nil, and the cache is kept |
| Day.GatherFromCached | archimadrid/client.go:148-151 | lookups whose artifacts are all cached find them in order, with no write and no fetch |
| Day.GatherFromLeavesCached | archimadrid/client.go:159-201 | successful lookups leave each section's result cached under its key |
| Day.GatherFromRepeat | archimadrid/client.go:148-151 | after a successful run of lookups the same run finds the same sections with no fetch |
| Day.GatherRepeat | OnDemand/main.go:115-131 | with the gospel lookup corrected, a repeated round for the same day returns the same day from the cache with no write and no fetch |
| Day.GospelKeyKept | archimadrid/client.go:148-201 | the section lookups never write the gospel key |
| Day.GatherRepeatAsWritten | OnDemand/main.go:115-134 | as written, when a round on a cache without the day's gospel finds the day, the next round on the cache it left dereferences the nil gospel, with no write and no fetch |
| FanOut.Failures | SendGospel/main.go:248-258 | no more errors than targets |
| FanOut.FailuresEmptyIff | SendGospel/main.go:260-263 | no error is listed exactly when every target succeeded |
| FanOut.FailuresCount | SendGospel/main.go:248-258 | each failing target contributes exactly one entry, and nothing else is listed |
| FanOut.FailuresSplit | SendGospel/main.go:119-241 | the errors of two groups of targets are those of each group |
| FanOut.Collect | SendGospel/main.go:248-263 | nil exactly when all succeeded; otherwise the prefix and a newline join of some ordering of exactly the failures |
| SendGospel.ProcessRecord | SendGospel/main.go:119-241 | one record: an undecodable body is reported, otherwise the day's plan is delivered to the record's chat; see `ProcessRecordLaws` |
| SendGospel.ProcessRecordLaws | SendGospel/main.go:119-241 | a body that does not decode is reported with the unmarshal prefix and sends nothing; no error only when the body decoded and every message of the day's plan was attempted |
| SendGospel.BatchSplit | SendGospel/main.go:119-241 | records are independent: a batch reports the errors its parts report on their own |
| SendGospel.Handler | SendGospel/main.go:111-264 | nil exactly when no record reported an error; otherwise every reported error once, newline-joined in some order, after the prefix |
| Notify.GospelRoundTrip | archimadrid/client.go:46-51 | a serialized section reads back as itself |
| Notify.MagnificatRoundTrip | archimadrid/client.go:55-61 | the serialized day reads back as the day, second lecture included exactly when present |
| Notify.MagnificatKeys | archimadrid/client.go:55-61 | the payload's fields in order, `second_lecture` present exactly when the day has one |
| Notify.QueueOutcome | GetGospelAndNotify/main.go:171-176 | an enqueue reports an error exactly when it fails, with the queue prefix |
| Notify.EnqueueAll | GetGospelAndNotify/main.go:161-207 | one enqueue per chat with the same payload; nil exactly when all succeed; otherwise every failure once in some order |
| Notify.QueueFailureCount | GetGospelAndNotify/main.go:166-187 | each failed enqueue contributes exactly one entry |
| Notify.Handler | GetGospelAndNotify/main.go:118-211 | one round of lookups with the gospel lookup as written; fatal or nil ends before any enqueue, so with `GatherRepeatAsWritten` a warm rerun after a gospel fetch panics; a chat-id error is returned before any enqueue; otherwise the serialized day goes to every chat with the fan-out's result |
| OnDemand.FirstFailing | OnDemand/main.go:115-245 | the first record whose chat does not get the whole plan: all before it succeed, it fails |
| OnDemand.ServeRecord | OnDemand/main.go:116-244 | one record: a round of lookups, the gospel one as written, on the client's cache, and the step its result leads to for the record's chat; cache and fetch count follow the round |
| OnDemand.Serve | OnDemand/main.go:115-247 | the records in order, each with a fresh round on the cache the previous one left, until the first stop or failed delivery; at most one delivery per record |
| OnDemand.Handler | OnDemand/main.go:111-248 | outcome, deliveries, cache and fetch count are those of `Serve` with the as-written rounds over the batch |
| OnDemand.ServeStopped | OnDemand/main.go:116-131 | a round that does not find the day stops the batch at the first record, before any send |
| OnDemand.ServeAsWritten | OnDemand/main.go:115-247 | as written, on a day with no gospel cached and a round that finds it: the first chat gets the day's messages, and if they all went out and another record follows, the handler panics with no further fetch |
| OnDemand.ServeThenPanic | OnDemand/main.go:134-245 | a round that finds the day followed by a round that dereferences nil: one delivery, then the panic unless it failed or was the last record |
| OnDemand.ServeCorrected | OnDemand/main.go:115-247 | with the gospel lookup corrected, every record sees the first round's day: the outcome and deliveries are the steps for that one result, with the first round's cache and fetch count |
| OnDemand.ServeOneRound | OnDemand/main.go:115-247 | rounds that repeat themselves on the cache they leave serve the batch with the first round's result |
| OnDemand.ServeRepeats | OnDemand/main.go:115-247 | rounds that repeat a result on its cache serve every record with that result and fetch nothing |
| OnDemand.FirstError | OnDemand/main.go:146-245 | the first delivery with an error: all before it have none, it has one |
| OnDemand.RunSent | OnDemand/main.go:146-245 | deliveries run in order stop right after the first with an error, which is the outcome |
| OnDemand.RunDeliveries | OnDemand/main.go:148-245 | after a successful round, chats are served in order until the first failed delivery, whose error is returned; otherwise nil |
| OnDemand.StepsOfDay | OnDemand/main.go:146-245 | after a successful round each record's step is the day's plan delivered to its chat |
| OnDemand.AllSentIff | OnDemand/main.go:245-247 | nil exactly when every chat's delivery succeeded |

## Left out

- HTTP transport, request building and cancellation (`httpDo`) are the `Provider` parameter. An unparsable provider URL is not modelled.
- The Go regexp engine and goquery are the abstract `Engine`. The psalm pattern's effects are not proved: the heading as title, the refrain as reference, and content ending in "R. ". They depend on regex semantics, and the engine is abstract.
- goquery's reader error is not modelled: a `strings.Reader` never fails.
- ttlcache expiry and its `Set` error (only after `Close`) are not modelled: the cache is a plain map and the TTL a stored number.
- Goroutines, the WaitGroup, channels and `select` are not modelled. The fan-outs run sequentially, and errors are stated up to arrival order.
- The JSON text codec (`json.Marshal`/`Unmarshal`) and its marshal errors are left out. Payloads are `Json` trees, and encoders and decoders are parameters.
- AWS clients, DynamoDB (`Suscribe`, `Unsuscribe`, `GetChatIDs`), the viper `init` blocks, logging, the timeout context and `lambda.Start` are left out or become parameters.
- `sugar.Fatalw` is modelled as the `Exited` outcome. A nil section dereference is the `Panicked` outcome.
- `SendMessageToQueue` is not defined in the controller. It is the `Enqueue` parameter.
- `regexp.MustCompile` cannot panic on the fixed patterns. The bot name in the channel pattern is matched as literal text.
- A record without a `chatID` attribute (the nil dereference in the senders) is not modelled: `SqsRecord.chatID` is a string.
- Go's month and day arithmetic is out of scope. `Date` is bounded to years 0 to 9999, so `Format` always yields `YYYY-MM-DD`.
- The calls at archimadrid/lectures.go:9,13 do not pass the psalm flag. They are modelled with the flag `false`.
- Notify.Handler: any nil section is treated as `Panicked`, whereas Go dereferences only a nil gospel or second lecture and would serialize a nil first lecture or psalm as `null`. The section lookups never cache or return nil (`Archimadrid.ResolveKeepsNoNil`), so from a cache without nil artifacts only the gospel can be nil, and Go does dereference that one.
- SendGospel.Handler: a body that decodes to a nil section (a `null` member) is not modelled. The decoder returns complete days or an error.
- Day.FetchDay: the four lookups are split across `FetchFirst`, `FetchRest` and `FetchLast` to keep each proof small. Together they are the same straight-line sequence.
- Commands.GetValidCommandsString: the list is stated through the key order the iteration took (`ListsEachCommand`), not as a fixed sequence, because Go's map order is unspecified.
- Render.Deliver: its own contract bounds the number of sends. The full send-by-send behaviour is in `Render.DeliverLaws`.
- FanOut.Failures: its own contract only bounds the count. Its meaning is in `FanOut.FailuresCount` and `FanOut.FailuresEmptyIff`.
- Archimadrid.Resolve: a provider array whose first element is `null` is not modelled. Go decodes it as a nil record, caches it (archimadrid/client.go:186) and dereferences it at archimadrid/client.go:206, so that lookup and every later lookup of the day panic. The `Provider` parameter returns records, never null.
- Archimadrid.Client.GetGospelOrLecture: a context cancelled after the callback has cached the raw record (archimadrid/client.go:134-136) is not modelled. Go then returns the context error and leaves the raw record cached. A `Provider` answer here is atomic, so a failed fetch caches nothing.
- `TelegramApi`, `QueueApi`, `Enqueue` and `Backends` are functions of the request: two identical calls always get the same answer. A real client can answer them differently (a transient failure, a new message ID).
- OnDemand.ServeRecord: a nil artifact under the second lecture's key gives `Panicked` before any send, whereas Go dereferences the second lecture only at OnDemand/main.go:182, after the day and first-lecture messages went out. A nil gospel, first lecture or psalm is dereferenced at OnDemand/main.go:134-143, before any send, as in the model. No cache the program builds holds such a nil: `Day.GatherNilOnlyGospel` shows that nil stays under gospel keys, so only the gospel can be nil. OnDemand.Handler inherits this.
- Text.Quote: only ASCII is escaped. Go's `strconv.Quote` also escapes non-printable Unicode characters and invalid UTF-8, which the model keeps as they are.

## Findings

Both rows read archimadrid/gospel.go and archimadrid/client.go as one package, which as given does not build. gospel.go:17-57 redeclares `gospelResponse`, `Gospel`, `getGospelFromCache`, `saveInCache` and `httpDo` from client.go:40-140. Yet `GetGospel` is defined only in gospel.go, and the `Archimadrid` interface (client.go:26) and both handlers (OnDemand/main.go:116, GetGospelAndNotify/main.go:123) call it.

| source | as written | input that shows it | evidently intended | confidence | as-written member | corrected member |
|---|---|---|---|---|---|---|
| archimadrid/gospel.go:103 | after a fetch, caches `gospel`, the nil pointer left from the cache miss, instead of the extracted `g` | two `GetGospel` calls for the same day with an empty cache, the provider returning one record: the second returns a nil gospel and no error | cache the extracted gospel, so the second call returns the same gospel | high (not executed) | Archimadrid.GospelSecondLookupNil | Archimadrid.GospelSecondLookupSame |
| OnDemand/main.go:116, :134 | the gospel lookup of the second record finds the nil cached by the first and dereferences it | a batch of two records on a client with no gospel cached, the provider returning the day and Telegram accepting every send: the first chat gets the day, the second record panics | every record gets the day the first round found | medium (not executed; the chain needs archimadrid/gospel.go and archimadrid/client.go built together, which the package as given does not allow) | OnDemand.ServeAsWritten | OnDemand.ServeCorrected |
