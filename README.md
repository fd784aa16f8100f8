# twilio_openai: a Dafny model of the voice relay and its call services

This project models the core of a restaurant phone agent. Twilio streams a
caller's audio over a WebSocket, and the server relays it to an OpenAI
Realtime session and streams the agent's speech back. Each call keeps a small
state machine:

- a FIFO of `responsePart` mark tokens;
- the Twilio timestamp at which the agent's current utterance started;
- the id of the agent's last item;
- the barge-in rule, which truncates the agent and clears Twilio's buffer
  when the caller starts to speak.

Around the relay sit:

- the caller-number dispatcher that picks a persona;
- the call-log lifecycle: create, then complete with download,
  transcription, booking extraction and an SMS;
- the SMS service: E.164 formatting, the payment message and its guards;
- the validated shallow merge of the prompt settings file;
- the recording-URL extension rule;
- the clean-up of the model's JSON reply.

The relay exists twice in the source: in `server.js` and in the older
`app.js`. One model covers both. A `Variant` flag selects each file's
behaviour where they differ:

- app.js resets the clocks on `start`;
- app.js opens its agent socket at connection time, with a fixed model;
- app.js has no greeting;
- app.js uses its own inline prompt table;
- app.js relays an audio delta even when it carries no audio.

Modules, one file each:

- `Common`: `Option`, `Result`, JavaScript truthiness, string predicates, `${n}`.
- `Personas`: the persona records, `getPersonaByNumber`, and app.js's prompt table.
- `RelayModel`: the call state as a value and one pure transition per event.
- `RelaySession`: the class `CallSession`. Its fields are the closure
  variables of the source, and each handler updates them in place. Every
  handler is proved to perform exactly its `RelayModel` transition.
- `RelayProperties`: what those transitions guarantee. This covers single
  events, whole runs and concrete scenarios, including the places where the
  code keeps less than one might expect.
- `Download`, `Extraction`, `Sms`, `Config` (class `ConfigFile`) and
  `CallLogs` (class `CallLogStore`, a map from call SID to document).

Outside effects are parameters:

- the agent and Twilio sockets become output logs;
- the chat completion, `JSON.parse`, the audio download, Whisper and the
  Twilio REST client become functions passed in;
- the payment UUID is an argument;
- timestamps are omitted.

## Invariants the code does not keep

The model follows the code, including where the code keeps less than one
might expect of a relay like this. The lemmas named here show each case on
concrete inputs:

- **The stream id is not set once.** A second `start` replaces it. In
  server.js the second `start` also opens a second agent socket
  (`StreamSidCanChange`).
- **The start timestamp and the mark queue are not cleared together.** The
  start is not non-null exactly when marks are pending. Acknowledgements
  can drain the queue while the start stays set (`StartOutlivesQueue`). In app.js, which opens the agent socket as soon as Twilio
  connects (app.js:98-105), a delta that arrives before `start` sets the
  start but queues no token (`StartWithoutMark`). server.js opens the
  socket only inside its `start` handler (server.js:208-218), so it never
  sees such a delta.
- **The start is replaced while it is falsy, not only while it is null.** A
  numeric start of 0 is replaced by the next delta
  (`ZeroStartIsOverwritten`). Such a start is the initial clock of
  server.js:154 or the reset in app.js; see "Left out" for the string
  timestamps that Twilio sends. The barge-in guard, however, tests for null
  only (`ZeroStartStillInterrupts`).
- **A barge-in sends a truncate only when an item id is known.** Otherwise
  it sends only the `clear` (`BargeIn`).
- **Closing one side does not stop forwarding.** After the Twilio socket
  closes, agent audio is still sent towards Twilio
  (`RelayContinuesAfterClose`). When the agent socket closes, the code only
  logs, and the Twilio side stays open (`RelaySession.CallSession.OnAgentClose`).
- **A malformed frame is not dropped.** `JSON.parse` throws inside the
  handler. The model takes frames as already decoded (see "Left out").

## Model

The transitions of `RelayModel` (`Initial`, `OnStart`, `OnMedia`, `OnMark`,
`SendMark`, `OnAudioDelta`, `OnSpeechStarted`, `OnAgentOpen`,
`InitMessages`, `OnInitTimer`, `OnAgentClose`, `OnTwilioClose`, `Step`,
`Run`) carry no contract of their own. Each is the specification of the
`RelaySession.CallSession` method named with it below, and the
`RelayProperties` lemmas state what it does.

| member | source | states |
|---|---|---|
| Personas.GetPersonaByNumber | src/dispatcher.js:6-23 | Ryan's persona exactly for +918930276263 and +27844500010, Bjorn's exactly for +27765575522, Billy's for every other value including a missing caller |
| Personas.DispatcherPicksExactlyOne | src/dispatcher.js:6-23 | every caller is mapped to one of the three personas, and the three are distinct |
| Personas.PersonaConstants | src/bot_models/billys.js:4-13 | Billy uses gpt-4o-realtime-preview with voice cedar; Ryan and Bjorn (ryans.js:8-9, bjorns.js:10-11) use gpt-realtime-mini with voice marin |
| Personas.AppPromptFor | app.js:199-213 | app.js picks Ryan's prompt exactly for +918950394085 and Billy's prompt for every other caller |
| Personas.TablesDisagreeOnOneNumber | app.js:200-203 | +918930276263 gets Billy's prompt in app.js but Ryan's persona from the dispatcher |
| RelaySession.CallSession.constructor | server.js:152-161 | a new connection is `RelayModel.Initial`: no stream id, clock 0, empty queue and no start; in app.js (app.js:91-105) the agent socket is already connecting to gpt-realtime at temperature 0.8 |
| RelaySession.CallSession.HandleSpeechStartedEvent | server.js:165-188 | the fields change exactly as `RelayModel.OnSpeechStarted` says (see `BargeIn` and `NoBargeInWhenIdle`) |
| RelaySession.CallSession.SendMark | server.js:191-201 | the fields change exactly as `RelayModel.SendMark` says (see `SendMarkEffect`) |
| RelaySession.CallSession.ConnectToOpenAI | server.js:239-243 | performs `RelayModel.ConnectToOpenAI`: a connect to the persona's model and temperature is logged and the socket is connecting |
| RelaySession.CallSession.OnTwilioMessage | server.js:204-236 | start, media and mark frames update the fields exactly as `RelayModel.OnTwilioFrame` (`OnStart`, `OnMedia`, `OnMark`) says, for either file (app.js:187-229) |
| RelaySession.CallSession.OnAgentMessage | server.js:284-334 | audio deltas and speech_started update the fields exactly as `RelayModel.OnAgentEvent` (`OnAudioDelta`, `OnSpeechStarted`) says, for either file (app.js:163-185) |
| RelaySession.CallSession.OnAgentOpen | server.js:279-282 | performs `RelayModel.OnAgentOpen`: only a connecting socket becomes open, and the session timer is armed |
| RelaySession.CallSession.InitializeSession | server.js:245-277 | performs `RelayModel.OnInitTimer`: an armed timer sends `InitMessages` once and is disarmed |
| RelaySession.CallSession.OnAgentClose | server.js:336 | performs `RelayModel.OnAgentClose`: an agent close changes only the socket's state; nothing is sent to Twilio |
| RelaySession.CallSession.OnClose | server.js:340-343 | performs `RelayModel.OnTwilioClose`: a Twilio close closes an open agent socket and changes nothing else |
| RelaySession.CallSession.Handle | server.js:149-344 | every event is handled by the handler the source registers for it, as one `RelayModel.Step` |
| RelayProperties.MediaFrameEffect | server.js:222-230 | a media frame always sets the clock to its timestamp, and forwards its payload exactly when the agent socket is open; nothing else changes |
| RelayProperties.MarkFrameEffect | server.js:233-235 | a mark frame removes exactly the oldest token whatever its name, and leaves an empty queue unchanged (app.js:226-228 shifts an empty array) |
| RelayProperties.SendMarkEffect | server.js:191-201 | one mark frame for the stream and one "responsePart" token exactly when a stream id is known; otherwise no change |
| RelayProperties.AudioDeltaEffect | server.js:297-311 | a relayed delta emits media then (with a stream id) a mark; it takes the start from the clock only while the start is falsy, and updates the item only when one is given |
| RelayProperties.ServerIgnoresEmptyDelta | server.js:297 | server.js ignores a delta without audio; app.js (app.js:168-181) does not test for one |
| RelayProperties.BargeIn | server.js:165-188 | with pending marks and a start: a truncate at latest minus start only if an item is known, then exactly one clear; queue, item and start are reset and nothing else changes |
| RelayProperties.NoBargeInWhenIdle | server.js:166 | with no pending marks or no start, speech_started changes nothing and sends nothing |
| RelayProperties.SpeechStartedIdempotent | server.js:165-188 | a second speech_started right after the first does nothing |
| RelayProperties.ServerStartEffect | server.js:208-219 | start sets the stream id and the dispatcher's persona, and connects to that persona's model and temperature, keeping clock, start and queue |
| RelayProperties.AppStartEffect | app.js:191-214 | start sets the stream id, resets the clock to 0 and the start to null, and picks app.js's prompt; the socket is untouched |
| RelayProperties.ServerInitSendsThree | server.js:245-277 | the session timer sends exactly session.update (pcmu in and out, server_vad, persona voice, speed and instructions), the greeting and response.create, in that order |
| RelayProperties.AppInitSendsOne | app.js:107-128 | app.js's timer sends only session.update, with voice alloy and the prompt current at that moment |
| RelayProperties.InitRunsOnce | server.js:279-282 | a second firing of the timer right after the first sends nothing |
| RelayProperties.NoInitWithoutOpen | server.js:279-282 | only an 'open' arms the timer: over any run without one, a disarmed timer stays disarmed and a firing sends nothing, so the session messages go out at most once per opened socket |
| RelayProperties.TwilioCloseClosesAgent | server.js:340-343 | closing the Twilio socket closes an open agent socket |
| RelayProperties.LogsOnlyGrow | server.js:149-344 | over any run of events both output logs only grow |
| RelayProperties.QueueAccounting | server.js:191-235 | between interruptions, the queue length equals its old length plus the marks sent to Twilio minus the mark frames that popped a token |
| RelayProperties.TokensStayResponsePart | server.js:199 | every queued token is "responsePart" over any run |
| RelayProperties.LastMediaWins | server.js:223 | after a media frame the clock is its timestamp until the next media frame (or app.js start) |
| RelayProperties.DeltasQueueTokens | server.js:297-311 | n relayed deltas with a stream id queue n tokens and leave a start set |
| RelayProperties.MarksPopTokens | server.js:233-235 | n mark frames pop n tokens and leave the start alone |
| RelayProperties.StartOutlivesQueue | server.js:233-235 | after n deltas and n acknowledgements the queue is empty but the start is still set |
| RelayProperties.ZeroStartIsOverwritten | server.js:304-306 | a numeric start of 0 is replaced by the clock at the next relayed delta, whatever the clock |
| RelayProperties.ZeroStartStillInterrupts | server.js:166 | a start of 0 still allows a barge-in |
| RelayProperties.StartWithoutMark | app.js:168-181 | a delta before start sets the start and sends media with a null stream id but queues no token |
| RelayProperties.StreamSidCanChange | server.js:208-219 | a second start replaces the stream id and connects a second socket |
| RelayProperties.RelayContinuesAfterClose | server.js:340-343 | agent audio is still relayed to Twilio after the Twilio socket closed |
| RelayProperties.AppInitBeforeStart | app.js:158-161 | if app.js's timer fires before start, the session is configured with Billy's default prompt |
| RelayProperties.ServerCallScenario | server.js:149-344 | a whole call (start, open, init, one delta, caller media at 850 ms, speech) gives the exact frames and messages, ending with a truncate at 850 ms and one clear |
| Download.DownloadUrl | src/utils/download.js:17-20 | a URL ending in .mp3 or .wav is kept; any other gets exactly ".mp3" appended; the original is a prefix and the result has an audio extension |
| Download.DownloadUrlIdempotent | src/utils/download.js:17-20 | applying the rule twice equals applying it once |
| Extraction.RemoveAll | src/utils/extraction.js:63 | global literal replacement never lengthens the text and leaves text without the pattern's first character unchanged |
| Extraction.Trim | src/utils/extraction.js:63 | the result has no white space at either end; a trimmed input is unchanged |
| Extraction.TrimStartDropsSpace | src/utils/extraction.js:63 | what the left trim drops is white space only |
| Extraction.TrimEndDropsSpace | src/utils/extraction.js:63 | what the right trim drops is white space only |
| Extraction.TrimRemovesOnlySpace | src/utils/extraction.js:63 | the result of `Trim` is a piece of the input with nothing but white space before and after it |
| Extraction.RemovingFencesLeavesNone | src/utils/extraction.js:63 | after removing every "```" no "```" remains, although removal can bring backticks together |
| Extraction.Sanitize | src/utils/extraction.js:62-63 | the cleaned reply has no "```" and no surrounding white space |
| Extraction.SanitizeUnwrapsJsonFence | src/utils/extraction.js:62-63 | a reply wrapped as "```json" body "```", with no backtick in the body, is cleaned to the trimmed body |
| Extraction.Unwrap | src/utils/extraction.js:63 | removing the opening and then the closing marker from marker, body, marker leaves the body |
| Extraction.RemoveAllKeepsPatternFree | src/utils/extraction.js:63 | text in which the pattern does not occur is left as it is |
| Extraction.RemoveAllSkips | src/utils/extraction.js:63 | characters that cannot start the pattern are kept, in order, and the removal continues after them |
| Extraction.TrimIsTheTrimmedPiece | src/utils/extraction.js:63 | any trimmed piece of the input with only white space around it is the result of `Trim` |
| Extraction.CleanReplyUnchanged | src/utils/extraction.js:63 | a reply without backticks and surrounding white space passes unchanged |
| Extraction.ExtractBookingData | src/utils/extraction.js:15-74 | a falsy transcript or a failed completion gives null; otherwise the result is exactly what the parser makes of the cleaned-up reply, null when parsing fails |
| Extraction.FalsyTranscriptSkipsModel | src/utils/extraction.js:16-19 | for a falsy transcript the result does not depend on the model at all |
| Extraction.ParsedFromCleanText | src/utils/extraction.js:60-65 | the text given to the parser is this reply cleaned up, with no fence and no surrounding white space, and the parser's answer is the result |
| Extraction.FencedReplyParsedFromBody | src/utils/extraction.js:60-65 | a reply in the expected "```json" wrapper is parsed from its trimmed body |
| Sms.NewSmsService | src/services/smsService.js:7-14 | the payment base URL falls back to http://localhost:3000 when unset or empty |
| Sms.OnlyDigits | src/services/smsService.js:26 | the result is all digits and no longer than the input; one character is kept exactly when it is a digit; an all-digit input is unchanged |
| Sms.OnlyDigitsAppend | src/services/smsService.js:26 | the digits of a concatenation are the digits of each part in order; with the one-character case this fixes the result as the input's digits in order |
| Sms.FormatPhoneNumber | src/services/smsService.js:22-40 | null exactly for a falsy number; otherwise starts with '+', followed only by digits when the code is all digits |
| Sms.FormatDigits | src/services/smsService.js:29-39 | the number built from the digits starts with '+', followed only by digits |
| Sms.FormatCases | src/services/smsService.js:29-39 | '+' and the digits when they start with the code and go past it; otherwise one leading '0' dropped and '+' and the code prepended |
| Sms.FormatIdempotent | src/services/smsService.js:22-40 | formatting a formatted number with more digits than the code changes nothing |
| Sms.FormatNotIdempotentOnBareCode | src/services/smsService.js:29-39 | "n/a" formats to "+91", which formats again to "+9191" |
| Sms.GuestNoun | src/services/smsService.js:80 | "person" exactly when guests === 1, "people" otherwise |
| Sms.PaymentLink | src/services/smsService.js:76 | the link starts with the base URL and "/payment/", ends with the payment id and has exactly their combined length, so it is their concatenation |
| Sms.ComposeMessage | src/services/smsService.js:78-88 | the message opens "Dear name,", contains the booking sentence and the link on its own line, and ends with "Best regards," and the restaurant |
| Sms.FalsyClausesOmitted | src/services/smsService.js:80 | falsy date and time leave the message as if absent; the sentence ends at the restaurant name |
| Sms.SendPaymentSms | src/services/smsService.js:53-115 | a request is sent exactly when a sender is configured and the phone is truthy; a missing sender or phone gives the source's error text; the request goes to the formatted number with the composed body; the result is Twilio's answer |
| Sms.OrNull | src/services/smsService.js:137-138 | `x \|\| null` keeps truthiness and yields either null or x |
| Sms.SendAutomatedSms | src/services/smsService.js:122-141 | a booking without truthy name, phone or guests is refused with the source's message and nothing is sent; a request is sent exactly when those and the sender are present |
| Sms.AutomatedSmsOutcome | src/services/smsService.js:133-140 | success exactly when a request was sent and Twilio created the message; it goes to the booking's formatted number |
| Config.Spread | src/utils/config.js:33-36 | spreading an object gives its fields, an array its elements by index, a string its characters by index (both as `ByIndex` describes), and null, undefined, booleans and numbers nothing |
| Config.ByIndex | src/utils/config.js:33-36 | the entries of an array-like value: each index's decimal text maps to its element, and there are no other keys |
| Config.MergeSection | src/utils/config.js:32-45 | a falsy update section leaves the config; a truthy one is the old section overridden key by key |
| Config.UpdateConfig | src/utils/config.js:14-51 | succeeds exactly for a truthy id strictly equal to the stored one; a falsy id gives "Missing required field: restaurantId" |
| Config.MismatchReported | src/utils/config.js:26-28 | a different id is rejected with a message naming the expected and the received value |
| Config.SectionMergedKeyByKey | src/utils/config.js:32-45 | an updated section holds exactly the old and new keys; new keys take the update's value wholesale, other keys keep theirs |
| Config.OtherFieldsUnchanged | src/utils/config.js:30-45 | other top-level fields, and sections absent from the update, are unchanged |
| Config.RestaurantIdKept | src/utils/config.js:23-28 | the stored id is never changed |
| Config.UpdateIdempotent | src/utils/config.js:30-45 | the same update sent twice leaves the file as once |
| Config.SectionMergedTwice | src/utils/config.js:31-45 | spreading the same section of an update over a section a second time changes nothing |
| Config.SectionsMergeInEitherOrder | src/utils/config.js:31-45 | the `settings` and `operatingHours` merges touch different keys, so their order does not matter |
| Config.ConfigFile.Update | src/utils/config.js:14-51 | on success the merged config is written and returned; on error nothing is written |
| CallLogs.GetRestaurantId | src/services/callService.js:14-20 | +1234567890 to restaurant_A, +0987654321 to restaurant_B, default_restaurant otherwise |
| CallLogs.NewCallLog | src/services/callService.js:36-64 | a new log is active, duration 0, no SMS, empty booking, restaurant from the number called |
| CallLogs.Process | src/services/callService.js:94-112 | a path is saved exactly when the download of the extended URL succeeded; the transcript is then Whisper's text (null if it threw); a truthy transcript always goes to the extractor and its answer is the booking, and only then is there a booking |
| CallLogs.CompleteCall | src/services/callService.js:84-189 | a falsy call SID throws "Missing CallSid"; an unknown SID gives null and writes nothing; no other document changes and the returned document is the stored one |
| CallLogs.CompletedDocument | src/services/callService.js:124-140 | a completed log records status, duration, URL, path and transcript, keeps identity and payment id, and falls back to the empty booking |
| CallLogs.SmsSentIffBookingComplete | src/services/callService.js:148-167 | an SMS is sent exactly for a truthy name, phone and guests, with the stored payment id; smsSent records its success; otherwise the SMS fields keep their values |
| CallLogs.ProcessingFailuresSwallowed | src/services/callService.js:98-112 | a failed download leaves path, transcript and booking null; a falsy transcript never reaches the extractor |
| CallLogs.CallLogStore.CreateCallLog | src/services/callService.js:29-75 | the new log is written under its call SID |
| CallLogs.CallLogStore.UpdateCallLog | src/services/callService.js:84-189 | the store, the result and the SMS sent are those of the completion above |

## Left out

- HTTP and WebSocket plumbing: the Express routes, server start-up and the
  `upgrade` handling (server.js:28-146, app.js:17-84). The agent socket's
  `readyState` is the `AgentLink` value. The 100 ms `setTimeout` is the
  explicit `InitTimerFired` event.
- Only one agent socket per call. A second server.js `start` opens a new
  socket, while the old socket keeps its handlers and its pending timer.
  Events from the old socket are not told apart from those of the new one.
  `RelayModel.ConnectToOpenAI` disarms the timer, so the model drops an old
  timer that has not fired yet. In server.js that timer still runs
  `initializeSession` with the old persona and sends on the new, still
  connecting socket (server.js:245-282), where `ws` throws.
- Sending on a socket that is not open: every send is recorded as emitted.
  The model does not include the exception `ws` raises for a send on a
  connecting socket.
- JSON framing: frames and agent events arrive already decoded. `JSON.parse`
  of a malformed frame throws in the source (server.js:205, app.js:188).
- Twilio media timestamps are numbers here. On the wire they are strings,
  and server.js:223 stores the string as it comes. That changes
  truthiness: the string "0" is truthy at server.js:304, while the number 0
  is not. Take the events start, agent open, media at "0", delta A, media
  at "20", delta B. In server.js the start stays "0". In the model it is
  replaced by 20 at delta B, so a later truncate's `audio_end_ms` differs.
  `ZeroStartIsOverwritten` therefore holds only for a numeric 0: the
  initial clock of server.js:154 (a delta before any media) or the reset at
  app.js `start`. The subtraction at barge-in converts both strings to
  numbers, so elapsed times agree otherwise.
- An app.js delta event without a `delta` field is modelled as the empty
  payload.
- Logging-only branches: `LOG_EVENT_TYPES`, the transcript logs and the
  `error` event, which is only logged.
- Temperature and speed are kept as the text JavaScript prints, because
  they are only passed through. The prompt builders of the bot-model files
  (billys_prompt.js, ryans_prompt.js, bjorns_prompt.js) are not part of this
  model: instructions are named, not expanded.
- src/routes/sms.js, src/routes/payment.js, src/routes/verify.js,
  the Firebase set-up of src/config/firebase.js, src/utils/transcription.js and the unused Mongoose
  models in src/models are not part of this model.
- Every timestamp (`startTime`, `createdAt`, `updatedAt`, `sentAt`) is
  omitted, and the payment UUID is a parameter.
- A Firestore write or read that fails would make `createCallLog` or
  `updateCallLog` throw. The store here never fails.
- CallLogs.CompleteCall: src/config/firebase.js:56-58 sets
  `ignoreUndefinedProperties`. An undefined `recordingUrl` is therefore
  skipped rather than written, and the stored value stays. The model writes
  it as null. This differs only when a call is completed a second time.
- CallLogs.CompleteCall: the duration is an integer, the type that
  callService.js:82 documents. server.js:101-105 passes `RecordingDuration`
  from the form body, which is a string. The value is only stored, so the
  model does not track that difference.
- CallLogs.RecordingPath: the path is relative. `path.resolve` makes it
  absolute against the working directory and normalises it.
- GetRestaurantId: the source looks the number up in an object literal, so
  an inherited name such as "constructor" would return a truthy non-string
  value. The model returns default_restaurant for every unlisted string.
- Extraction.ExtractBookingData: the date-dependent system prompt and the
  request to the chat model are the `complete` parameter. The parsed booking
  is a record of optional fields, so a reply of another JSON shape, or
  extra fields, is not represented.
- Sms.ComposeMessage: guests are an integer. A fractional or string guest
  count from the extracted JSON is not represented.
- Sms.SendPaymentSms: customer name and guest count are always present.
  The only caller passes truthy values; a direct call without them would
  print "undefined". An exception thrown by the Twilio client is the
  `Rejected` reply.
- RemoveAll: its contract and lemmas state that text without the pattern
  is kept, that characters which cannot start the pattern pass through in
  order, and that a whole marker is removed. They do not give a closed
  description of the leftmost, non-overlapping matches in general.
- Config.UpdateConfig: numbers are integers, and the file is already parsed
  into an object. Read and parse errors, key order and the file's text
  layout are not represented.
- Strings are sequences of Unicode characters. JavaScript indexes UTF-16
  code units, which differ for characters outside the Basic Multilingual
  Plane. This affects the indices that `Config.Spread` gives a string.
