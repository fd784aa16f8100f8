/** The per-call relay between a Twilio Media Stream and an OpenAI Realtime
    session, as the `connection` handlers of server.js and app.js implement
    it. This module gives the state of one call as a value and one pure
    transition per inbound event; the class in RelaySession updates the same
    state in place and is proved to follow these transitions.

    The two source files differ in a handful of places; `Variant` selects
    which file's behaviour a transition follows. */
module RelayModel {
  import opened Common
  import opened Personas

  datatype Variant = ServerJs | AppJs

  /** Twilio Media Streams frames, already decoded from JSON. */
  datatype TwilioFrame =
    | Start(streamSid: string, caller: Option<string>)   // `customParameters?.caller`
    | Media(timestamp: int, payload: string)
    | Mark(name: string)
    | Stop
    | OtherFrame(event: string)

  /** OpenAI Realtime events, already decoded; `delta` is "" when the event
      carries no audio. Everything the relay only logs is `OtherEvent`. */
  datatype AgentEvent =
    | AudioDelta(delta: string, itemId: Option<string>)
    | SpeechStarted
    | AgentError
    | OtherEvent(kind: string)

  /** Everything that can happen to one call, in the order it is handled. */
  datatype Event =
    | FromTwilio(frame: TwilioFrame)
    | FromAgent(event: AgentEvent)
    | AgentOpened      // the agent socket's 'open'
    | InitTimerFired   // the 100 ms timer set on 'open' runs `initializeSession`
    | AgentClosed      // the agent socket's 'close'
    | TwilioClosed     // the Twilio socket's 'close'

  /** Frames sent to Twilio. `streamSid` is null in a media or clear frame
      sent before any `start`. */
  datatype TwilioOut =
    | MediaOut(streamSid: Option<string>, payload: string)
    | MarkOut(sid: string, name: string)
    | ClearOut(streamSid: Option<string>)

  /** The `session` object of a `session.update`. */
  datatype SessionConfig = SessionConfig(
    sessionType: string,
    model: string,
    outputModalities: seq<string>,
    inputFormat: string,
    turnDetection: string,
    outputFormat: string,
    voice: string,
    speed: Option<string>,
    instructions: Instructions)

  /** What the relay does to the agent socket: opening it (with its URL),
      the messages it sends, and closing it. */
  datatype AgentOut =
    | Connect(url: string)
    | SessionUpdate(session: SessionConfig)
    | AppendAudio(audio: string)                                    // input_audio_buffer.append
    | Truncate(itemId: string, contentIndex: int, audioEndMs: int)  // conversation.item.truncate
    | CreateUserText(text: string)                                  // conversation.item.create
    | CreateResponse                                                // response.create
    | CloseSocket

  /** The agent socket as the relay can observe it (`readyState`). */
  datatype AgentLink = NoSocket | Connecting | Open | Closed

  /** The closure state of one `connection` handler, plus the two output logs.
      `persona` is server.js's `currentPersona` and stays None in app.js;
      `systemMessage` is app.js's `currentSystemMessage` and is not used by
      server.js. `initPending` says that a 100 ms timer is waiting to run. */
  datatype Relay = Relay(
    variant: Variant,
    streamSid: Option<string>,
    latestMediaTimestamp: int,
    lastAssistantItem: Option<string>,
    markQueue: seq<string>,
    responseStart: Option<int>,
    persona: Option<Persona>,
    systemMessage: string,
    agent: AgentLink,
    initPending: bool,
    twilioOut: seq<TwilioOut>,
    agentOut: seq<AgentOut>)

  const MarkName: string := "responsePart"
  const GreetingText: string := "Say your greeting."
  const AppModel: string := "gpt-realtime"
  const AppVoice: string := "alloy"
  const AppTemperature: string := "0.8"

  function AgentUrl(model: string, temperature: string): string {
    "wss://api.openai.com/v1/realtime?model=" + model + "&temperature=" + temperature
  }

  /** The session configuration both files send: G.711 mu-law both ways,
      server-side voice activity detection, audio output only. */
  function Session(model: string, voice: string, speed: Option<string>, instructions: Instructions): SessionConfig {
    SessionConfig("realtime", model, ["audio"], "audio/pcmu", "server_vad", "audio/pcmu", voice, speed, instructions)
  }

  /** The state right after Twilio connects. app.js opens the agent socket
      here, with its fixed model and temperature; server.js waits for `start`. */
  function Initial(v: Variant): Relay {
    Relay(v, None, 0, None, [], None, None, AppBillysPrompt,
          if v == AppJs then Connecting else NoSocket,
          false, [],
          if v == AppJs then [Connect(AgentUrl(AppModel, AppTemperature))] else [])
  }

  /** `connectToOpenAI(persona)` of server.js: a new socket on the persona's
      model and temperature replaces the previous one. */
  function ConnectToOpenAI(r: Relay, p: Persona): Relay {
    r.(agent := Connecting, initPending := false,
       agentOut := r.agentOut + [Connect(AgentUrl(p.model, p.temperature))])
  }

  /** Twilio `start`. */
  function OnStart(r: Relay, sid: string, caller: Option<string>): Relay {
    match r.variant
    case ServerJs =>
      var p := GetPersonaByNumber(caller);
      ConnectToOpenAI(r.(streamSid := Some(sid), persona := Some(p)), p)
    case AppJs =>
      r.(streamSid := Some(sid), latestMediaTimestamp := 0, responseStart := None,
         systemMessage := AppPromptFor(caller))
  }

  /** Twilio `media`: the clock always moves; audio is forwarded only on an
      open agent socket. */
  function OnMedia(r: Relay, timestamp: int, payload: string): Relay {
    r.(latestMediaTimestamp := timestamp,
       agentOut := if r.agent == Open then r.agentOut + [AppendAudio(payload)] else r.agentOut)
  }

  /** Twilio `mark`: drop the oldest outstanding token, whatever its name.
      server.js tests the length first; app.js shifts unconditionally, which
      leaves an empty array empty. */
  function OnMark(r: Relay): Relay {
    if |r.markQueue| > 0 then r.(markQueue := r.markQueue[1..]) else r
  }

  /** `sendMark`: nothing happens until a stream id is known. */
  function SendMark(r: Relay): Relay {
    if TruthyStr(r.streamSid) then
      r.(twilioOut := r.twilioOut + [MarkOut(r.streamSid.value, MarkName)],
         markQueue := r.markQueue + [MarkName])
    else r
  }

  /** `response.output_audio.delta`. server.js ignores a delta without audio;
      app.js relays it anyway. The utterance start is taken only while it is
      falsy, so a start of 0 is overwritten by the next delta. */
  function OnAudioDelta(r: Relay, delta: string, itemId: Option<string>): Relay {
    if r.variant == ServerJs && delta == "" then r
    else
      var relayed := r.(twilioOut := r.twilioOut + [MediaOut(r.streamSid, delta)]);
      var started := if TruthyInt(r.responseStart) then relayed
                     else relayed.(responseStart := Some(r.latestMediaTimestamp));
      var tagged := if TruthyStr(itemId) then started.(lastAssistantItem := itemId) else started;
      SendMark(tagged)
  }

  /** `handleSpeechStartedEvent`: the barge-in rule. Unlike the delta handler,
      the guard tests the start against null only. */
  function OnSpeechStarted(r: Relay): Relay {
    if |r.markQueue| > 0 && r.responseStart.Some? then
      var elapsed := r.latestMediaTimestamp - r.responseStart.value;
      var truncate := if TruthyStr(r.lastAssistantItem)
                      then [Truncate(r.lastAssistantItem.value, 0, elapsed)] else [];
      r.(agentOut := r.agentOut + truncate,
         twilioOut := r.twilioOut + [ClearOut(r.streamSid)],
         markQueue := [], lastAssistantItem := None, responseStart := None)
    else r
  }

  /** The agent socket's 'open' schedules `initializeSession`. */
  function OnAgentOpen(r: Relay): Relay {
    if r.agent == Connecting then r.(agent := Open, initPending := true) else r
  }

  /** The messages `initializeSession` sends. server.js uses the persona its
      socket was opened for and then asks for a greeting; app.js uses its
      fixed model and voice with whatever prompt is current when the timer
      runs, which may still be the default if `start` has not arrived. */
  function InitMessages(r: Relay): seq<AgentOut> {
    match r.variant
    case ServerJs =>
      (match r.persona
       case Some(p) =>
         [SessionUpdate(Session(p.model, p.voice, p.speed, p.instructions)),
          CreateUserText(GreetingText), CreateResponse]
       case None => [])
    case AppJs =>
      [SessionUpdate(Session(AppModel, AppVoice, None, Text(r.systemMessage)))]
  }

  /** The 100 ms timer runs. */
  function OnInitTimer(r: Relay): Relay {
    if r.initPending then r.(initPending := false, agentOut := r.agentOut + InitMessages(r)) else r
  }

  /** The agent socket closed: only its `readyState` changes. */
  function OnAgentClose(r: Relay): Relay {
    if r.agent == NoSocket then r else r.(agent := Closed)
  }

  /** The Twilio socket closed: an open agent socket is closed too. */
  function OnTwilioClose(r: Relay): Relay {
    if r.agent == Open then r.(agent := Closed, agentOut := r.agentOut + [CloseSocket]) else r
  }

  function OnTwilioFrame(r: Relay, f: TwilioFrame): Relay {
    match f
    case Start(sid, caller) => OnStart(r, sid, caller)
    case Media(ts, payload) => OnMedia(r, ts, payload)
    case Mark(_) => OnMark(r)
    case Stop => r
    case OtherFrame(_) => r
  }

  function OnAgentEvent(r: Relay, e: AgentEvent): Relay {
    match e
    case AudioDelta(delta, itemId) => OnAudioDelta(r, delta, itemId)
    case SpeechStarted => OnSpeechStarted(r)
    case AgentError => r
    case OtherEvent(_) => r
  }

  function Step(r: Relay, e: Event): Relay {
    match e
    case FromTwilio(f) => OnTwilioFrame(r, f)
    case FromAgent(a) => OnAgentEvent(r, a)
    case AgentOpened => OnAgentOpen(r)
    case InitTimerFired => OnInitTimer(r)
    case AgentClosed => OnAgentClose(r)
    case TwilioClosed => OnTwilioClose(r)
  }

  /** Handle a sequence of events one after another. */
  function Run(r: Relay, evs: seq<Event>): Relay
    decreases |evs|
  {
    if evs == [] then r else Run(Step(r, evs[0]), evs[1..])
  }
}
