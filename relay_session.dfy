/** One call's relay as the source writes it: the variables of the
    `connection` closure become fields that each handler updates in place,
    and every frame or message sent is appended to an output log. Each
    handler is proved to perform exactly the transition RelayModel gives for
    its event; the properties of those transitions are in RelayProperties. */
module RelaySession {
  import opened Common
  import opened Personas
  import opened RelayModel

  class CallSession {
    const variant: Variant
    var streamSid: Option<string>
    var latestMediaTimestamp: int
    var lastAssistantItem: Option<string>
    var markQueue: seq<string>
    var responseStartTimestampTwilio: Option<int>
    var currentPersona: Option<Persona>
    var currentSystemMessage: string
    var agent: AgentLink
    var initPending: bool
    var twilioSent: seq<TwilioOut>
    var agentSent: seq<AgentOut>

    /** The fields read as one RelayModel state. */
    function State(): Relay
      reads this
    {
      Relay(variant, streamSid, latestMediaTimestamp, lastAssistantItem, markQueue,
            responseStartTimestampTwilio, currentPersona, currentSystemMessage,
            agent, initPending, twilioSent, agentSent)
    }

    /** Twilio connected: the closure's variables take their initial values,
        and app.js opens its agent socket straight away. */
    constructor (v: Variant)
      ensures State() == Initial(v)
    {
      variant := v;
      streamSid := None;
      latestMediaTimestamp := 0;
      lastAssistantItem := None;
      markQueue := [];
      responseStartTimestampTwilio := None;
      currentPersona := None;
      currentSystemMessage := AppBillysPrompt;
      initPending := false;
      twilioSent := [];
      if v == AppJs {
        agent := Connecting;
        agentSent := [Connect(AgentUrl(AppModel, AppTemperature))];
      } else {
        agent := NoSocket;
        agentSent := [];
      }
    }

    method HandleSpeechStartedEvent()
      modifies this
      ensures State() == OnSpeechStarted(old(State()))
    {
      if |markQueue| > 0 && responseStartTimestampTwilio.Some? {
        var elapsedTime := latestMediaTimestamp - responseStartTimestampTwilio.value;
        if TruthyStr(lastAssistantItem) {
          agentSent := agentSent + [Truncate(lastAssistantItem.value, 0, elapsedTime)];
        }
        twilioSent := twilioSent + [ClearOut(streamSid)];
        markQueue := [];
        lastAssistantItem := None;
        responseStartTimestampTwilio := None;
      }
    }

    method SendMark()
      modifies this
      ensures State() == RelayModel.SendMark(old(State()))
    {
      if TruthyStr(streamSid) {
        twilioSent := twilioSent + [MarkOut(streamSid.value, MarkName)];
        markQueue := markQueue + [MarkName];
      }
    }

    method ConnectToOpenAI(persona: Persona)
      modifies this
      ensures State() == RelayModel.ConnectToOpenAI(old(State()), persona)
    {
      agentSent := agentSent + [Connect(AgentUrl(persona.model, persona.temperature))];
      agent := Connecting;
      initPending := false;
    }

    /** The Twilio socket's 'message' handler. */
    method OnTwilioMessage(frame: TwilioFrame)
      modifies this
      ensures State() == OnTwilioFrame(old(State()), frame)
    {
      match frame
      case Start(sid, caller) =>
        streamSid := Some(sid);
        if variant == ServerJs {
          var persona := GetPersonaByNumber(caller);
          currentPersona := Some(persona);
          ConnectToOpenAI(persona);
        } else {
          latestMediaTimestamp := 0;
          responseStartTimestampTwilio := None;
          currentSystemMessage := AppPromptFor(caller);
        }
      case Media(timestamp, payload) =>
        latestMediaTimestamp := timestamp;
        if agent == Open {
          agentSent := agentSent + [AppendAudio(payload)];
        }
      case Mark(_) =>
        if |markQueue| > 0 {
          markQueue := markQueue[1..];
        }
      case Stop =>
      case OtherFrame(_) =>
    }

    /** The agent socket's 'message' handler. */
    method OnAgentMessage(event: AgentEvent)
      modifies this
      ensures State() == OnAgentEvent(old(State()), event)
    {
      match event
      case AudioDelta(delta, itemId) =>
        if variant == AppJs || delta != "" {
          twilioSent := twilioSent + [MediaOut(streamSid, delta)];
          if !TruthyInt(responseStartTimestampTwilio) {
            responseStartTimestampTwilio := Some(latestMediaTimestamp);
          }
          if TruthyStr(itemId) {
            lastAssistantItem := itemId;
          }
          SendMark();
        }
      case SpeechStarted =>
        HandleSpeechStartedEvent();
      case AgentError =>
      case OtherEvent(_) =>
    }

    /** The agent socket's 'open' handler sets the 100 ms timer. */
    method OnAgentOpen()
      modifies this
      ensures State() == RelayModel.OnAgentOpen(old(State()))
    {
      if agent == Connecting {
        agent := Open;
        initPending := true;
      }
    }

    /** The timer runs `initializeSession`. */
    method InitializeSession()
      modifies this
      ensures State() == OnInitTimer(old(State()))
    {
      if initPending {
        initPending := false;
        if variant == ServerJs {
          if currentPersona.Some? {
            var persona := currentPersona.value;
            agentSent := agentSent + [SessionUpdate(Session(persona.model, persona.voice, persona.speed, persona.instructions))];
            agentSent := agentSent + [CreateUserText(GreetingText)];
            agentSent := agentSent + [CreateResponse];
          }
        } else {
          agentSent := agentSent + [SessionUpdate(Session(AppModel, AppVoice, None, Text(currentSystemMessage)))];
        }
      }
    }

    /** The agent socket's 'close' handler only logs; its `readyState` changes. */
    method OnAgentClose()
      modifies this
      ensures State() == RelayModel.OnAgentClose(old(State()))
    {
      if agent != NoSocket {
        agent := Closed;
      }
    }

    /** The Twilio socket's 'close' handler. */
    method OnClose()
      modifies this
      ensures State() == OnTwilioClose(old(State()))
    {
      if agent == Open {
        agentSent := agentSent + [CloseSocket];
        agent := Closed;
      }
    }

    /** Deliver one event to the handler that the source registers for it. */
    method Handle(e: Event)
      modifies this
      ensures State() == Step(old(State()), e)
    {
      match e
      case FromTwilio(f) => OnTwilioMessage(f);
      case FromAgent(a) => OnAgentMessage(a);
      case AgentOpened => OnAgentOpen();
      case InitTimerFired => InitializeSession();
      case AgentClosed => OnAgentClose();
      case TwilioClosed => OnClose();
    }
  }
}
