/** What the relay promises, stated about the transitions of RelayModel:
    the effect of each inbound event, the barge-in rule, the bookkeeping of
    mark tokens across whole runs, and the places where the code does not
    keep the invariants one might expect of it. */
module RelayProperties {
  import opened Common
  import opened Personas
  import opened RelayModel

  // ---------------------------------------------------------------------
  // One event at a time
  // ---------------------------------------------------------------------

  /** A Twilio `media` frame always becomes the clock, and its audio is
      forwarded to the agent exactly when the agent socket is open. Nothing
      else changes. */
  lemma MediaFrameEffect(r: Relay, ts: int, payload: string)
    ensures var r' := Step(r, FromTwilio(Media(ts, payload)));
      && r'.latestMediaTimestamp == ts
      && (r.agent == Open ==> r'.agentOut == r.agentOut + [AppendAudio(payload)])
      && (r.agent != Open ==> r'.agentOut == r.agentOut)
      && r'.(latestMediaTimestamp := r.latestMediaTimestamp, agentOut := r.agentOut) == r
  {
  }

  /** A Twilio `mark` frame removes exactly the oldest token, whatever name it
      carries, and is a no-op on an empty queue. */
  lemma MarkFrameEffect(r: Relay, name: string)
    ensures var r' := Step(r, FromTwilio(Mark(name)));
      && (|r.markQueue| > 0 ==> r'.markQueue == r.markQueue[1..] && r' == r.(markQueue := r'.markQueue))
      && (r.markQueue == [] ==> r' == r)
  {
  }

  /** `sendMark` emits one mark frame and queues one token exactly when a
      stream id is known, and otherwise changes nothing. */
  lemma SendMarkEffect(r: Relay)
    ensures TruthyStr(r.streamSid) ==>
      && SendMark(r).twilioOut == r.twilioOut + [MarkOut(r.streamSid.value, "responsePart")]
      && SendMark(r).markQueue == r.markQueue + ["responsePart"]
    ensures !TruthyStr(r.streamSid) ==> SendMark(r) == r
  {
  }

  /** An audio delta that is relayed: the media frame goes out before the
      mark; the start is taken from the clock only while it is falsy; the
      item id is remembered only when present; and a mark (with its token)
      follows only once a stream id is known. */
  lemma AudioDeltaEffect(r: Relay, delta: string, itemId: Option<string>)
    requires r.variant == AppJs || delta != ""
    ensures var r' := Step(r, FromAgent(AudioDelta(delta, itemId)));
      && r'.twilioOut == r.twilioOut + [MediaOut(r.streamSid, delta)]
                         + (if TruthyStr(r.streamSid) then [MarkOut(r.streamSid.value, MarkName)] else [])
      && r'.markQueue == r.markQueue + (if TruthyStr(r.streamSid) then [MarkName] else [])
      && r'.responseStart == (if TruthyInt(r.responseStart) then r.responseStart else Some(r.latestMediaTimestamp))
      && r'.lastAssistantItem == (if TruthyStr(itemId) then itemId else r.lastAssistantItem)
      && r'.agentOut == r.agentOut && r'.streamSid == r.streamSid
      && r'.latestMediaTimestamp == r.latestMediaTimestamp && r'.agent == r.agent
  {
  }

  /** server.js drops a delta event that carries no audio. */
  lemma ServerIgnoresEmptyDelta(r: Relay, itemId: Option<string>)
    requires r.variant == ServerJs
    ensures Step(r, FromAgent(AudioDelta("", itemId))) == r
  {
  }

  /** The barge-in rule. While an utterance is tracked, speech from the
      caller truncates the remembered item (if any) at the elapsed time on
      the caller's clock, emits exactly one `clear` for the stream, and
      forgets the queue, the item and the start. */
  lemma BargeIn(r: Relay)
    requires |r.markQueue| > 0 && r.responseStart.Some?
    ensures var r' := Step(r, FromAgent(SpeechStarted));
      var elapsed := r.latestMediaTimestamp - r.responseStart.value;
      && r'.twilioOut == r.twilioOut + [ClearOut(r.streamSid)]
      && (TruthyStr(r.lastAssistantItem) ==>
            r'.agentOut == r.agentOut + [Truncate(r.lastAssistantItem.value, 0, elapsed)])
      && (!TruthyStr(r.lastAssistantItem) ==> r'.agentOut == r.agentOut)
      && r' == r.(agentOut := r'.agentOut, twilioOut := r'.twilioOut,
                  markQueue := [], lastAssistantItem := None, responseStart := None)
  {
  }

  /** Caller speech with an empty queue or no start emits nothing and
      changes nothing. */
  lemma NoBargeInWhenIdle(r: Relay)
    requires r.markQueue == [] || r.responseStart == None
    ensures Step(r, FromAgent(SpeechStarted)) == r
  {
  }

  /** A second `speech_started` right after the first does nothing more. */
  lemma SpeechStartedIdempotent(r: Relay)
    ensures var once := Step(r, FromAgent(SpeechStarted));
      Step(once, FromAgent(SpeechStarted)) == once
  {
  }

  /** server.js `start`: the stream id comes from the frame, the persona from
      the dispatcher, and a new agent socket is opened on that persona's model
      and temperature. The clock and the utterance start are kept. */
  lemma ServerStartEffect(r: Relay, sid: string, caller: Option<string>)
    requires r.variant == ServerJs
    ensures var r' := Step(r, FromTwilio(Start(sid, caller)));
      var p := GetPersonaByNumber(caller);
      && r'.streamSid == Some(sid) && r'.persona == Some(p)
      && r'.agent == Connecting && !r'.initPending
      && r'.agentOut == r.agentOut + [Connect(AgentUrl(p.model, p.temperature))]
      && r'.latestMediaTimestamp == r.latestMediaTimestamp && r'.responseStart == r.responseStart
      && r'.markQueue == r.markQueue && r'.twilioOut == r.twilioOut
  {
  }

  /** app.js `start`: the stream id comes from the frame, the clock goes back
      to 0, the utterance start is forgotten and the prompt is chosen from
      app.js's own table. The socket, opened at connection time, is kept. */
  lemma AppStartEffect(r: Relay, sid: string, caller: Option<string>)
    requires r.variant == AppJs
    ensures var r' := Step(r, FromTwilio(Start(sid, caller)));
      && r'.streamSid == Some(sid) && r'.latestMediaTimestamp == 0 && r'.responseStart == None
      && r'.systemMessage == AppPromptFor(caller)
      && r'.agent == r.agent && r'.agentOut == r.agentOut && r'.twilioOut == r.twilioOut
      && r'.markQueue == r.markQueue && r'.lastAssistantItem == r.lastAssistantItem
  {
  }

  /** server.js's session start: exactly three messages, in order: the
      configuration (mu-law in and out, server-side voice activity detection,
      the persona's model, voice, speed and instructions), the greeting
      request as a user item, and `response.create`. */
  lemma ServerInitSendsThree(r: Relay, p: Persona)
    requires r.variant == ServerJs && r.initPending && r.persona == Some(p)
    ensures var r' := Step(r, InitTimerFired);
      && r'.agentOut == r.agentOut + [
           SessionUpdate(SessionConfig("realtime", p.model, ["audio"], "audio/pcmu", "server_vad",
                                       "audio/pcmu", p.voice, p.speed, p.instructions)),
           CreateUserText("Say your greeting."),
           CreateResponse]
      && r' == r.(initPending := false, agentOut := r'.agentOut)
  {
  }

  /** app.js's session start: one configuration message with the voice
      "alloy" and whatever prompt is current when the timer runs. */
  lemma AppInitSendsOne(r: Relay)
    requires r.variant == AppJs && r.initPending
    ensures var r' := Step(r, InitTimerFired);
      && r'.agentOut == r.agentOut + [
           SessionUpdate(SessionConfig("realtime", "gpt-realtime", ["audio"], "audio/pcmu", "server_vad",
                                       "audio/pcmu", "alloy", None, Text(r.systemMessage)))]
      && r' == r.(initPending := false, agentOut := r'.agentOut)
  {
  }

  /** The timer's work is done once: a second firing sends nothing. */
  lemma InitRunsOnce(r: Relay)
    ensures var once := Step(r, InitTimerFired);
      Step(once, InitTimerFired) == once
  {
  }

  /** Without a new 'open' the timer stays disarmed, so however many times
      it fires in a run, and whatever events come between, it sends
      nothing: the session messages go out at most once per opened socket. */
  lemma {:induction false} NoInitWithoutOpen(r: Relay, evs: seq<Event>)
    requires !r.initPending
    requires AgentOpened !in evs
    ensures !Run(r, evs).initPending
    ensures Step(Run(r, evs), InitTimerFired) == Run(r, evs)
    decreases |evs|
  {
    if evs != [] {
      assert evs[0] != AgentOpened && AgentOpened !in evs[1..];
      NoInitWithoutOpen(Step(r, evs[0]), evs[1..]);
    }
  }

  /** Closing the Twilio side closes an open agent socket. */
  lemma TwilioCloseClosesAgent(r: Relay)
    requires r.agent == Open
    ensures var r' := Step(r, TwilioClosed);
      r'.agent == Closed && r'.agentOut == r.agentOut + [CloseSocket]
  {
  }

  // ---------------------------------------------------------------------
  // Whole runs
  // ---------------------------------------------------------------------

  lemma {:induction false} RunAppend(r: Relay, a: seq<Event>, b: seq<Event>)
    ensures Run(r, a + b) == Run(Run(r, a), b)
    decreases |a|
  {
    if a == [] {
      assert a + b == b;
    } else {
      assert (a + b)[0] == a[0];
      assert (a + b)[1..] == a[1..] + b;
      RunAppend(Step(r, a[0]), a[1..], b);
    }
  }

  lemma RunOne(r: Relay, e: Event)
    ensures Run(r, [e]) == Step(r, e)
  {
    assert [e][1..] == [];
  }

  /** One event never takes back a frame or message already sent. */
  lemma StepExtends(r: Relay, e: Event)
    ensures var r' := Step(r, e);
      r.twilioOut <= r'.twilioOut && r.agentOut <= r'.agentOut && r'.variant == r.variant
  {
    match e {
      case FromTwilio(f) =>
      case FromAgent(a) =>
        match a {
          case AudioDelta(delta, itemId) =>
          case SpeechStarted =>
          case _ =>
        }
      case _ =>
    }
  }

  /** No handler ever takes back a frame or message it has sent: both logs
      only grow, and the variant is fixed. */
  lemma {:induction false} LogsOnlyGrow(r: Relay, evs: seq<Event>)
    ensures var r' := Run(r, evs);
      r.twilioOut <= r'.twilioOut && r.agentOut <= r'.agentOut && r'.variant == r.variant
    decreases |evs|
  {
    if evs != [] {
      StepExtends(r, evs[0]);
      LogsOnlyGrow(Step(r, evs[0]), evs[1..]);
    }
  }

  /** Number of mark frames in a Twilio log. */
  function CountMarks(out: seq<TwilioOut>): nat {
    if out == [] then 0 else CountMarks(out[..|out| - 1]) + (if out[|out| - 1].MarkOut? then 1 else 0)
  }

  /** Number of clear frames in a Twilio log. */
  function CountClears(out: seq<TwilioOut>): nat {
    if out == [] then 0 else CountClears(out[..|out| - 1]) + (if out[|out| - 1].ClearOut? then 1 else 0)
  }

  lemma CountsSnoc(out: seq<TwilioOut>, x: TwilioOut)
    ensures CountMarks(out + [x]) == CountMarks(out) + (if x.MarkOut? then 1 else 0)
    ensures CountClears(out + [x]) == CountClears(out) + (if x.ClearOut? then 1 else 0)
  {
    assert (out + [x])[..|out|] == out;
  }

  lemma {:induction false} CountsAdd(a: seq<TwilioOut>, b: seq<TwilioOut>)
    ensures CountMarks(a + b) == CountMarks(a) + CountMarks(b)
    ensures CountClears(a + b) == CountClears(a) + CountClears(b)
    decreases |b|
  {
    if b == [] {
      assert a + b == a;
    } else {
      var b0 := b[..|b| - 1];
      assert a + b == (a + b0) + [b[|b| - 1]];
      assert b == b0 + [b[|b| - 1]];
      CountsAdd(a, b0);
      CountsSnoc(a + b0, b[|b| - 1]);
      CountsSnoc(b0, b[|b| - 1]);
    }
  }

  /** A prefix of a log holds no more marks or clears than the log. */
  lemma CountsOfPrefix(a: seq<TwilioOut>, b: seq<TwilioOut>)
    requires a <= b
    ensures CountMarks(a) <= CountMarks(b)
    ensures CountClears(a) <= CountClears(b)
  {
    assert b == a + b[|a|..];
    CountsAdd(a, b[|a|..]);
  }

  /** 1 when the event is a Twilio `mark` that pops a token, else 0. */
  function Pop(r: Relay, e: Event): nat {
    if e.FromTwilio? && e.frame.Mark? && |r.markQueue| > 0 then 1 else 0
  }

  /** Number of Twilio `mark` frames in a run that found a token to pop. */
  function Pops(r: Relay, evs: seq<Event>): nat
    decreases |evs|
  {
    if evs == [] then 0 else Pop(r, evs[0]) + Pops(Step(r, evs[0]), evs[1..])
  }

  /** Twilio frames never write to Twilio; only a `mark` changes the queue. */
  lemma TwilioFrameAccounting(r: Relay, f: TwilioFrame)
    ensures var r' := Step(r, FromTwilio(f));
      r'.twilioOut == r.twilioOut && |r'.markQueue| + Pop(r, FromTwilio(f)) == |r.markQueue|
  {
    match f {
      case Start(sid, caller) =>
        assert OnStart(r, sid, caller).markQueue == r.markQueue;
      case Media(ts, payload) =>
      case Mark(_) =>
      case Stop =>
      case OtherFrame(_) =>
    }
  }

  /** Socket lifecycle events touch neither the Twilio log nor the queue. */
  lemma LifecycleAccounting(r: Relay, e: Event)
    requires e.AgentOpened? || e.InitTimerFired? || e.AgentClosed? || e.TwilioClosed?
    ensures Step(r, e).twilioOut == r.twilioOut && Step(r, e).markQueue == r.markQueue
  {
  }

  /** One event's share of the queue bookkeeping: unless it emits a clear, it
      adds one token per mark frame it sends and removes one per pop. */
  lemma StepAccounting(r: Relay, e: Event)
    ensures var r' := Step(r, e);
      CountClears(r'.twilioOut) == CountClears(r.twilioOut) ==>
        |r'.markQueue| + Pop(r, e) == |r.markQueue| + CountMarks(r'.twilioOut) - CountMarks(r.twilioOut)
  {
    match e {
      case FromTwilio(f) =>
        TwilioFrameAccounting(r, f);
      case FromAgent(a) =>
        match a {
          case AudioDelta(delta, itemId) =>
            if r.variant == AppJs || delta != "" {
              AudioDeltaEffect(r, delta, itemId);
              var media := r.twilioOut + [MediaOut(r.streamSid, delta)];
              CountsSnoc(r.twilioOut, MediaOut(r.streamSid, delta));
              if TruthyStr(r.streamSid) {
                CountsSnoc(media, MarkOut(r.streamSid.value, MarkName));
              } else {
                assert media + [] == media;
              }
            }
          case SpeechStarted =>
            if |r.markQueue| > 0 && r.responseStart.Some? {
              CountsSnoc(r.twilioOut, ClearOut(r.streamSid));
            }
          case AgentError =>
          case OtherEvent(_) =>
        }
      case _ =>
        LifecycleAccounting(r, e);
    }
  }

  /** Between interruptions the mark queue holds exactly one token for every
      mark frame sent to Twilio (that is, every delta relayed while a stream
      id was known) minus the `mark` frames that popped one. */
  lemma {:induction false} QueueAccounting(r: Relay, evs: seq<Event>)
    ensures var r' := Run(r, evs);
      CountClears(r'.twilioOut) == CountClears(r.twilioOut) ==>
        |r'.markQueue| + Pops(r, evs) == |r.markQueue| + CountMarks(r'.twilioOut) - CountMarks(r.twilioOut)
    decreases |evs|
  {
    if evs != [] {
      var r1 := Step(r, evs[0]);
      var r' := Run(r1, evs[1..]);
      StepAccounting(r, evs[0]);
      QueueAccounting(r1, evs[1..]);
      StepExtends(r, evs[0]);
      LogsOnlyGrow(r1, evs[1..]);
      CountsOfPrefix(r.twilioOut, r1.twilioOut);
      CountsOfPrefix(r1.twilioOut, r'.twilioOut);
    }
  }

  /** Every queued token is the name "responsePart". */
  ghost predicate TokensAreResponsePart(r: Relay) {
    forall i :: 0 <= i < |r.markQueue| ==> r.markQueue[i] == MarkName
  }

  lemma {:induction false} TokensStayResponsePart(r: Relay, evs: seq<Event>)
    requires TokensAreResponsePart(r)
    ensures TokensAreResponsePart(Run(r, evs))
    decreases |evs|
  {
    if evs != [] {
      var r1 := Step(r, evs[0]);
      assert TokensAreResponsePart(r1);
      TokensStayResponsePart(r1, evs[1..]);
    }
  }

  /** Events that move the clock: every `media` frame, and in app.js every
      `start` frame as well. */
  predicate MovesClock(v: Variant, e: Event) {
    e.FromTwilio? && (e.frame.Media? || (v == AppJs && e.frame.Start?))
  }

  lemma {:induction false} ClockUntouched(r: Relay, evs: seq<Event>)
    requires forall i :: 0 <= i < |evs| ==> !MovesClock(r.variant, evs[i])
    ensures Run(r, evs).latestMediaTimestamp == r.latestMediaTimestamp
    decreases |evs|
  {
    if evs != [] {
      var r1 := Step(r, evs[0]);
      assert !MovesClock(r.variant, evs[0]);
      assert r1.latestMediaTimestamp == r.latestMediaTimestamp && r1.variant == r.variant;
      assert forall i :: 0 <= i < |evs[1..]| ==> !MovesClock(r1.variant, evs[1..][i]) by {
        forall i | 0 <= i < |evs[1..]| ensures !MovesClock(r1.variant, evs[1..][i]) {
          assert evs[1..][i] == evs[i + 1];
        }
      }
      ClockUntouched(r1, evs[1..]);
    }
  }

  /** Handling one more event after a run. */
  lemma RunSnoc(r: Relay, evs: seq<Event>, e: Event)
    ensures Run(r, evs + [e]) == Step(Run(r, evs), e)
  {
    RunAppend(r, evs, [e]);
    RunOne(Run(r, evs), e);
  }

  /** Last write wins: after a `media` frame, the clock is that frame's
      timestamp until the next event that moves it. */
  lemma LastMediaWins(r: Relay, before: seq<Event>, ts: int, payload: string, after: seq<Event>)
    requires forall i :: 0 <= i < |after| ==> !MovesClock(r.variant, after[i])
    ensures Run(r, before + [FromTwilio(Media(ts, payload))] + after).latestMediaTimestamp == ts
  {
    var media := FromTwilio(Media(ts, payload));
    var r0 := Run(r, before);
    LogsOnlyGrow(r, before);
    RunSnoc(r, before, media);
    var r1 := Run(r, before + [media]);
    assert r1.latestMediaTimestamp == ts && r1.variant == r.variant by {
      MediaFrameEffect(r0, ts, payload);
    }
    RunAppend(r, before + [media], after);
    ClockUntouched(r1, after);
  }

  // ---------------------------------------------------------------------
  // Utterances: n deltas followed by n acknowledgements
  // ---------------------------------------------------------------------

  function Deltas(n: nat, delta: string, itemId: Option<string>): seq<Event> {
    seq(n, _ => FromAgent(AudioDelta(delta, itemId)))
  }

  function Marks(n: nat): seq<Event> {
    seq(n, _ => FromTwilio(Mark(MarkName)))
  }

  /** Relaying n deltas with a known stream id queues n more tokens and
      fixes the start, once set, to a truthy value or the clock. */
  lemma {:induction false} DeltasQueueTokens(r: Relay, n: nat, delta: string, itemId: Option<string>)
    requires TruthyStr(r.streamSid) && delta != ""
    ensures var r' := Run(r, Deltas(n, delta, itemId));
      && |r'.markQueue| == |r.markQueue| + n
      && r'.streamSid == r.streamSid && r'.latestMediaTimestamp == r.latestMediaTimestamp
      && (n > 0 || r.responseStart.Some? ==> r'.responseStart.Some?)
    decreases n
  {
    if n > 0 {
      var e := FromAgent(AudioDelta(delta, itemId));
      assert Deltas(n, delta, itemId) == [e] + Deltas(n - 1, delta, itemId);
      assert ([e] + Deltas(n - 1, delta, itemId))[1..] == Deltas(n - 1, delta, itemId);
      var r1 := Step(r, e);
      assert r1.responseStart.Some?;
      DeltasQueueTokens(r1, n - 1, delta, itemId);
    }
  }

  /** Each acknowledgement pops one token and leaves the start alone. */
  lemma {:induction false} MarksPopTokens(r: Relay, n: nat)
    requires n <= |r.markQueue|
    ensures var r' := Run(r, Marks(n));
      |r'.markQueue| == |r.markQueue| - n && r'.responseStart == r.responseStart
    decreases n
  {
    if n > 0 {
      var e := FromTwilio(Mark(MarkName));
      assert Marks(n) == [e] + Marks(n - 1);
      assert ([e] + Marks(n - 1))[1..] == Marks(n - 1);
      MarksPopTokens(Step(r, e), n - 1);
    }
  }

  /** The queue and the start are NOT cleared together: once the caller's
      side has acknowledged all n parts of an utterance the queue is empty,
      yet the start stays set, and the next utterance will keep it. Only
      the barge-in rule clears both. */
  lemma StartOutlivesQueue(r: Relay, n: nat, delta: string, itemId: Option<string>)
    requires TruthyStr(r.streamSid) && delta != "" && r.markQueue == [] && n > 0
    ensures var r' := Run(r, Deltas(n, delta, itemId) + Marks(n));
      r'.markQueue == [] && r'.responseStart.Some?
  {
    RunAppend(r, Deltas(n, delta, itemId), Marks(n));
    DeltasQueueTokens(r, n, delta, itemId);
    MarksPopTokens(Run(r, Deltas(n, delta, itemId)), n);
  }

  // ---------------------------------------------------------------------
  // Concrete behaviours
  // ---------------------------------------------------------------------

  /** The start test is a truthiness test: a start of 0 (audio that began
      before any caller media arrived) is replaced by the next delta... */
  lemma ZeroStartIsOverwritten(r: Relay, delta: string, itemId: Option<string>)
    requires r.responseStart == Some(0)
    requires r.variant == AppJs || delta != ""
    ensures Step(r, FromAgent(AudioDelta(delta, itemId))).responseStart == Some(r.latestMediaTimestamp)
  {
  }

  /** ...whereas the barge-in guard only tests for null, so a start of 0
      still arms an interruption. */
  lemma ZeroStartStillInterrupts(r: Relay)
    requires r.responseStart == Some(0) && |r.markQueue| > 0
    ensures var r' := Step(r, FromAgent(SpeechStarted));
      r'.twilioOut == r.twilioOut + [ClearOut(r.streamSid)] && r'.markQueue == []
  {
  }

  /** Without a stream id a delta sets the start but queues no token. Only
      app.js, whose agent socket opens before `start`, can reach this. */
  lemma StartWithoutMark(v: Variant)
    ensures var r' := Step(Initial(v), FromAgent(AudioDelta("AAA", Some("it1"))));
      r'.responseStart == Some(0) && r'.markQueue == []
      && r'.twilioOut == [MediaOut(None, "AAA")]
  {
  }

  /** A second `start` replaces the stream id; in server.js it also opens a
      second agent socket. */
  lemma StreamSidCanChange()
    ensures var r' := Run(Initial(ServerJs), [FromTwilio(Start("SS1", None)), FromTwilio(Start("SS2", None))]);
      r'.streamSid == Some("SS2")
      && r'.agentOut == [Connect(AgentUrl("gpt-4o-realtime-preview", "0.8")),
                         Connect(AgentUrl("gpt-4o-realtime-preview", "0.8"))]
  {
    var s0 := Initial(ServerJs);
    var e1, e2 := FromTwilio(Start("SS1", None)), FromTwilio(Start("SS2", None));
    assert [e1, e2] == [e1] + [e2];
    RunAppend(s0, [e1], [e2]);
    RunOne(s0, e1);
    RunOne(Step(s0, e1), e2);
  }

  /** The Twilio side closing does not stop the relay: a later delta is still
      sent towards Twilio. */
  lemma RelayContinuesAfterClose(r: Relay, itemId: Option<string>)
    ensures var r' := Step(Step(r, TwilioClosed), FromAgent(AudioDelta("AAA", itemId)));
      |r'.twilioOut| > |r.twilioOut| && r'.twilioOut[|r.twilioOut|] == MediaOut(r.streamSid, "AAA")
  {
  }

  /** app.js configures its session with the default prompt when the timer
      runs before `start`. */
  lemma AppInitBeforeStart()
    ensures var r' := Run(Initial(AppJs), [AgentOpened, InitTimerFired]);
      r'.agentOut == [Connect(AgentUrl("gpt-realtime", "0.8")),
                      SessionUpdate(Session("gpt-realtime", "alloy", None, Text(AppBillysPrompt)))]
  {
    var s0 := Initial(AppJs);
    assert [AgentOpened, InitTimerFired] == [AgentOpened] + [InitTimerFired];
    RunAppend(s0, [AgentOpened], [InitTimerFired]);
    RunOne(s0, AgentOpened);
    RunOne(Step(s0, AgentOpened), InitTimerFired);
  }

  /** A whole server.js call: start, the agent connects and is configured,
      one delta at clock 0, caller media at 850 ms, then the caller speaks. */
  lemma ServerCallScenario()
    ensures var r := Run(Initial(ServerJs), [
        FromTwilio(Start("SS1", Some("+15550100"))), AgentOpened, InitTimerFired,
        FromAgent(AudioDelta("AAA", Some("it1"))),
        FromTwilio(Media(850, "BBB")), FromAgent(SpeechStarted)]);
      var billy := BillyPersona();
      && r.twilioOut == [MediaOut(Some("SS1"), "AAA"), MarkOut("SS1", "responsePart"), ClearOut(Some("SS1"))]
      && r.agentOut == [Connect(AgentUrl(billy.model, billy.temperature)),
                        SessionUpdate(Session(billy.model, billy.voice, billy.speed, billy.instructions)),
                        CreateUserText("Say your greeting."), CreateResponse,
                        AppendAudio("BBB"), Truncate("it1", 0, 850)]
      && r.markQueue == [] && r.lastAssistantItem == None && r.responseStart == None
  {
    var e := [FromTwilio(Start("SS1", Some("+15550100"))), AgentOpened, InitTimerFired,
              FromAgent(AudioDelta("AAA", Some("it1"))),
              FromTwilio(Media(850, "BBB")), FromAgent(SpeechStarted)];
    var s0 := Initial(ServerJs);
    var s1 := Step(s0, e[0]);
    var s2 := Step(s1, e[1]);
    var s3 := Step(s2, e[2]);
    var s4 := Step(s3, e[3]);
    assert s4.responseStart == Some(0) && s4.markQueue == [MarkName];
    var s5 := Step(s4, e[4]);
    var s6 := Step(s5, e[5]);
    assert e == [e[0]] + [e[1]] + [e[2]] + [e[3]] + [e[4]] + [e[5]];
    RunAppend(s0, [e[0]] + [e[1]] + [e[2]] + [e[3]] + [e[4]], [e[5]]);
    RunAppend(s0, [e[0]] + [e[1]] + [e[2]] + [e[3]], [e[4]]);
    RunAppend(s0, [e[0]] + [e[1]] + [e[2]], [e[3]]);
    RunAppend(s0, [e[0]] + [e[1]], [e[2]]);
    RunAppend(s0, [e[0]], [e[1]]);
    RunOne(s0, e[0]);
    RunOne(s1, e[1]);
    RunOne(s2, e[2]);
    RunOne(s3, e[3]);
    RunOne(s4, e[4]);
    RunOne(s5, e[5]);
  }
}
