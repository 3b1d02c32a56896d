/**
  The state machine behind the tutor's conversation screen: the transcript, the two
  partial-transcription accumulators, the playback cursor and the set of active
  playback sources, the session reference, the agent status and the error text.
  Every handler of the app component is one function from the old state to the new;
  the component's class is specified by them.

  Clock times and durations are exact `real`s. A source node is named by a number
  handed out in creation order.
*/
module Conversation {
  import opened Types

  const Greeting: string := "Hello! Welcome to your English practice session. I'm DEWA. Ready to start? Click the microphone button below."
  const PlaybackErrorText: string := "There was an issue playing back the audio."
  const ConnectionErrorText: string := "A connection error occurred. Please try again."
  const StartErrorText: string := "Could not get microphone permissions or start the session."
  const OutputSampleRate: nat := 24000

  type Duration = d: real | d >= 0.0

  datatype OutputContext = OutputContext(sampleRate: nat, closed: bool)

  /** When a source node was started and how long its buffer plays. */
  datatype Playback = Playback(start: real, duration: Duration)

  /** The outcome of decoding one inline audio payload (the decoder is not modelled). */
  datatype Decoded = Decoded(duration: Duration) | DecodeFailed

  datatype AudioPart = AudioPart(data: string, decoded: Decoded)

  /**
    What `modelTurn?.parts[0]?.inlineData?.data` finds: no model turn or no inline data,
    a model turn without a `parts` array (reading `parts[0]` then throws), or a payload.
  */
  datatype AudioField = NoAudio | PartsMissing | Inline(part: AudioPart)

  /** The parts of a live server message the handler looks at. */
  datatype ServerMessage = ServerMessage(
    inputTranscription: Option<string>,
    outputTranscription: Option<string>,
    audio: AudioField,
    turnComplete: bool,
    interrupted: bool)

  datatype AppState = AppState(
    level: Option<Level>,
    status: AgentStatus,
    transcript: seq<Message>,
    error: Option<string>,
    session: Option<nat>,
    closedSessions: set<nat>,
    outputContext: Option<OutputContext>,
    nextStartTime: real,
    sources: set<nat>,
    stopped: set<nat>,
    playback: map<nat, Playback>,
    nextSourceId: nat,
    inputAcc: string,
    outputAcc: string)

  function End(p: Playback): real { p.start + p.duration }

  predicate Disjoint(p: Playback, q: Playback)
  {
    End(p) <= q.start || End(q) <= p.start
  }

  /**
    Playback invariant: every active source was started and was named before the
    counter, ends no later than the cursor, and no two active sources overlap in time.
  */
  ghost predicate Inv(s: AppState)
  {
    && s.sources <= s.playback.Keys
    && (forall id :: id in s.playback ==> id < s.nextSourceId)
    && (forall id :: id in s.sources ==> End(s.playback[id]) <= s.nextStartTime)
    && (forall a, b :: a in s.sources && b in s.sources && a != b ==> Disjoint(s.playback[a], s.playback[b]))
  }

  function Initial(): (s: AppState)
    ensures Inv(s)
    ensures s.status == SelectLevel && s.level.None? && s.transcript == [] && s.session.None?
    ensures s.error.None? && s.outputContext.None? && s.nextStartTime == 0.0 && s.sources == {}
    ensures s.inputAcc == "" && s.outputAcc == ""
  {
    AppState(None, SelectLevel, [], None, None, {}, None, 0.0, {}, {}, map[], 0, "", "")
  }

  /** Choosing a level: status IDLE and a transcript holding only the greeting. */
  function LevelSelect(s: AppState, level: Level): (r: AppState)
    ensures r.level == Some(level) && r.status == Idle
    ensures r.transcript == [Message(Dewa, Greeting)]
    ensures r.(level := s.level, status := s.status, transcript := s.transcript) == s
  {
    s.(level := Some(level), status := Idle, transcript := [Message(Dewa, Greeting)])
  }

  /** The part of a transcript that a fragment from `who` cannot touch. */
  function Settled(t: seq<Message>, who: Sender): (r: seq<Message>)
    ensures |t| - 1 <= |r| <= |t| && r == t[..|r|]
  {
    if |t| > 0 && t[|t| - 1].sender == who then t[..|t| - 1] else t
  }

  /** Every message except possibly the last of `t` is still in place in `u`. */
  ghost predicate KeepsAllButLast(t: seq<Message>, u: seq<Message>)
  {
    |t| <= |u| && forall i :: 0 <= i < |t| - 1 ==> u[i] == t[i]
  }

  /**
    The transcript updater: a message from the same sender as the last one has its
    text replaced by `text`; otherwise a new message is appended.
  */
  function Coalesce(t: seq<Message>, who: Sender, text: string): (r: seq<Message>)
    ensures r == Settled(t, who) + [Message(who, text)]
    ensures |t| > 0 && t[|t| - 1].sender == who ==> |r| == |t|
    ensures !(|t| > 0 && t[|t| - 1].sender == who) ==> |r| == |t| + 1
    ensures KeepsAllButLast(t, r)
  {
    if |t| > 0 && t[|t| - 1].sender == who then
      t[|t| - 1 := t[|t| - 1].(text := text)]
    else
      t + [Message(who, text)]
  }

  /** An input-transcription fragment: extend the user accumulator and coalesce it. */
  function InputFragment(s: AppState, text: string): (r: AppState)
    ensures r.inputAcc == s.inputAcc + text
    ensures r.transcript == Settled(s.transcript, User) + [Message(User, s.inputAcc + text)]
    ensures r.(inputAcc := s.inputAcc, transcript := s.transcript) == s
  {
    var acc := s.inputAcc + text;
    s.(inputAcc := acc, transcript := Coalesce(s.transcript, User, acc))
  }

  /** An output-transcription fragment: as for input, for the agent, and the agent is speaking. */
  function OutputFragment(s: AppState, text: string): (r: AppState)
    ensures r.outputAcc == s.outputAcc + text
    ensures r.transcript == Settled(s.transcript, Dewa) + [Message(Dewa, s.outputAcc + text)]
    ensures r.status == Speaking
    ensures r.(outputAcc := s.outputAcc, transcript := s.transcript, status := s.status) == s
  {
    var acc := s.outputAcc + text;
    s.(outputAcc := acc, status := Speaking, transcript := Coalesce(s.transcript, Dewa, acc))
  }

  function Later(a: real, b: real): (r: real)
    ensures r >= a && r >= b && (r == a || r == b)
  {
    if a >= b then a else b
  }

  /** Audio is handled only for a non-empty payload while an output context exists. */
  predicate Plays(s: AppState, part: AudioPart)
  {
    part.data != "" && s.outputContext.Some?
  }

  /**
    An inline audio payload: the cursor first moves up to the clock; a decoded buffer is
    started at the cursor on a fresh source, which joins the active set, and the cursor
    advances by the buffer's duration; a decode failure reports an error.
  */
  function ScheduleAudio(s: AppState, part: AudioPart, now: real): (r: AppState)
    ensures !Plays(s, part) ==> r == s
    ensures Plays(s, part) ==> r.nextStartTime >= s.nextStartTime && r.nextStartTime >= now
    ensures Plays(s, part) && part.decoded.DecodeFailed? ==>
      && r.status == Error && r.error == Some(PlaybackErrorText)
      && (r.nextStartTime == s.nextStartTime || r.nextStartTime == now)
      && r.(status := s.status, error := s.error, nextStartTime := s.nextStartTime) == s
    ensures Plays(s, part) && part.decoded.Decoded? ==>
      var id := s.nextSourceId;
      && id in r.playback
      && r.playback[id].start >= now && r.playback[id].start >= s.nextStartTime
      && (r.playback[id].start == now || r.playback[id].start == s.nextStartTime)
      && r.playback[id].duration == part.decoded.duration
      && r.nextStartTime == r.playback[id].start + part.decoded.duration
      && r.sources == s.sources + {id} && r.status == Speaking
      && r.playback == s.playback[id := r.playback[id]]
      && r.nextSourceId == id + 1
      && r.(status := s.status, nextStartTime := s.nextStartTime, sources := s.sources,
            playback := s.playback, nextSourceId := s.nextSourceId) == s
  {
    if !Plays(s, part) then s
    else
      var cursor := Later(s.nextStartTime, now);
      match part.decoded
      case DecodeFailed =>
        s.(nextStartTime := cursor, status := Error, error := Some(PlaybackErrorText))
      case Decoded(d) =>
        var id := s.nextSourceId;
        s.(status := Speaking,
           nextStartTime := cursor + d,
           playback := s.playback[id := Playback(cursor, d)],
           sources := s.sources + {id},
           nextSourceId := id + 1)
  }

  /** A turn boundary clears both accumulators and nothing else. */
  function TurnComplete(s: AppState): (r: AppState)
    ensures r.inputAcc == "" && r.outputAcc == ""
    ensures r.(inputAcc := s.inputAcc, outputAcc := s.outputAcc) == s
  {
    s.(inputAcc := "", outputAcc := "")
  }

  /** Stop every active source, empty the active set and reset the cursor. */
  function Flush(s: AppState): (r: AppState)
    ensures r.sources == {} && r.nextStartTime == 0.0
    ensures r.stopped == s.stopped + s.sources
    ensures r.(sources := s.sources, stopped := s.stopped, nextStartTime := s.nextStartTime) == s
  {
    s.(stopped := s.stopped + s.sources, sources := {}, nextStartTime := 0.0)
  }

  /** Barge-in: flush playback and go back to listening. */
  function Interrupt(s: AppState): (r: AppState)
    ensures r.sources == {} && r.nextStartTime == 0.0 && r.status == Listening
    ensures r.stopped == s.stopped + s.sources
    ensures r.(sources := s.sources, stopped := s.stopped, nextStartTime := s.nextStartTime, status := s.status) == s
  {
    Flush(s).(status := Listening)
  }

  /** The text a transcription field adds to its accumulator. */
  function Fragment(t: Option<string>): string
  {
    if t.Some? then t.value else ""
  }

  /**
    `handleMessage`: the five parts of a message, in the order the handler tests them.
    A model turn without `parts` throws after the transcriptions were applied, so the
    audio, turn-complete and interruption parts of that message are never reached.
  */
  function Dispatch(s: AppState, m: ServerMessage, now: real): (r: AppState)
    ensures m.interrupted && !m.audio.PartsMissing? ==>
      r.sources == {} && r.nextStartTime == 0.0 && r.status == Listening
    ensures m.turnComplete && !m.audio.PartsMissing? ==> r.inputAcc == "" && r.outputAcc == ""
    ensures m.audio.PartsMissing? ==>
      && r.sources == s.sources && r.nextStartTime == s.nextStartTime && r.playback == s.playback
      && r.inputAcc == s.inputAcc + Fragment(m.inputTranscription)
      && r.outputAcc == s.outputAcc + Fragment(m.outputTranscription)
    ensures KeepsAllButLast(s.transcript, r.transcript)
    ensures r.level == s.level && r.session == s.session && r.closedSessions == s.closedSessions
    ensures r.outputContext == s.outputContext
  {
    var s1 := if m.inputTranscription.Some? then InputFragment(s, m.inputTranscription.value) else s;
    var s2 := if m.outputTranscription.Some? then OutputFragment(s1, m.outputTranscription.value) else s1;
    if m.audio.PartsMissing? then s2
    else
      var s3 := if m.audio.Inline? then ScheduleAudio(s2, m.audio.part, now) else s2;
      var s4 := if m.turnComplete then TurnComplete(s3) else s3;
      if m.interrupted then Interrupt(s4) else s4
  }

  /** A source's `ended` event: drop it from the active set; an empty set means listening. */
  function SourceEnded(s: AppState, source: nat): (r: AppState)
    ensures r.sources == s.sources - {source}
    ensures r.status == if r.sources == {} then Listening else s.status
    ensures r.(sources := s.sources, status := s.status) == s
  {
    var sources := s.sources - {source};
    s.(sources := sources, status := if sources == {} then Listening else s.status)
  }

  /** `handleError`: a transport error. */
  function ConnectionError(s: AppState): (r: AppState)
    ensures r.status == Error && r.error == Some(ConnectionErrorText)
    ensures r.(status := s.status, error := s.error) == s
  {
    s.(error := Some(ConnectionErrorText), status := Error)
  }

  /**
    `startConversation` up to the point where it waits for the session: nothing without
    a level; otherwise clear the error, show CONNECTING and make sure an open 24 kHz
    output context exists.
  */
  function BeginConversation(s: AppState): (r: AppState)
    ensures s.level.None? ==> r == s
    ensures s.level.Some? ==>
      && r.status == Connecting && r.error.None?
      && r.outputContext.Some? && !r.outputContext.value.closed
      && (s.outputContext.Some? && !s.outputContext.value.closed ==> r.outputContext == s.outputContext)
      && (s.outputContext.None? || s.outputContext.value.closed ==>
            r.outputContext == Some(OutputContext(OutputSampleRate, false)))
      && r.(status := s.status, error := s.error, outputContext := s.outputContext) == s
  {
    if s.level.None? then s
    else
      var context := if s.outputContext.None? || s.outputContext.value.closed
                     then Some(OutputContext(OutputSampleRate, false)) else s.outputContext;
      s.(error := None, status := Connecting, outputContext := context)
  }

  /** The rest of `startConversation`: keep the session, or report that it could not start. */
  function SessionResolved(s: AppState, outcome: Option<nat>): (r: AppState)
    ensures outcome.Some? ==> r == s.(session := outcome)
    ensures outcome.None? ==> r.status == Error && r.error == Some(StartErrorText)
    ensures outcome.None? ==> r.(status := s.status, error := s.error) == s
  {
    match outcome
    case Some(id) => s.(session := Some(id))
    case None => s.(error := Some(StartErrorText), status := Error)
  }

  /** The session's `onopen` callback. */
  function SessionOpened(s: AppState): (r: AppState)
    ensures r.status == Listening && r.(status := s.status) == s
  {
    s.(status := Listening)
  }

  /** `stopConversation`: close and forget the session, flush playback, show IDLE. */
  function StopConversation(s: AppState): (r: AppState)
    ensures r.session.None? && r.sources == {} && r.nextStartTime == 0.0 && r.status == Idle
    ensures r.stopped == s.stopped + s.sources
    ensures r.closedSessions == if s.session.Some? then s.closedSessions + {s.session.value} else s.closedSessions
    ensures r.(session := s.session, closedSessions := s.closedSessions, status := s.status) == Flush(s)
  {
    var closed := if s.session.Some? then s.closedSessions + {s.session.value} else s.closedSessions;
    Flush(s.(session := None, closedSessions := closed)).(status := Idle)
  }

  /** The component's unmount clean-up: close the session and a non-closed output context. */
  function Unmount(s: AppState): (r: AppState)
    ensures r.outputContext.Some? ==> r.outputContext.value.closed
    ensures s.outputContext.Some? && !s.outputContext.value.closed ==>
      r.outputContext == Some(s.outputContext.value.(closed := true))
    ensures s.outputContext.None? || s.outputContext.value.closed ==> r.outputContext == s.outputContext
    ensures r.closedSessions == if s.session.Some? then s.closedSessions + {s.session.value} else s.closedSessions
    ensures r.(outputContext := s.outputContext, closedSessions := s.closedSessions) == s
  {
    var closed := if s.session.Some? then s.closedSessions + {s.session.value} else s.closedSessions;
    var context := if s.outputContext.Some? && !s.outputContext.value.closed
                   then Some(s.outputContext.value.(closed := true)) else s.outputContext;
    s.(closedSessions := closed, outputContext := context)
  }

  /** Everything that can happen to the component. */
  datatype Event =
    | LevelSelected(level: Level)
    | Received(message: ServerMessage, now: real)
    | SourceEndedEvent(source: nat)
    | TransportError
    | StartPressed
    | Connected(outcome: Option<nat>)
    | TransportOpened
    | StopPressed
    | Unmounted

  function Step(s: AppState, e: Event): AppState
  {
    match e
    case LevelSelected(level) => LevelSelect(s, level)
    case Received(m, now) => Dispatch(s, m, now)
    case SourceEndedEvent(source) => SourceEnded(s, source)
    case TransportError => ConnectionError(s)
    case StartPressed => BeginConversation(s)
    case Connected(outcome) => SessionResolved(s, outcome)
    case TransportOpened => SessionOpened(s)
    case StopPressed => StopConversation(s)
    case Unmounted => Unmount(s)
  }

  function Run(s: AppState, es: seq<Event>): AppState
    decreases |es|
  {
    if es == [] then s else Run(Step(s, es[0]), es[1..])
  }

  // ---------------------------------------------------------------------------
  // Playback scheduling

  /** A scheduled buffer starts after every active buffer has ended, so none overlap. */
  lemma ScheduleAudioKeepsInv(s: AppState, part: AudioPart, now: real)
    requires Inv(s)
    ensures Inv(ScheduleAudio(s, part, now))
    ensures Plays(s, part) && part.decoded.Decoded? ==>
      forall id :: id in s.sources ==>
        End(s.playback[id]) <= ScheduleAudio(s, part, now).playback[s.nextSourceId].start
  {
    var r := ScheduleAudio(s, part, now);
    if Plays(s, part) && part.decoded.Decoded? {
      var n := s.nextSourceId;
      var p := r.playback[n];
      forall a | a in r.sources
        ensures End(r.playback[a]) <= r.nextStartTime
      {
        if a != n {
          assert r.playback[a] == s.playback[a];
        }
      }
      forall a, b | a in r.sources && b in r.sources && a != b
        ensures Disjoint(r.playback[a], r.playback[b])
      {
        if a == n {
          assert r.playback[b] == s.playback[b];
          assert End(s.playback[b]) <= s.nextStartTime <= p.start;
        } else if b == n {
          assert r.playback[a] == s.playback[a];
          assert End(s.playback[a]) <= s.nextStartTime <= p.start;
        } else {
          assert r.playback[a] == s.playback[a] && r.playback[b] == s.playback[b];
        }
      }
    }
  }

  lemma DispatchKeepsInv(s: AppState, m: ServerMessage, now: real)
    requires Inv(s)
    ensures Inv(Dispatch(s, m, now))
  {
    var s1 := if m.inputTranscription.Some? then InputFragment(s, m.inputTranscription.value) else s;
    var s2 := if m.outputTranscription.Some? then OutputFragment(s1, m.outputTranscription.value) else s1;
    if m.audio.Inline? {
      ScheduleAudioKeepsInv(s2, m.audio.part, now);
    }
  }

  lemma StepKeepsInv(s: AppState, e: Event)
    requires Inv(s)
    ensures Inv(Step(s, e))
  {
    if e.Received? {
      DispatchKeepsInv(s, e.message, e.now);
    }
  }

  /** Whatever happens, active sources never overlap and never run past the cursor. */
  lemma {:induction false} RunKeepsInv(s: AppState, es: seq<Event>)
    requires Inv(s)
    ensures Inv(Run(s, es))
    decreases |es|
  {
    if es != [] {
      StepKeepsInv(s, es[0]);
      RunKeepsInv(Step(s, es[0]), es[1..]);
    }
  }

  /** A message that carries only audio. */
  function AudioMessage(part: AudioPart): ServerMessage
  {
    ServerMessage(None, None, Inline(part), false, false)
  }

  /**
    Two buffers received one after the other with no interruption: the second starts
    exactly where the first ends when it arrives before that moment, and never earlier.
  */
  lemma Gapless(s: AppState, d1: Duration, now1: real, d2: Duration, now2: real, data1: string, data2: string)
    requires s.outputContext.Some? && data1 != "" && data2 != ""
    ensures
      var s1 := Dispatch(s, AudioMessage(AudioPart(data1, Decoded(d1))), now1);
      var s2 := Dispatch(s1, AudioMessage(AudioPart(data2, Decoded(d2))), now2);
      var first := s1.playback[s.nextSourceId];
      var second := s2.playback[s.nextSourceId + 1];
      && second.start >= End(first)
      && (now2 <= End(first) ==> second.start == End(first))
  {
  }

  /**
    A message whose model turn has no `parts` array aborts the handler before its
    turn-complete and interruption parts: the accumulators are not cleared and the
    buffers already scheduled keep playing.
  */
  lemma MissingPartsSkipsTurnEnd(s: AppState, now: real)
    requires s.sources != {}
    ensures var r := Dispatch(s, ServerMessage(None, None, PartsMissing, true, true), now);
      && r == s && r.sources != {}
  {
  }

  /** After an interruption the active set is empty and the next buffer starts at the clock. */
  lemma InterruptRestartsAtClock(s: AppState, part: AudioPart, now: real)
    requires 0.0 <= now && Plays(s, part) && part.decoded.Decoded?
    ensures Interrupt(s).sources == {}
    ensures ScheduleAudio(Interrupt(s), part, now).playback[s.nextSourceId].start == now
  {
  }

  // ---------------------------------------------------------------------------
  // Transcript coalescing

  /** A message that carries only a transcription fragment from `who`. */
  function TextMessage(who: Sender, text: string): ServerMessage
  {
    ServerMessage(if who == User then Some(text) else None,
                  if who == Dewa then Some(text) else None,
                  NoAudio, false, false)
  }

  function Acc(s: AppState, who: Sender): string
  {
    if who == User then s.inputAcc else s.outputAcc
  }

  function Concat(texts: seq<string>): string
  {
    if texts == [] then "" else texts[0] + Concat(texts[1..])
  }

  /** Feed a run of fragments from one sender, one message each. */
  function Feed(s: AppState, who: Sender, texts: seq<string>, now: real): AppState
    decreases |texts|
  {
    if texts == [] then s else Feed(Dispatch(s, TextMessage(who, texts[0]), now), who, texts[1..], now)
  }

  lemma OneFragment(s: AppState, who: Sender, text: string, now: real)
    ensures Dispatch(s, TextMessage(who, text), now).transcript
      == Settled(s.transcript, who) + [Message(who, Acc(s, who) + text)]
    ensures Acc(Dispatch(s, TextMessage(who, text), now), who) == Acc(s, who) + text
  {
  }

  /**
    A run of same-sender fragments with no turn boundary in between yields one message
    for the run, whose text is the accumulator followed by the fragments in order.
  */
  lemma {:induction false} FragmentRunCoalesces(s: AppState, who: Sender, texts: seq<string>, now: real)
    requires |texts| > 0
    ensures Feed(s, who, texts, now).transcript
      == Settled(s.transcript, who) + [Message(who, Acc(s, who) + Concat(texts))]
    ensures Acc(Feed(s, who, texts, now), who) == Acc(s, who) + Concat(texts)
    decreases |texts|
  {
    var s1 := Dispatch(s, TextMessage(who, texts[0]), now);
    OneFragment(s, who, texts[0], now);
    if |texts| == 1 {
      assert texts[1..] == [];
      assert Feed(s, who, texts, now) == s1;
      assert Concat(texts) == texts[0] + Concat([]) == texts[0];
    } else {
      FragmentRunCoalesces(s1, who, texts[1..], now);
      assert Settled(s1.transcript, who) == Settled(s.transcript, who);
      assert Acc(s, who) + Concat(texts) == (Acc(s, who) + texts[0]) + Concat(texts[1..]);
    }
  }

  /** "Hel", "lo", turn complete: one agent message "Hello", accumulators cleared. */
  lemma HelloScenario(s: AppState, now: real)
    requires s.outputAcc == ""
    ensures
      var s1 := Dispatch(s, TextMessage(Dewa, "Hel"), now);
      var s2 := Dispatch(s1, TextMessage(Dewa, "lo"), now);
      var r := Dispatch(s2, ServerMessage(None, None, NoAudio, true, false), now);
      && r.transcript == Settled(s.transcript, Dewa) + [Message(Dewa, "Hello")]
      && r.inputAcc == "" && r.outputAcc == "" && r.status == Speaking
  {
    var s1 := Dispatch(s, TextMessage(Dewa, "Hel"), now);
    OneFragment(s, Dewa, "Hel", now);
    OneFragment(s1, Dewa, "lo", now);
    assert Settled(s1.transcript, Dewa) == Settled(s.transcript, Dewa);
    assert Acc(s1, Dewa) + "lo" == "Hello";
  }

  /**
    After a turn boundary, a fragment from the sender of the last message does not
    start a new message: it replaces the last message's text with the new fragment.
  */
  lemma TurnCompleteThenSameSender(s: AppState, who: Sender, text: string, now: real)
    requires |s.transcript| > 0 && s.transcript[|s.transcript| - 1].sender == who
    ensures
      var r := Dispatch(TurnComplete(s), TextMessage(who, text), now);
      && |r.transcript| == |s.transcript|
      && r.transcript[..|s.transcript| - 1] == s.transcript[..|s.transcript| - 1]
      && r.transcript[|s.transcript| - 1] == Message(who, text)
  {
    OneFragment(TurnComplete(s), who, text, now);
  }

  /** Right after a level is chosen, the agent's first fragment replaces the greeting. */
  lemma FirstAgentFragmentReplacesGreeting(s: AppState, level: Level, text: string, now: real)
    requires s.outputAcc == ""
    ensures Dispatch(LevelSelect(s, level), TextMessage(Dewa, text), now).transcript == [Message(Dewa, text)]
  {
    var g := LevelSelect(s, level);
    OneFragment(g, Dewa, text, now);
    assert Settled(g.transcript, Dewa) == [];
    assert Acc(g, Dewa) + text == text;
  }

  // ---------------------------------------------------------------------------
  // Lifecycle

  /** Stopping twice is the same as stopping once. */
  lemma StopIsIdempotent(s: AppState)
    ensures StopConversation(StopConversation(s)) == StopConversation(s)
  {
  }

  /** A decode failure leaves the transcript, the session and the playback untouched. */
  lemma DecodeFailureIsLocal(s: AppState, data: string, now: real)
    requires data != "" && s.outputContext.Some?
    ensures var r := ScheduleAudio(s, AudioPart(data, DecodeFailed), now);
      && r.status == Error && r.transcript == s.transcript && r.session == s.session
      && r.sources == s.sources && r.playback == s.playback
  {
  }
}
