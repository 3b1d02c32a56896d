/**
  The app component as an object: its React state and refs become fields that the
  handlers update in place. The closed sessions, the stopped sources and each source's
  start time are ghost records of effects. `nextSourceId` stands for allocating a fresh
  source object. Each handler is specified by the matching function of `Conversation`,
  whose properties are proved there.
*/
module AppComponent {
  import opened Types
  import opened Conversation

  class App {
    var level: Option<Level>
    var status: AgentStatus
    var transcript: seq<Message>
    var error: Option<string>
    var session: Option<nat>
    ghost var closedSessions: set<nat>
    var outputAudioContext: Option<OutputContext>
    var nextStartTime: real
    var audioSources: set<nat>
    ghost var stopped: set<nat>
    ghost var playback: map<nat, Playback>
    var nextSourceId: nat
    var currentInputTranscription: string
    var currentOutputTranscription: string

    /** The abstract value of the component. */
    ghost function State(): AppState
      reads this
    {
      AppState(level, status, transcript, error, session, closedSessions, outputAudioContext,
               nextStartTime, audioSources, stopped, playback, nextSourceId,
               currentInputTranscription, currentOutputTranscription)
    }

    constructor ()
      ensures State() == Conversation.Initial()
    {
      level, status, transcript, error := None, SelectLevel, [], None;
      session, closedSessions, outputAudioContext := None, {}, None;
      nextStartTime, audioSources, stopped, playback, nextSourceId := 0.0, {}, {}, map[], 0;
      currentInputTranscription, currentOutputTranscription := "", "";
    }

    method HandleLevelSelect(selected: Level)
      modifies this
      ensures State() == LevelSelect(old(State()), selected)
    {
      level := Some(selected);
      status := Idle;
      transcript := [Message(Dewa, Greeting)];
    }

    /** `handleMessage`, each message taken as one atomic step at clock time `now`. */
    method HandleMessage(message: ServerMessage, now: real)
      modifies this
      ensures State() == Dispatch(old(State()), message, now)
    {
      ghost var s := State();
      if message.inputTranscription.Some? {
        AppendInputTranscription(message.inputTranscription.value);
      }
      ghost var s1 := State();
      assert s1 == if message.inputTranscription.Some? then InputFragment(s, message.inputTranscription.value) else s;
      if message.outputTranscription.Some? {
        AppendOutputTranscription(message.outputTranscription.value);
      }
      ghost var s2 := State();
      if message.audio.PartsMissing? {
        // reading `parts[0]` throws: the rest of the handler does not run
        return;
      }
      if message.audio.Inline? {
        PlayAudio(message.audio.part, now);
      }
      ghost var s3 := State();
      assert s3 == if message.audio.Inline? then ScheduleAudio(s2, message.audio.part, now) else s2;
      if message.turnComplete {
        currentInputTranscription := "";
        currentOutputTranscription := "";
      }
      ghost var s4 := State();
      assert s4 == if message.turnComplete then TurnComplete(s3) else s3;
      if message.interrupted {
        StopAllSources();
        status := Listening;
      }
    }

    method AppendInputTranscription(text: string)
      modifies this
      ensures State() == InputFragment(old(State()), text)
    {
      currentInputTranscription := currentInputTranscription + text;
      transcript := Coalesce(transcript, User, currentInputTranscription);
    }

    method AppendOutputTranscription(text: string)
      modifies this
      ensures State() == OutputFragment(old(State()), text)
    {
      currentOutputTranscription := currentOutputTranscription + text;
      status := Speaking;
      transcript := Coalesce(transcript, Dewa, currentOutputTranscription);
    }

    /** The audio branch of `handleMessage`, with the decoder's outcome given in `part`. */
    method PlayAudio(part: AudioPart, now: real)
      modifies this
      ensures State() == ScheduleAudio(old(State()), part, now)
    {
      if part.data != "" && outputAudioContext.Some? {
        status := Speaking;
        nextStartTime := Later(nextStartTime, now);
        match part.decoded
        case Decoded(duration) =>
          var source := nextSourceId;
          nextSourceId := nextSourceId + 1;
          playback := playback[source := Playback(nextStartTime, duration)];
          nextStartTime := nextStartTime + duration;
          audioSources := audioSources + {source};
        case DecodeFailed =>
          error := Some(PlaybackErrorText);
          status := Error;
      }
    }

    /** Stop every active source one by one, then clear the set and reset the cursor. */
    method StopAllSources()
      modifies this
      ensures State() == Flush(old(State()))
    {
      var remaining := audioSources;
      while remaining != {}
        invariant remaining <= audioSources
        invariant stopped == old(stopped) + (audioSources - remaining)
        invariant State() == old(State()).(stopped := stopped)
        decreases remaining
      {
        var source :| source in remaining;
        stopped := stopped + {source};
        remaining := remaining - {source};
      }
      audioSources := {};
      nextStartTime := 0.0;
    }

    /** The `ended` listener registered on each source. */
    method OnSourceEnded(source: nat)
      modifies this
      ensures State() == SourceEnded(old(State()), source)
    {
      audioSources := audioSources - {source};
      if audioSources == {} {
        status := Listening;
      }
    }

    method HandleError()
      modifies this
      ensures State() == ConnectionError(old(State()))
    {
      error := Some(ConnectionErrorText);
      status := Error;
    }

    /** `startConversation` until it waits for the session to be created. */
    method StartConversation()
      modifies this
      ensures State() == BeginConversation(old(State()))
    {
      if level.None? {
        return;
      }
      error := None;
      status := Connecting;
      if outputAudioContext.None? || outputAudioContext.value.closed {
        outputAudioContext := Some(OutputContext(OutputSampleRate, false));
      }
    }

    /** The awaited session: `Some(id)` when it was created, `None` when creating it threw. */
    method OnSessionResolved(outcome: Option<nat>)
      modifies this
      ensures State() == SessionResolved(old(State()), outcome)
    {
      if outcome.Some? {
        session := outcome;
      } else {
        error := Some(StartErrorText);
        status := Error;
      }
    }

    method OnOpen()
      modifies this
      ensures State() == SessionOpened(old(State()))
    {
      status := Listening;
    }

    method StopConversation()
      modifies this
      ensures State() == Conversation.StopConversation(old(State()))
    {
      if session.Some? {
        closedSessions := closedSessions + {session.value};
      }
      session := None;
      StopAllSources();
      status := Idle;
    }

    /** The unmount clean-up effect. */
    method Unmount()
      modifies this
      ensures State() == Conversation.Unmount(old(State()))
    {
      if session.Some? {
        closedSessions := closedSessions + {session.value};
      }
      if outputAudioContext.Some? && !outputAudioContext.value.closed {
        outputAudioContext := Some(outputAudioContext.value.(closed := true));
      }
    }
  }
}
