/**
  The capture-side resources owned by the live-session service: the microphone stream,
  the 16 kHz input audio context and the 4096-sample script processor, held in three
  module-level references. Each handler of the service is a function from the old
  state of those references (plus what the service reported to its caller and what it
  sent on the transport) to the new one.
*/
module CaptureLifecycle {
  import opened Types
  import Pcm

  const CaptureSampleRate: nat := 16000
  const FrameSize: nat := 4096
  const MicErrorMessage: string := "Microphone access was denied or failed."

  /** A microphone stream; its tracks are live until stopped. */
  datatype MediaStream = MediaStream(tracksLive: bool)
  datatype InputContext = InputContext(sampleRate: nat, closed: bool)
  datatype Processor = Processor(bufferSize: nat, inputChannels: nat, outputChannels: nat, connected: bool)

  /**
    What the service does towards its caller and towards the transport, and the releases
    of resources whose references it then drops.
  */
  datatype Notice =
    | ConnectRequested(systemInstruction: string)
    | OpenNotified
    | ErrorNotified(message: string)
    | CloseNotified
    | SessionCloseRequested
    | TracksStopped
    | InputContextClosed
    | ProcessorDisconnected

  predicate IsRelease(n: Notice)
  {
    n.TracksStopped? || n.InputContextClosed? || n.ProcessorDisconnected?
  }

  /** The order in which the close handler releases the three resources. */
  function ReleaseRank(n: Notice): nat
  {
    if n.TracksStopped? then 0 else if n.InputContextClosed? then 1 else 2
  }

  datatype CaptureState = CaptureState(
    stream: Option<MediaStream>,
    context: Option<InputContext>,
    processor: Option<Processor>,
    notices: seq<Notice>,
    sent: seq<Pcm.Blob>)

  /** The state before any session was started. */
  function Initial(): (s: CaptureState)
    ensures s.stream.None? && s.context.None? && s.processor.None?
    ensures Quiet(s) && Inv(s) && s.notices == [] && s.sent == []
  {
    CaptureState(None, None, None, [], [])
  }

  /** Microphone, 16 kHz context and a connected 4096-sample mono processor, all live. */
  ghost predicate Wired(s: CaptureState)
  {
    && s.stream == Some(MediaStream(true))
    && s.context == Some(InputContext(CaptureSampleRate, false))
    && s.processor == Some(Processor(FrameSize, 1, 1, true))
  }

  /** No frame can reach the transport: there is no processor, or it is disconnected. */
  predicate Quiet(s: CaptureState)
  {
    s.processor.None? || !s.processor.value.connected
  }

  /** No capture resource is live: tracks stopped, context closed, processor disconnected. */
  ghost predicate NothingLive(s: CaptureState)
  {
    && (s.stream.Some? ==> !s.stream.value.tracksLive)
    && (s.context.Some? ==> s.context.value.closed)
    && Quiet(s)
  }

  /** No capture resource is referenced, except possibly an already-closed context. */
  ghost predicate Released(s: CaptureState)
  {
    && s.stream.None?
    && s.processor.None?
    && (s.context.Some? ==> s.context.value.closed)
  }

  /** Invariant: a processor that delivers frames is always fully wired. */
  ghost predicate Inv(s: CaptureState)
  {
    !Quiet(s) ==> Wired(s)
  }

  /**
    `startEchoSession`: stop the previous microphone tracks, close a non-closed context,
    disconnect the processor (the references themselves are kept), then connect.
  */
  function StartEchoSession(s: CaptureState, systemInstruction: string): (r: CaptureState)
    ensures NothingLive(r)
    ensures r.stream.Some? == s.stream.Some? && r.context.Some? == s.context.Some?
    ensures r.processor.Some? == s.processor.Some?
    ensures s.context.Some? ==> r.context == Some(s.context.value.(closed := true))
    ensures s.processor.Some? ==> r.processor == Some(s.processor.value.(connected := false))
    ensures r.notices == s.notices + [ConnectRequested(systemInstruction)] && r.sent == s.sent
  {
    var stream := if s.stream.Some? then Some(MediaStream(false)) else s.stream;
    var context := if s.context.Some? && !s.context.value.closed
                   then Some(s.context.value.(closed := true)) else s.context;
    var processor := if s.processor.Some? then Some(s.processor.value.(connected := false)) else s.processor;
    s.(stream := stream, context := context, processor := processor,
       notices := s.notices + [ConnectRequested(systemInstruction)])
  }

  /**
    `onopen`: acquire the microphone; on success wire stream, context and processor and
    only then notify the caller; on failure report the error and ask the session to close.
  */
  function TransportOpened(s: CaptureState, micGranted: bool): (r: CaptureState)
    ensures micGranted ==> Wired(r) && r.notices == s.notices + [OpenNotified]
    ensures !micGranted ==> r.(notices := s.notices) == s
    ensures !micGranted ==> r.notices == s.notices + [ErrorNotified(MicErrorMessage), SessionCloseRequested]
    ensures OpenNotified in r.notices[|s.notices|..] <==> micGranted
    ensures r.sent == s.sent
  {
    if micGranted then
      s.(stream := Some(MediaStream(true)),
         context := Some(InputContext(CaptureSampleRate, false)),
         processor := Some(Processor(FrameSize, 1, 1, true)),
         notices := s.notices + [OpenNotified])
    else
      s.(notices := s.notices + [ErrorNotified(MicErrorMessage), SessionCloseRequested])
  }

  /** `onaudioprocess`: a connected processor turns one frame into a PCM blob and sends it. */
  function AudioProcess(s: CaptureState, samples: seq<real>): (r: CaptureState)
    ensures Quiet(s) ==> r == s
    ensures !Quiet(s) ==> r == s.(sent := s.sent + [Pcm.PcmBlob(samples)])
  {
    if s.processor.Some? && s.processor.value.connected then
      s.(sent := s.sent + [Pcm.PcmBlob(samples)])
    else
      s
  }

  /** The transport's `onerror`: forwarded unchanged to the caller. */
  function TransportError(s: CaptureState, message: string): (r: CaptureState)
    ensures r.notices == s.notices + [ErrorNotified(message)]
    ensures r.(notices := s.notices) == s
  {
    s.(notices := s.notices + [ErrorNotified(message)])
  }

  /**
    `onclose`: stop and drop the stream, close and drop a non-closed context, disconnect
    and drop the processor, then notify the caller. A context that is already closed
    stays referenced.
  */
  function TransportClosed(s: CaptureState): (r: CaptureState)
    ensures Released(r) && NothingLive(r)
    ensures s.context.Some? && s.context.value.closed ==> r.context == s.context
    ensures s.context.None? || !s.context.value.closed ==> r.context.None?
    ensures r.notices == s.notices + Releases(s) + [CloseNotified] && r.sent == s.sent
  {
    var context := if s.context.Some? && !s.context.value.closed then None else s.context;
    s.(stream := None, context := context, processor := None,
       notices := s.notices + Releases(s) + [CloseNotified])
  }

  /**
    What the close handler releases before it drops the references: the held stream's
    tracks, the context if it is still open and the held processor, in that order.
  */
  function Releases(s: CaptureState): (r: seq<Notice>)
    ensures TracksStopped in r <==> s.stream.Some?
    ensures InputContextClosed in r <==> s.context.Some? && !s.context.value.closed
    ensures ProcessorDisconnected in r <==> s.processor.Some?
    ensures forall i :: 0 <= i < |r| ==> IsRelease(r[i])
    ensures forall i, j :: 0 <= i < j < |r| ==> ReleaseRank(r[i]) < ReleaseRank(r[j])
  {
    (if s.stream.Some? then [TracksStopped] else [])
    + (if s.context.Some? && !s.context.value.closed then [InputContextClosed] else [])
    + (if s.processor.Some? then [ProcessorDisconnected] else [])
  }

  /**
    Every resource held when the transport closes is released before the caller hears
    of the close, and the close notice is the last thing the handler does.
  */
  lemma ReleasedBeforeCloseNotified(s: CaptureState)
    ensures var r := TransportClosed(s);
      var k := |r.notices| - 1;
      && r.notices[k] == CloseNotified
      && (s.stream.Some? ==> TracksStopped in r.notices[|s.notices|..k])
      && (s.context.Some? && !s.context.value.closed ==> InputContextClosed in r.notices[|s.notices|..k])
      && (s.processor.Some? ==> ProcessorDisconnected in r.notices[|s.notices|..k])
      && CloseNotified !in r.notices[|s.notices|..k]
  {
    var r := TransportClosed(s);
    assert r.notices[|s.notices|..|r.notices| - 1] == Releases(s);
  }

  /** The events the service reacts to. */
  datatype Event =
    | Start(systemInstruction: string)
    | Opened(micGranted: bool)
    | Frame(samples: seq<real>)
    | Failed(message: string)
    | Closed

  function Step(s: CaptureState, e: Event): CaptureState
  {
    match e
    case Start(instruction) => StartEchoSession(s, instruction)
    case Opened(granted) => TransportOpened(s, granted)
    case Frame(samples) => AudioProcess(s, samples)
    case Failed(message) => TransportError(s, message)
    case Closed => TransportClosed(s)
  }

  function Run(s: CaptureState, es: seq<Event>): CaptureState
    decreases |es|
  {
    if es == [] then s else Run(Step(s, es[0]), es[1..])
  }

  /** Every event keeps the invariant. */
  lemma StepPreservesInv(s: CaptureState, e: Event)
    requires Inv(s)
    ensures Inv(Step(s, e))
  {
  }

  lemma {:induction false} RunPreservesInv(s: CaptureState, es: seq<Event>)
    requires Inv(s)
    ensures Inv(Run(s, es))
    decreases |es|
  {
    if es != [] {
      StepPreservesInv(s, es[0]);
      RunPreservesInv(Step(s, es[0]), es[1..]);
    }
  }

  /** A frame is sent only while the microphone tracks are live and the context is open. */
  lemma SendOnlyWhileMicLive(s: CaptureState, samples: seq<real>)
    requires Inv(s)
    requires |AudioProcess(s, samples).sent| > |s.sent|
    ensures s.stream == Some(MediaStream(true))
    ensures s.context == Some(InputContext(CaptureSampleRate, false))
  {
  }

  /**
    Until the microphone is granted again, nothing is sent: starting, a denied
    microphone, errors and closes never reconnect the processor.
  */
  lemma {:induction false} QuietUntilGranted(s: CaptureState, es: seq<Event>)
    requires Quiet(s)
    requires forall i :: 0 <= i < |es| ==> es[i] != Opened(true)
    ensures Run(s, es).sent == s.sent
    ensures Quiet(Run(s, es))
    decreases |es|
  {
    if es != [] {
      var s1 := Step(s, es[0]);
      assert Quiet(s1) && s1.sent == s.sent;
      QuietUntilGranted(s1, es[1..]);
    }
  }

  /** A denied microphone after a start: the caller is told of the error, never of the open, and no frame is sent. */
  lemma MicDeniedScenario(s: CaptureState, instruction: string, frames: seq<seq<real>>)
    ensures var s1 := TransportOpened(StartEchoSession(s, instruction), false);
      && OpenNotified !in s1.notices[|s.notices|..]
      && ErrorNotified(MicErrorMessage) in s1.notices[|s.notices|..]
      && Run(s1, seq(|frames|, i requires 0 <= i < |frames| => Frame(frames[i]))).sent == s.sent
  {
    var s1 := TransportOpened(StartEchoSession(s, instruction), false);
    var es := seq(|frames|, i requires 0 <= i < |frames| => Frame(frames[i]));
    assert s1.notices[|s.notices|..] == [ConnectRequested(instruction), ErrorNotified(MicErrorMessage), SessionCloseRequested];
    QuietUntilGranted(s1, es);
  }

  /**
    A context that was already closed is neither dropped by the close handler nor closed
    again by the next start: the same closed context stays referenced across both.
  */
  lemma ClosedContextIsKept(s: CaptureState, instruction: string)
    requires s.context.Some? && s.context.value.closed
    ensures StartEchoSession(TransportClosed(s), instruction).context == s.context
  {
  }
}
