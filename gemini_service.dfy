/**
  The live-session service's module-level state as an object: three capture references
  that its handlers overwrite in place, plus a ghost record of what it reported and sent. Every
  handler is specified by the matching function of `CaptureLifecycle`.
*/
module GeminiService {
  import opened Types
  import Pcm
  import L = CaptureLifecycle

  class EchoService {
    var microphoneStream: Option<L.MediaStream>
    var inputAudioContext: Option<L.InputContext>
    var scriptProcessor: Option<L.Processor>
    ghost var notices: seq<L.Notice>
    ghost var sent: seq<Pcm.Blob>

    /** The abstract value of the object. */
    ghost function State(): L.CaptureState
      reads this
    {
      L.CaptureState(microphoneStream, inputAudioContext, scriptProcessor, notices, sent)
    }

    constructor ()
      ensures State() == L.Initial()
    {
      microphoneStream, inputAudioContext, scriptProcessor := None, None, None;
      notices, sent := [], [];
    }

    /** Release whatever a previous session left behind, then ask the transport to connect. */
    method StartEchoSession(systemInstruction: string)
      modifies this
      ensures State() == L.StartEchoSession(old(State()), systemInstruction)
    {
      if microphoneStream.Some? {
        microphoneStream := Some(L.MediaStream(false));
      }
      if inputAudioContext.Some? && !inputAudioContext.value.closed {
        inputAudioContext := Some(inputAudioContext.value.(closed := true));
      }
      if scriptProcessor.Some? {
        scriptProcessor := Some(scriptProcessor.value.(connected := false));
      }
      notices := notices + [L.ConnectRequested(systemInstruction)];
    }

    /** The transport opened; `micGranted` is the outcome of asking for the microphone. */
    method OnOpen(micGranted: bool)
      modifies this
      ensures State() == L.TransportOpened(old(State()), micGranted)
    {
      if micGranted {
        microphoneStream := Some(L.MediaStream(true));
        inputAudioContext := Some(L.InputContext(L.CaptureSampleRate, false));
        scriptProcessor := Some(L.Processor(L.FrameSize, 1, 1, false));
        scriptProcessor := Some(scriptProcessor.value.(connected := true));
        notices := notices + [L.OpenNotified];
      } else {
        notices := notices + [L.ErrorNotified(L.MicErrorMessage), L.SessionCloseRequested];
      }
    }

    /** One captured frame arrives at the processor. */
    method OnAudioProcess(samples: seq<real>)
      modifies this
      ensures State() == L.AudioProcess(old(State()), samples)
    {
      if scriptProcessor.Some? && scriptProcessor.value.connected {
        var blob := Pcm.CreatePcmBlob(samples);
        sent := sent + [blob];
      }
    }

    method OnError(message: string)
      modifies this
      ensures State() == L.TransportError(old(State()), message)
    {
      notices := notices + [L.ErrorNotified(message)];
    }

    /**
      The transport closed: drop the (stopped) stream, the context if it was still open
      and the (disconnected) processor, then tell the caller.
    */
    method OnClose()
      modifies this
      ensures State() == L.TransportClosed(old(State()))
    {
      ghost var s := State();
      ghost var stopped := if s.stream.Some? then [L.TracksStopped] else [];
      ghost var closed := if s.context.Some? && !s.context.value.closed then [L.InputContextClosed] else [];
      ghost var disconnected := if s.processor.Some? then [L.ProcessorDisconnected] else [];
      if microphoneStream.Some? {
        notices := notices + [L.TracksStopped];
        microphoneStream := None;
      }
      if inputAudioContext.Some? && !inputAudioContext.value.closed {
        notices := notices + [L.InputContextClosed];
        inputAudioContext := None;
      }
      assert notices == s.notices + stopped + closed;
      if scriptProcessor.Some? {
        notices := notices + [L.ProcessorDisconnected];
        scriptProcessor := None;
      }
      assert notices == s.notices + L.Releases(s);
      notices := notices + [L.CloseNotified];
    }
  }
}
