/**
  The conversation view hands the same status (and error) to the status line and to the
  microphone button. These lemmas relate what the two show, and what they show after
  the app's handlers run.
*/
module ConversationView {
  import opened Types
  import MicButton
  import StatusIndicator
  import C = Conversation

  /** The status line pulses exactly when the button offers to stop. */
  lemma PulseMeansConversing(status: AgentStatus, error: Option<string>)
    ensures StatusIndicator.Pulses(StatusIndicator.Indicate(StatusValue(status), error).dotClass)
      <==> MicButton.IsConversing(status)
  {
    StatusIndicator.MatchCaseRoundTrip(status);
  }

  /** After a stop: "Ready to start", and the enabled button starts a conversation. */
  lemma AfterStop(s: C.AppState, error: Option<string>)
    ensures var r := C.StopConversation(s);
      && StatusIndicator.Indicate(StatusValue(r.status), error).text == "Ready to start"
      && MicButton.Press(r.status) == Some(MicButton.StartCommand)
  {
    StatusIndicator.StatusTexts(error);
  }

  /** While connecting, the button shows stop but cannot be pressed. */
  lemma WhileConnecting(s: C.AppState)
    requires s.level.Some?
    ensures var r := C.BeginConversation(s);
      && MicButton.ButtonIcon(r.status) == MicButton.StopIcon
      && MicButton.Press(r.status).None?
      && StatusIndicator.Indicate(StatusValue(r.status), r.error).text == "Connecting..."
  {
    StatusIndicator.StatusTexts(C.BeginConversation(s).error);
  }

  /**
    After a playback decode failure the session is still held, yet the status line shows
    the error in red and the enabled button offers to start a new conversation.
  */
  lemma DecodeFailureOffersStart(s: C.AppState, data: string, now: real)
    requires data != "" && s.outputContext.Some? && s.session.Some?
    ensures var r := C.ScheduleAudio(s, C.AudioPart(data, C.DecodeFailed), now);
      && r.session == s.session
      && StatusIndicator.Render(StatusValue(r.status), r.error)
           == StatusIndicator.ErrorLine(C.PlaybackErrorText, "text-red-400 text-sm")
      && MicButton.Press(r.status) == Some(MicButton.StartCommand)
  {
  }

  /**
    An `ended` event for a source that was stopped by a stop still runs the listener:
    the set is empty, so the status becomes LISTENING with no session, and the button
    offers to stop.
  */
  lemma EndedAfterStop(s: C.AppState, source: nat)
    ensures var r := C.SourceEnded(C.StopConversation(s), source);
      && r.session.None? && r.status == Listening
      && MicButton.Press(r.status) == Some(MicButton.StopCommand)
  {
  }
}
