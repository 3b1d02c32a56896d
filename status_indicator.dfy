/**
  The status line under the transcript. Its `switch` compares the status's run-time
  string value, so it is modelled over strings; any value other than the six enum
  values takes the `default` branch.
*/
module StatusIndicator {
  import opened Types

  const DefaultErrorText: string := "An error occurred"
  const Pulse: string := " animate-pulse"

  /** The text and the dot colour chosen by the switch. */
  datatype Indication = Indication(text: string, dotClass: string)

  /** What is rendered: red text alone for an error, otherwise a dot and grey text. */
  datatype Rendered =
    | ErrorLine(text: string, textClass: string)
    | DotLine(dotClass: string, text: string, textClass: string)

  predicate Pulses(dotClass: string)
  {
    |dotClass| >= |Pulse| && dotClass[|dotClass| - |Pulse|..] == Pulse
  }

  /** `error || "An error occurred"`: the error text unless it is absent or empty. */
  function ErrorText(error: Option<string>): (r: string)
    ensures r != ""
    ensures error.Some? && error.value != "" ==> r == error.value
    ensures error.None? || error.value == "" ==> r == DefaultErrorText
  {
    if error.Some? && error.value != "" then error.value else DefaultErrorText
  }

  /** Which `case` of the switch a run-time status value matches, if any. */
  function MatchCase(status: string): (r: Option<AgentStatus>)
    ensures r.Some? ==> StatusValue(r.value) == status
    ensures r.None? ==> forall s: AgentStatus :: StatusValue(s) != status
  {
    if status == StatusValue(Idle) then Some(Idle)
    else if status == StatusValue(Connecting) then Some(Connecting)
    else if status == StatusValue(Listening) then Some(Listening)
    else if status == StatusValue(Speaking) then Some(Speaking)
    else if status == StatusValue(Error) then Some(Error)
    else if status == StatusValue(SelectLevel) then Some(SelectLevel)
    else None
  }

  /** Every enum member reaches its own case. */
  lemma MatchCaseRoundTrip(s: AgentStatus)
    ensures MatchCase(StatusValue(s)) == Some(s)
  {
  }

  /** The switch: text and dot class for a status value and the current error. */
  function Indicate(status: string, error: Option<string>): (r: Indication)
    ensures r.text != ""
    ensures Pulses(r.dotClass) <==>
      status == StatusValue(Connecting) || status == StatusValue(Listening) || status == StatusValue(Speaking)
    ensures status == StatusValue(Error) <==> r.dotClass == "bg-red-500"
    ensures status == StatusValue(Error) ==> r.text == ErrorText(error)
    ensures (forall s: AgentStatus :: status != StatusValue(s)) ==> r == Indication("Idle", "bg-gray-500")
  {
    match MatchCase(status)
    case Some(Idle) => Indication("Ready to start", "bg-gray-500")
    case Some(Connecting) => Indication("Connecting...", "bg-yellow-500" + Pulse)
    case Some(Listening) => Indication("Listening...", "bg-green-500" + Pulse)
    case Some(Speaking) => Indication("DEWA is speaking...", "bg-cyan-500" + Pulse)
    case Some(Error) => Indication(ErrorText(error), "bg-red-500")
    case Some(SelectLevel) => Indication("Please select a level to begin.", "bg-gray-500")
    case None => Indication("Idle", "bg-gray-500")
  }

  /** The render choice: only ERROR shows red text without a dot. */
  function Render(status: string, error: Option<string>): (r: Rendered)
    ensures r.ErrorLine? <==> status == StatusValue(Error)
    ensures r.text == Indicate(status, error).text
    ensures r.ErrorLine? ==> r.textClass == "text-red-400 text-sm"
    ensures r.DotLine? ==> r.dotClass == Indicate(status, error).dotClass && r.textClass == "text-gray-400 text-sm"
  {
    var ind := Indicate(status, error);
    if status == StatusValue(Error) then ErrorLine(ind.text, "text-red-400 text-sm")
    else DotLine(ind.dotClass, ind.text, "text-gray-400 text-sm")
  }

  /** The text shown for each status of the enum. */
  lemma StatusTexts(error: Option<string>)
    ensures Indicate(StatusValue(Idle), error) == Indication("Ready to start", "bg-gray-500")
    ensures Indicate(StatusValue(Connecting), error).text == "Connecting..."
    ensures Indicate(StatusValue(Listening), error).text == "Listening..."
    ensures Indicate(StatusValue(Speaking), error).text == "DEWA is speaking..."
    ensures Indicate(StatusValue(SelectLevel), error).text == "Please select a level to begin."
    ensures Indicate(StatusValue(Error), error).text == ErrorText(error)
  {
  }
}
