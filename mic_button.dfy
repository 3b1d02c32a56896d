/** The microphone button: every attribute is a function of the agent status. */
module MicButton {
  import opened Types

  /** Which of the two callbacks a click invokes. */
  datatype Command = StartCommand | StopCommand

  datatype Icon = MicIcon | StopIcon

  const BaseClasses: string := "w-20 h-20 rounded-full flex items-center justify-center transition-all duration-300 focus:outline-none disabled:opacity-50 disabled:cursor-not-allowed"

  /** A conversation is under way (or being set up). */
  function IsConversing(status: AgentStatus): (r: bool)
    ensures r <==> status != Idle && status != SelectLevel && status != Error
  {
    status == Listening || status == Speaking || status == Connecting
  }

  /** The button cannot be pressed while connecting or while the agent speaks. */
  function IsDisabled(status: AgentStatus): (r: bool)
    ensures r ==> IsConversing(status)
    ensures r <==> IsConversing(status) && status != Listening
  {
    status == Connecting || status == Speaking
  }

  /** `handleClick`: stop when conversing, start otherwise. */
  function HandleClick(status: AgentStatus): (r: Command)
    ensures r == StopCommand <==> IsConversing(status)
    ensures r == StartCommand <==> !IsConversing(status)
  {
    if IsConversing(status) then StopCommand else StartCommand
  }

  /** A press of the rendered button: a disabled button delivers no click. */
  function Press(status: AgentStatus): (r: Option<Command>)
    ensures r.None? <==> IsDisabled(status)
    ensures r.Some? ==> r.value == HandleClick(status)
    ensures r == Some(StopCommand) <==> status == Listening
  {
    if IsDisabled(status) then None else Some(HandleClick(status))
  }

  function RingClass(status: AgentStatus): (r: string)
    ensures status == Listening <==> r == "ring-green-500 animate-pulse"
    ensures status == Speaking <==> r == "ring-cyan-500 animate-pulse"
    ensures status != Listening && status != Speaking <==> r == "ring-gray-600"
  {
    if status == Listening then "ring-green-500 animate-pulse"
    else if status == Speaking then "ring-cyan-500 animate-pulse"
    else "ring-gray-600"
  }

  function ActiveClasses(status: AgentStatus): (r: string)
    ensures r == "bg-red-600 hover:bg-red-700" <==> IsConversing(status)
    ensures r == "bg-cyan-600 hover:bg-cyan-700" <==> !IsConversing(status)
  {
    if IsConversing(status) then "bg-red-600 hover:bg-red-700" else "bg-cyan-600 hover:bg-cyan-700"
  }

  /** The button's `className`: base, colour and ring classes. */
  function ClassName(status: AgentStatus): (r: string)
    ensures |r| == |BaseClasses| + 1 + |ActiveClasses(status)| + 1 + |RingWidth| + |RingClass(status)|
    ensures r[..|BaseClasses|] == BaseClasses
    ensures r[|BaseClasses|] == ' ' && r[|BaseClasses| + 1 + |ActiveClasses(status)|] == ' '
    ensures r[|BaseClasses| + 1 .. |BaseClasses| + 1 + |ActiveClasses(status)|] == ActiveClasses(status)
    ensures r[|r| - |RingClass(status)| - |RingWidth|..] == RingWidth + RingClass(status)
  {
    Classes(BaseClasses, ActiveClasses(status), RingClass(status))
  }

  const RingWidth: string := "ring-4 "

  /** The template literal `${base} ${active} ring-4 ${ring}`. */
  function Classes(base: string, active: string, ring: string): (r: string)
    ensures |r| == |base| + 1 + |active| + 1 + |RingWidth| + |ring|
    ensures r[..|base|] == base
    ensures r[|base|] == ' ' && r[|base| + 1 + |active|] == ' '
    ensures r[|base| + 1 .. |base| + 1 + |active|] == active
    ensures r[|r| - |ring| - |RingWidth|..] == RingWidth + ring
  {
    var head, tail := base + " ", " " + RingWidth + ring;
    var r := head + active + tail;
    assert r[..|head|] == head && r[|head|..|head| + |active|] == active && r[|head| + |active|..] == tail;
    assert head[..|base|] == base && head[|base|] == ' ';
    assert tail[0] == ' ' && tail[1..] == RingWidth + ring;
    r
  }

  function AriaLabel(status: AgentStatus): (r: string)
    ensures r == "Stop conversation" <==> HandleClick(status) == StopCommand
    ensures r == "Start conversation" <==> HandleClick(status) == StartCommand
  {
    if IsConversing(status) then "Stop conversation" else "Start conversation"
  }

  function ButtonIcon(status: AgentStatus): (r: Icon)
    ensures r == StopIcon <==> IsConversing(status)
  {
    if IsConversing(status) then StopIcon else MicIcon
  }

  /** Label, icon and colour always announce the command a click performs. */
  lemma PresentationMatchesCommand(status: AgentStatus)
    ensures HandleClick(status) == StopCommand <==>
      (AriaLabel(status) == "Stop conversation" && ButtonIcon(status) == StopIcon
       && ActiveClasses(status) == "bg-red-600 hover:bg-red-700")
  {
  }
}
