/** Shared values of the tutor: proficiency levels, agent status, transcript messages. */
module Types {

  datatype Option<+T> = None | Some(value: T)

  datatype Level = Beginner | Intermediate | Advanced

  /** The coarse status of the agent shown by the UI; exactly one value is current. */
  datatype AgentStatus = Idle | SelectLevel | Connecting | Listening | Speaking | Error

  /** The string an `AgentStatus` enum member holds at run time. */
  function StatusValue(s: AgentStatus): string
  {
    match s
    case Idle => "IDLE"
    case SelectLevel => "SELECT_LEVEL"
    case Connecting => "CONNECTING"
    case Listening => "LISTENING"
    case Speaking => "SPEAKING"
    case Error => "ERROR"
  }

  datatype Sender = User | Dewa

  /** One coalesced transcript entry. */
  datatype Message = Message(sender: Sender, text: string)
}
