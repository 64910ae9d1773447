/** The records of the customer-service store. */
module Domain {
  import opened Results

  datatype AccountKind = AdminAccount | AgentAccount | VisitorAccount

  datatype Actor = Actor(kind: AccountKind, id: string)

  datatype AgentStatus = Online | Busy | Offline

  datatype ConversationStatus = Waiting | Assigned | AIServing | HumanRequested | Closed

  datatype SenderType = FromVisitor | FromAgent | FromAI | FromSystem

  datatype MessageType =
    | PlainText | Emoji | Image | Audio | ContactPhone | ContactWechat | SystemNotice | AIText | Handoff | Retracted

  datatype AIMode = HumanFirst | AlwaysAI | ManualOnly

  /** cur is the cached load: the number of conversations the agent is believed to serve. */
  datatype Agent = Agent(name: string, group: string, status: AgentStatus, max: int, cur: int, disabled: bool)

  /** The owner id of a conversation that no agent owns. */
  const NOBODY := ""

  datatype Conversation = Conversation(
    visitor: string, status: ConversationStatus, owner: string,
    lastAt: int, unreadForAgent: int, unreadForVisitor: int, created: int)

  datatype Revocation = Revocation(at: int, actor: Actor)

  datatype Message = Message(
    id: string, clientId: string, sender: SenderType, senderId: string,
    kind: MessageType, content: string, at: int, revoked: Option<Revocation>)

  /** The settings that steer dispatch; noReply is the no-reply timeout in seconds. */
  datatype Settings = Settings(
    aiEnabled: bool, aiMode: AIMode, businessHours: bool, entryReply: string, noReply: int)
}
