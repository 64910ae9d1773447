/** Runs of the store: any sequence of operations, with the environment choosing arguments, clock
    readings, fresh ids and map orders. Timers and AI replies are steps that may fire at any time. */
module StoreRuns {
  import opened Results
  import opened Domain
  import opened Text
  import opened StoreState

  datatype Step =
    | NewConversation(source: string, visitor: string, c: string, msgId: string, businessTime: bool)
    | ChangeStatus(a: string, status: AgentStatus, order: seq<string>)
    | NewAgent(a: string, name: string, group: string, max: int)
    | EditAgent(a: string, name: string, group: string, max: int, newStatus: Option<AgentStatus>)
    | Disable(a: string, order: seq<string>)
    | Delete(a: string, order: seq<string>)
    | Read(actor: Actor, c: string)
    | VisitorSends(c: string, clientId: string, content: string, kind: MessageType, urlSafe: bool,
                   matched: Matched, businessTime: bool, msgId: string, replyId: string)
    | AISends(c: string, content: string, msgId: string)
    | AgentSends(a: string, c: string, clientId: string, content: string, kind: MessageType, urlSafe: bool,
                 msgId: string)
    | Revokes(actor: Actor, c: string, target: string)
    | TimerFires(c: string, sentAt: int)
    | Closes(actor: Actor, c: string, msgId: string)
    | Removes(actor: Actor, c: string)
    | Transfers(actor: Actor, c: string, a: string, group: string, msgId: string)
    | Configures(next: Settings)

  /** A step and the clock reading it runs at. */
  datatype Tick = Tick(now: int, step: Step)

  ghost predicate FreshMessage(s: State, c: string, id: string) {
    id != "" && Trim(id) == id && forall m :: m in Log(s, c) ==> m.id != id
  }

  /** Random ids are fresh, an agent's session carries an id, and the visiting orders are those that a
      map or a sort can produce. */
  ghost predicate Enabled(s: State, step: Step) {
    match step
    case NewConversation(_, _, c, msgId, _) => c != "" && c !in s.convs && FreshMessage(s, c, msgId)
    case ChangeStatus(_, status, order) => VisitsAll(order, s) && (status == Online ==> OldestFirst(order, s))
    case NewAgent(a, _, _, _) => a != NOBODY && a !in s.agents
    case Disable(_, order) => VisitsAll(order, s)
    case Delete(_, order) => VisitsAll(order, s)
    case VisitorSends(c, _, _, _, _, _, _, id, replyId) =>
      FreshMessage(s, c, id) && FreshMessage(s, c, replyId) && id != replyId
    case AISends(c, _, id) => FreshMessage(s, c, id)
    case AgentSends(a, c, _, _, _, _, id) => a != NOBODY && FreshMessage(s, c, id)
    case Closes(_, c, id) => FreshMessage(s, c, id)
    case Transfers(_, c, _, _, id) => FreshMessage(s, c, id)
    case _ => true
  }

  ghost function Apply(s: State, tick: Tick): State
    requires Enabled(s, tick.step)
  {
    var now := tick.now;
    match tick.step
    case NewConversation(source, visitor, c, id, business) =>
      CreateConversation(s, source, visitor, c, id, business, now).0
    case ChangeStatus(a, status, order) => SetAgentStatus(s, a, status, order).0
    case NewAgent(a, name, group, max) => CreateAgent(s, a, name, group, max).0
    case EditAgent(a, name, group, max, status) => UpdateAgent(s, a, name, group, max, status).0
    case Disable(a, order) => DisableAgent(s, a, order).0
    case Delete(a, order) => DeleteAgent(s, a, order).0
    case Read(actor, c) => MarkRead(s, actor, c).0
    case VisitorSends(c, clientId, content, kind, urlSafe, matched, business, id, replyId) =>
      AddVisitorMessage(s, c, clientId, content, kind, urlSafe, matched, business, id, replyId, now).0
    case AISends(c, content, id) => AddAIMessage(s, c, content, id, now).0
    case AgentSends(a, c, clientId, content, kind, urlSafe, id) =>
      AddAgentMessage(s, a, c, clientId, content, kind, urlSafe, id, now).0
    case Revokes(actor, c, target) => RevokeMessage(s, actor, c, target, now).0
    case TimerFires(c, sentAt) => EscalateNoReply(s, c, sentAt).0
    case Closes(actor, c, id) => CloseConversation(s, actor, c, id, now).0
    case Removes(actor, c) => DeleteConversation(s, actor, c).0
    case Transfers(actor, c, a, group, id) => TransferConversation(s, actor, c, a, group, id, now).0
    case Configures(next) => s.(settings := next)
  }

  ghost predicate Runs(s: State, ticks: seq<Tick>)
    decreases |ticks|, 0
  {
    ticks == [] || (Runs(s, ticks[..|ticks| - 1])
                    && Enabled(After(s, ticks[..|ticks| - 1]), ticks[|ticks| - 1].step))
  }

  ghost function After(s: State, ticks: seq<Tick>): State
    requires Runs(s, ticks)
    decreases |ticks|, 1
  {
    if ticks == [] then s else Apply(After(s, ticks[..|ticks| - 1]), ticks[|ticks| - 1])
  }

  lemma RunsSnoc(s: State, ticks: seq<Tick>, tick: Tick)
    requires Runs(s, ticks) && Enabled(After(s, ticks), tick.step)
    ensures Runs(s, ticks + [tick]) && After(s, ticks + [tick]) == Apply(After(s, ticks), tick)
  {
  }
}
