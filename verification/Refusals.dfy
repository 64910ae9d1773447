/** What a refused operation leaves behind: nothing, except for one kind of agent edit. */
module Refusals {
  import opened Results
  import opened Domain
  import opened Text
  import opened Logs
  import opened StoreState
  import opened StoreRuns

  /** The step returns an error; a timer that does not fire counts as refused. */
  ghost predicate Refused(s: State, tick: Tick)
    requires Enabled(s, tick.step)
  {
    var now := tick.now;
    match tick.step
    case NewConversation(source, visitor, c, id, business) =>
      CreateConversation(s, source, visitor, c, id, business, now).1.Err?
    case ChangeStatus(a, status, order) => SetAgentStatus(s, a, status, order).1.Err?
    case NewAgent(a, name, group, max) => CreateAgent(s, a, name, group, max).1.Err?
    case EditAgent(a, name, group, max, status) => UpdateAgent(s, a, name, group, max, status).1.Err?
    case Disable(a, order) => DisableAgent(s, a, order).1.Err?
    case Delete(a, order) => DeleteAgent(s, a, order).1.Err?
    case Read(actor, c) => MarkRead(s, actor, c).1.Err?
    case VisitorSends(c, clientId, content, kind, urlSafe, matched, business, id, replyId) =>
      AddVisitorMessage(s, c, clientId, content, kind, urlSafe, matched, business, id, replyId, now).1.Err?
    case AISends(c, content, id) => AddAIMessage(s, c, content, id, now).1.Err?
    case AgentSends(a, c, clientId, content, kind, urlSafe, id) =>
      AddAgentMessage(s, a, c, clientId, content, kind, urlSafe, id, now).1.Err?
    case Revokes(actor, c, target) => RevokeMessage(s, actor, c, target, now).1.Err?
    case TimerFires(c, sentAt) => EscalateNoReply(s, c, sentAt).1.None?
    case Closes(actor, c, id) => CloseConversation(s, actor, c, id, now).1.Err?
    case Removes(actor, c) => DeleteConversation(s, actor, c).1.Err?
    case Transfers(actor, c, a, group, id) => TransferConversation(s, actor, c, a, group, id, now).1.Err?
    case Configures(_) => false
  }

  /** An edit that would set a disabled agent online, and brings another name, group or maximum along. */
  predicate EditsHalfWay(s: State, step: Step) {
    match step
    case EditAgent(a, name, group, max, status) =>
      && a in s.agents && |Trim(name)| <= NAME_LIMIT && |Trim(group)| <= NAME_LIMIT && 0 <= max <= LOAD_LIMIT
      && s.agents[a].disabled && status == Some(Online)
      && ((Trim(name) != "" && Trim(name) != s.agents[a].name)
          || (Trim(group) != "" && Trim(group) != s.agents[a].group)
          || (max > 0 && max != s.agents[a].max))
    case _ => false
  }

  lemma EditRefusedIff(s: State, a: string, name: string, group: string, max: int, status: Option<AgentStatus>)
    ensures var (t, r) := UpdateAgent(s, a, name, group, max, status);
            r.Err? ==> (t == s <==> !EditsHalfWay(s, EditAgent(a, name, group, max, status)))
  {
    hide Trim;
    var (t, r) := UpdateAgent(s, a, name, group, max, status);
    if a in s.agents && t != s {
      assert t.agents == s.agents[a := t.agents[a]];
      assert t.agents[a] == s.agents[a] ==> t.agents == s.agents;
    }
  }

  lemma OtherRefusalsChangeNothing(s: State, tick: Tick)
    requires Enabled(s, tick.step) && Refused(s, tick) && !tick.step.EditAgent?
    ensures Apply(s, tick) == s
  {
    hide Trim, FindByClientId, ValidUserMessage, AutoReply, Assign, Release, Released, PickUp, PickedUp, Position,
         TransferTarget;
  }

  /** A refused step leaves the store as it was exactly unless it is such an edit. */
  lemma RefusedChangesNothingIff(s: State, tick: Tick)
    requires Enabled(s, tick.step) && Refused(s, tick)
    ensures Apply(s, tick) == s <==> !EditsHalfWay(s, tick.step)
  {
    match tick.step
    case EditAgent(a, name, group, max, status) => EditRefusedIff(s, a, name, group, max, status);
    case _ =>
      hide Refused, Apply;
      OtherRefusalsChangeNothing(s, tick);
  }
}
