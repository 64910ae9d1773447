/** The conversation store as a value, and what each of its operations does to it. Every operation runs
    under one lock, so each is one step. Clock readings, fresh ids, the order in which a map is visited
    and the verdicts of text matching are arguments. */
module StoreState {
  import opened Results
  import opened Domain
  import opened Text
  import opened Logs
  import opened Selection

  datatype State = State(
    agents: map<string, Agent>,
    convs: map<string, Conversation>,
    logs: map<string, seq<Message>>,
    settings: Settings)

  function Log(s: State, c: string): seq<Message> { if c in s.logs then s.logs[c] else [] }

  function PutAgent(s: State, a: string, agent: Agent): State { s.(agents := s.agents[a := agent]) }

  function PutConv(s: State, c: string, conv: Conversation): State { s.(convs := s.convs[c := conv]) }

  function Append(s: State, c: string, m: Message): State { s.(logs := s.logs[c := Log(s, c) + [m]]) }

  function NewMessage(id: string, clientId: string, sender: SenderType, senderId: string,
                      kind: MessageType, content: string, now: int): Message {
    Message(id, clientId, sender, senderId, kind, Trim(content), now, None)
  }

  const ZERO_TIME := 0

  const AI_ID := "ai"
  const SYSTEM_ID := "system"
  const CLOSED_TEXT := "会话已结束"
  const ALREADY_THERE_TEXT := "会话已在目标客服名下。"
  const NOTIFIED_TEXT := "已为您通知人工客服，请稍候。"
  const UNAVAILABLE_TEXT := "已为您通知人工客服。当前人工暂时不可用，我会先继续帮您处理常见问题。"

  const SEED_AGENT_ID := "agent_lixue"
  const SEED_AGENT := Agent("客服-李雪", "售前组", Offline, 10, 0, false)

  function Initial(entryReply: string): State {
    State(map[SEED_AGENT_ID := SEED_AGENT], map[], map[], Settings(true, HumanFirst, true, entryReply, 60))
  }

  // ----- dispatch -----

  predicate IsOpen(conv: Conversation) { conv.status != Closed }

  predicate Queued(conv: Conversation) { conv.status == Waiting || conv.status == HumanRequested }

  predicate FallsBackToAI(settings: Settings) { settings.aiEnabled && settings.aiMode != ManualOnly }

  /** Agent a takes conversation c. */
  function Take(s: State, c: string, a: string): State
    requires c in s.convs && a in s.agents
  {
    PutAgent(PutConv(s, c, s.convs[c].(owner := a, status := Assigned)), a, s.agents[a].(cur := s.agents[a].cur + 1))
  }

  /** Give c to the least-loaded agent with room; in always_ai mode the AI serves it instead. */
  ghost function Assign(s: State, c: string): (t: State)
    requires c in s.convs
    ensures t.convs.Keys == s.convs.Keys && t.agents.Keys == s.agents.Keys
    ensures t.logs == s.logs && t.settings == s.settings
  {
    if s.settings.aiMode == AlwaysAI then PutConv(s, c, s.convs[c].(status := AIServing))
    else
      match LeastLoaded(s.agents, "")
      case Some(a) => Take(s, c, a)
      case None => s
  }

  /** One turn of the loop that takes a's conversations away; closed ones lose their owner only on deletion. */
  ghost function ReleaseOne(s: State, a: string, c: string, deleting: bool): (t: State)
    requires c in s.convs
    ensures t.convs.Keys == s.convs.Keys && t.logs == s.logs && t.settings == s.settings
    ensures t.agents.Keys == s.agents.Keys
  {
    var conv := s.convs[c];
    if conv.owner != a || (!IsOpen(conv) && !deleting) then s
    else if !IsOpen(conv) then PutConv(s, c, conv.(owner := NOBODY))
    else
      var next := Assign(PutConv(s, c, conv.(owner := NOBODY, status := Waiting)), c);
      if next.convs[c].owner == NOBODY && FallsBackToAI(s.settings)
      then PutConv(next, c, next.convs[c].(status := AIServing)) else next
  }

  /** The whole loop, visiting the conversations in the given order. */
  ghost function Release(s: State, a: string, order: seq<string>, deleting: bool): (t: State)
    requires forall c :: c in order ==> c in s.convs
    ensures t.convs.Keys == s.convs.Keys && t.logs == s.logs && t.settings == s.settings
    ensures t.agents.Keys == s.agents.Keys
  {
    if order == [] then s
    else ReleaseOne(Release(s, a, order[..|order| - 1], deleting), a, order[|order| - 1], deleting)
  }

  /** The conversations that the loop handed over, as they were left. */
  ghost function Released(s: State, a: string, order: seq<string>): seq<Conversation>
    requires forall c :: c in order ==> c in s.convs
  {
    if order == [] then []
    else
      var init, c := order[..|order| - 1], order[|order| - 1];
      var before := Release(s, a, init, false);
      Released(s, a, init) + if before.convs[c].owner == a && IsOpen(before.convs[c])
                             then [ReleaseOne(before, a, c, false).convs[c]] else []
  }

  /** Agent a picks up queued conversations in the given order until the agent is full. */
  function PickUp(s: State, a: string, order: seq<string>): (t: State)
    requires a in s.agents && forall c :: c in order ==> c in s.convs
    ensures t.convs.Keys == s.convs.Keys && t.logs == s.logs && t.settings == s.settings
    ensures t.agents.Keys == s.agents.Keys
    decreases |order|
  {
    if order == [] || s.agents[a].cur >= s.agents[a].max then s
    else PickUp(if Queued(s.convs[order[0]]) then Take(s, order[0], a) else s, a, order[1..])
  }

  function PickedUp(s: State, a: string, order: seq<string>): seq<Conversation>
    requires a in s.agents && forall c :: c in order ==> c in s.convs
    decreases |order|
  {
    if order == [] || s.agents[a].cur >= s.agents[a].max then []
    else if Queued(s.convs[order[0]]) then
      var next := Take(s, order[0], a);
      [next.convs[order[0]]] + PickedUp(next, a, order[1..])
    else PickedUp(s, a, order[1..])
  }

  /** Each conversation is visited once. */
  ghost predicate VisitsAll(order: seq<string>, s: State) {
    && (forall c :: c in order <==> c in s.convs)
    && (forall i, j :: 0 <= i < j < |order| ==> order[i] != order[j])
  }

  ghost predicate OldestFirst(order: seq<string>, s: State) {
    && VisitsAll(order, s)
    && forall i, j :: 0 <= i < j < |order| ==> s.convs[order[i]].created <= s.convs[order[j]].created
  }

  // ----- agents -----

  datatype StatusChange = StatusChange(agent: Agent, changed: seq<Conversation>)

  /** order is how the release loop visits the map, or what sorting by creation time yields. */
  ghost function SetAgentStatus(s: State, a: string, status: AgentStatus, order: seq<string>)
    : (State, Result<StatusChange>)
    requires forall c :: c in order ==> c in s.convs
  {
    if a !in s.agents then (s, Err(NotFound))
    else if s.agents[a].disabled && status == Online then (s, Err(Forbidden))
    else
      var set1 := PutAgent(s, a, s.agents[a].(status := status));
      match status
      case Offline =>
        var idle := PutAgent(set1, a, set1.agents[a].(cur := 0));
        var t := Release(idle, a, order, false);
        (t, Ok(StatusChange(t.agents[a], Released(idle, a, order))))
      case Online =>
        var t := PickUp(set1, a, order);
        (t, Ok(StatusChange(t.agents[a], PickedUp(set1, a, order))))
      case Busy => (set1, Ok(StatusChange(set1.agents[a], [])))
  }

  const DEFAULT_GROUP := "默认组"
  const NAME_LIMIT := 64
  const LOAD_LIMIT := 200

  function CreateAgent(s: State, id: string, name: string, group: string, max: int): (State, Result<Agent>) {
    if Trim(name) == "" || |Trim(name)| > NAME_LIMIT || |Trim(group)| > NAME_LIMIT || max > LOAD_LIMIT
    then (s, Err(InvalidInput))
    else
      var agent := Agent(Trim(name), if Trim(group) == "" then DEFAULT_GROUP else Trim(group),
                         Offline, if max <= 0 then 10 else max, 0, false);
      (PutAgent(s, id, agent), Ok(agent))
  }

  /** Blank fields and a zero maximum leave the old values. */
  function Edited(was: Agent, name: string, group: string, max: int): Agent {
    was.(name := if Trim(name) != "" then Trim(name) else was.name,
         group := if Trim(group) != "" then Trim(group) else was.group,
         max := if max > 0 then max else was.max)
  }

  /** A refused status leaves the other changes. */
  function UpdateAgent(s: State, a: string, name: string, group: string, max: int, status: Option<AgentStatus>)
    : (State, Result<Agent>)
  {
    if |Trim(name)| > NAME_LIMIT || |Trim(group)| > NAME_LIMIT || max < 0 || max > LOAD_LIMIT
    then (s, Err(InvalidInput))
    else if a !in s.agents then (s, Err(NotFound))
    else
      var agent := Edited(s.agents[a], name, group, max);
      if status.None? then (PutAgent(s, a, agent), Ok(agent))
      else if agent.disabled && status.value == Online then (PutAgent(s, a, agent), Err(Forbidden))
      else (PutAgent(s, a, agent.(status := status.value)), Ok(agent.(status := status.value)))
  }

  ghost function DisableAgent(s: State, a: string, order: seq<string>): (State, Result<Agent>)
    requires forall c :: c in order ==> c in s.convs
  {
    if a !in s.agents then (s, Err(NotFound))
    else
      var t := Release(PutAgent(s, a, s.agents[a].(disabled := true, status := Offline, cur := 0)), a, order, false);
      (t, Ok(t.agents[a]))
  }

  ghost function DeleteAgent(s: State, a: string, order: seq<string>): (State, Result<Agent>)
    requires forall c :: c in order ==> c in s.convs
  {
    if a !in s.agents then (s, Err(NotFound))
    else
      var idle := s.agents[a].(status := Offline, cur := 0);
      var t := Release(PutAgent(s, a, idle), a, order, true);
      (t.(agents := t.agents - {a}), Ok(idle))
  }

  // ----- conversations -----

  datatype NewSession = NewSession(conv: Conversation, initial: seq<Message>)

  const SOURCE_LIMIT := 128

  ghost function CreateConversation(s: State, source: string, visitor: string, c: string, msgId: string,
                                    businessTime: bool, now: int): (State, Result<NewSession>)
  {
    if |Trim(source)| > SOURCE_LIMIT then (s, Err(InvalidInput))
    else
      var stored := PutConv(s, c, Conversation(visitor, Waiting, NOBODY, now, 0, 0, now));
      var offered := Assign(stored, c);
      var mode := s.settings.aiMode;
      var settled :=
        if offered.convs[c].owner == NOBODY && FallsBackToAI(s.settings)
           && (!s.settings.businessHours || !businessTime || mode == AlwaysAI)
        then PutConv(offered, c, offered.convs[c].(status := AIServing)) else offered;
      if Trim(s.settings.entryReply) == "" then (settled, Ok(NewSession(settled.convs[c], [])))
      else
        var m := NewMessage(msgId, "", FromAI, AI_ID, AIText, s.settings.entryReply, now);
        (Append(settled, c, m), Ok(NewSession(settled.convs[c], [m])))
  }

  function MarkRead(s: State, actor: Actor, c: string): (State, Result<Conversation>) {
    if c !in s.convs then (s, Err(NotFound))
    else if actor.kind == AgentAccount && s.convs[c].owner != actor.id then (s, Err(Forbidden))
    else if actor.kind == VisitorAccount && c != actor.id then (s, Err(Forbidden))
    else
      var conv := s.convs[c].(unreadForAgent := 0);
      (PutConv(s, c, conv), Ok(conv))
  }

  function Touched(conv: Conversation, fromVisitor: bool, at: int): Conversation {
    if fromVisitor then conv.(lastAt := at, unreadForAgent := conv.unreadForAgent + 1)
    else conv.(lastAt := at, unreadForVisitor := conv.unreadForVisitor + 1, unreadForAgent := 0)
  }

  function TouchedByRevoke(conv: Conversation, m: Message, at: int): Conversation {
    conv.(lastAt := at,
          unreadForVisitor := if m.sender == FromAgent && conv.unreadForVisitor > 0
                              then conv.unreadForVisitor - 1 else conv.unreadForVisitor)
  }

  /** The first message of this sender with this client id. */
  function FirstWith(log: seq<Message>, sender: SenderType, senderId: string, clientId: string): (r: Option<Message>)
    ensures r.Some? ==> r.value in log && Carries(r.value, sender, senderId, clientId)
    ensures r.None? ==> forall m :: m in log ==> !Carries(m, sender, senderId, clientId)
  {
    if log == [] then None
    else if Carries(log[0], sender, senderId, clientId) then Some(log[0])
    else FirstWith(log[1..], sender, senderId, clientId)
  }

  predicate Carries(m: Message, sender: SenderType, senderId: string, clientId: string) {
    m.clientId == clientId && m.sender == sender && m.senderId == senderId
  }

  /** The client id is trimmed for the search, and a blank one matches nothing. */
  function FindByClientId(log: seq<Message>, sender: SenderType, senderId: string, clientId: string): Option<Message> {
    if Trim(clientId) == "" then None else FirstWith(log, sender, senderId, Trim(clientId))
  }

  const CLIENT_ID_LIMIT := 128
  const MESSAGE_LIMIT := 4000

  /** urlSafe is the verdict on the content as a link, needed for images and voice messages. */
  predicate ValidUserMessage(kind: MessageType, content: string, urlSafe: bool) {
    && Trim(content) != "" && |Trim(content)| <= MESSAGE_LIMIT
    && match kind
       case PlainText | Emoji | ContactPhone | ContactWechat => true
       case Image | Audio => urlSafe
       case _ => false
  }

  /** What matching the text found: a wish for a human, a keyword rule's reply, or nothing. */
  datatype Matched = HumanAsked | RuleHit(kind: MessageType, text: string) | NoRule

  ghost function AutoReply(s: State, c: string, content: string, matched: Matched, businessTime: bool,
                           id: string, now: int): (r: (State, seq<Message>, bool))
    requires c in s.convs
    ensures r.0.convs.Keys == s.convs.Keys && r.0.agents.Keys == s.agents.Keys
  {
    var conv := s.convs[c];
    if Trim(content) == "" then (s, [], false)
    else
      match matched
      case HumanAsked =>
        var notified := NewMessage(id, "", FromSystem, SYSTEM_ID, Handoff, NOTIFIED_TEXT, now);
        if conv.owner != NOBODY then
          (Append(PutConv(s, c, conv.(status := Assigned)), c, notified), [notified], false)
        else
          var t := Assign(PutConv(s, c, conv.(status := HumanRequested)), c);
          if t.convs[c].owner != NOBODY then (Append(t, c, notified), [notified], false)
          else
            var m := NewMessage(id, "", FromAI, AI_ID, AIText, UNAVAILABLE_TEXT, now);
            (Append(t, c, m), [m], false)
      case RuleHit(kind, text) =>
        var m := NewMessage(id, "", FromSystem, SYSTEM_ID, kind, text, now);
        (Append(s, c, m), [m], false)
      case NoRule =>
        if conv.status == Assigned || !FallsBackToAI(s.settings)
           || (conv.status == Waiting && s.settings.businessHours && businessTime)
        then (s, [], false)
        else (PutConv(s, c, conv.(status := AIServing)), [], true)
  }

  /** The outcome of a send; sentAt is the zero time when a stored message is returned again. */
  datatype Sent = Sent(input: Message, generated: seq<Message>, conv: Conversation, needAI: bool, sentAt: int)

  ghost function AddVisitorMessage(s: State, c: string, clientId: string, content: string, kind: MessageType,
                                   urlSafe: bool, matched: Matched, businessTime: bool,
                                   id: string, replyId: string, now: int): (State, Result<Sent>)
  {
    if c !in s.convs then (s, Err(NotFound))
    else if !IsOpen(s.convs[c]) then (s, Err(Forbidden))
    else if |Trim(clientId)| > CLIENT_ID_LIMIT then (s, Err(InvalidInput))
    else
      var conv := s.convs[c];
      match FindByClientId(Log(s, c), FromVisitor, conv.visitor, clientId)
      case Some(existing) => (s, Ok(Sent(existing, [], conv, false, ZERO_TIME)))
      case None =>
        if !ValidUserMessage(kind, content, urlSafe) then (s, Err(InvalidInput))
        else
          var input := NewMessage(id, clientId, FromVisitor, conv.visitor, kind, content, now);
          var stored := PutConv(Append(s, c, input), c, Touched(conv, true, now));
          var (t, generated, needAI) := AutoReply(stored, c, content, matched, businessTime, replyId, now);
          (t, Ok(Sent(input, generated, t.convs[c], needAI, now)))
  }

  function AddAIMessage(s: State, c: string, content: string, id: string, now: int)
    : (State, Result<(Message, Conversation)>)
  {
    if c !in s.convs then (s, Err(NotFound))
    else if !IsOpen(s.convs[c]) then (s, Err(Forbidden))
    else
      var m := NewMessage(id, "", FromAI, AI_ID, AIText, content, now);
      var conv := Touched(s.convs[c].(status := AIServing), false, now);
      (PutConv(Append(s, c, m), c, conv), Ok((m, conv)))
  }

  function AddAgentMessage(s: State, a: string, c: string, clientId: string, content: string, kind: MessageType,
                           urlSafe: bool, id: string, now: int): (State, Result<Sent>)
  {
    if c !in s.convs then (s, Err(NotFound))
    else if s.convs[c].owner != a || !IsOpen(s.convs[c]) then (s, Err(Forbidden))
    else if |Trim(clientId)| > CLIENT_ID_LIMIT then (s, Err(InvalidInput))
    else
      var conv := s.convs[c];
      match FindByClientId(Log(s, c), FromAgent, a, clientId)
      case Some(existing) => (s, Ok(Sent(existing, [], conv, false, ZERO_TIME)))
      case None =>
        if !ValidUserMessage(kind, content, urlSafe) then (s, Err(InvalidInput))
        else
          var status := if conv.status == AIServing || conv.status == HumanRequested then Assigned else conv.status;
          var m := NewMessage(id, clientId, FromAgent, a, kind, content, now);
          var touched := Touched(conv.(status := status), false, now);
          (PutConv(Append(s, c, m), c, touched), Ok(Sent(m, [], touched, false, ZERO_TIME)))
  }

  function RevokeMessage(s: State, actor: Actor, c: string, msgId: string, now: int)
    : (State, Result<(Message, Conversation)>)
  {
    if c !in s.convs then (s, Err(NotFound))
    else if actor.kind == AgentAccount && s.convs[c].owner != actor.id then (s, Err(Forbidden))
    else if actor.kind == VisitorAccount then (s, Err(Forbidden))
    else
      var log, conv := Log(s, c), s.convs[c];
      var p := Position(log, Trim(msgId));
      if Trim(msgId) == "" || p == |log| then (s, Err(NotFound))
      else if log[p].sender != FromAgent then (s, Err(Forbidden))
      else if actor.kind == AgentAccount && log[p].senderId != actor.id then (s, Err(Forbidden))
      else if log[p].revoked.Some? then (s, Ok((log[p], conv)))
      else
        var m := log[p].(revoked := Some(Revocation(now, actor)));
        var touched := TouchedByRevoke(conv, m, now);
        (PutConv(s.(logs := s.logs[c := log[p := m]]), c, touched), Ok((m, touched)))
  }

  /** The no-reply timer of the visitor message sent at sentAt fires. */
  function EscalateNoReply(s: State, c: string, sentAt: int): (State, Option<Conversation>) {
    if c !in s.convs || s.convs[c].status != Assigned || s.convs[c].lastAt != sentAt || !FallsBackToAI(s.settings)
    then (s, None)
    else
      var conv := s.convs[c].(status := AIServing);
      (PutConv(s, c, conv), Some(conv))
  }

  /** One less, but never below zero; a missing agent is skipped. */
  function Unload(s: State, a: string): State {
    if a != NOBODY && a in s.agents && s.agents[a].cur > 0
    then PutAgent(s, a, s.agents[a].(cur := s.agents[a].cur - 1)) else s
  }

  /** There is no check that the conversation is still open. */
  function CloseConversation(s: State, actor: Actor, c: string, id: string, now: int)
    : (State, Result<(Conversation, Message)>)
  {
    if c !in s.convs then (s, Err(NotFound))
    else if actor.kind == AgentAccount && s.convs[c].owner != actor.id then (s, Err(Forbidden))
    else if actor.kind == VisitorAccount && c != actor.id then (s, Err(Forbidden))
    else
      var conv := s.convs[c].(status := Closed);
      var m := NewMessage(id, "", FromSystem, SYSTEM_ID, SystemNotice, CLOSED_TEXT, now);
      (Append(PutConv(Unload(s, conv.owner), c, conv), c, m), Ok((conv, m)))
  }

  function DeleteConversation(s: State, actor: Actor, c: string): (State, Result<()>) {
    if c !in s.convs then (s, Err(NotFound))
    else if actor.kind == AgentAccount && s.convs[c].owner != actor.id then (s, Err(Forbidden))
    else if actor.kind == VisitorAccount && c != actor.id then (s, Err(Forbidden))
    else if IsOpen(s.convs[c]) then (s, Err(Forbidden))
    else (s.(convs := s.convs - {c}, logs := s.logs - {c}), Ok(()))
  }

  /** A named target needs neither room nor to be online. */
  ghost function TransferTarget(s: State, a: string, group: string): Option<string> {
    if Trim(a) != "" then
      if Trim(a) in s.agents && !s.agents[Trim(a)].disabled then Some(Trim(a)) else None
    else LeastLoaded(s.agents, Trim(group))
  }

  function TransferText(name: string): string { "会话已转接至 " + name + "。" }

  ghost function TransferConversation(s: State, actor: Actor, c: string, a: string, group: string, id: string, now: int)
    : (State, Result<(Conversation, Message)>)
  {
    if actor.kind != AdminAccount then (s, Err(Forbidden))
    else if c !in s.convs then (s, Err(NotFound))
    else if !IsOpen(s.convs[c]) then (s, Err(Forbidden))
    else
      match TransferTarget(s, a, group)
      case None => (s, Err(NotFound))
      case Some(target) =>
        if s.convs[c].owner == target then
          var m := NewMessage(id, "", FromSystem, SYSTEM_ID, SystemNotice, ALREADY_THERE_TEXT, now);
          (Append(s, c, m), Ok((s.convs[c], m)))
        else
          var t := Take(Unload(s, s.convs[c].owner), c, target);
          var m := NewMessage(id, "", FromSystem, SYSTEM_ID, SystemNotice, TransferText(s.agents[target].name), now);
          (Append(t, c, m), Ok((t.convs[c], m)))
  }
}
