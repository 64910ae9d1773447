/** What each operation of the store accepts and does, told from its arguments and the state before it. No agent
    has a blank id, as in every reachable state. */
module Outcomes {
  import opened Results
  import opened Domain
  import opened Text
  import opened Logs
  import opened Selection
  import opened StoreState

  // ----- who gets a conversation -----

  predicate HasRoom(agent: Agent) { !agent.disabled && agent.status == Online && agent.cur < agent.max }

  predicate InGroup(agent: Agent, group: string) { group == "" || agent.group == group }

  /** a is online with room, in the group if one is named, and no other such agent has fewer conversations, or
      as many and a smaller id. */
  ghost predicate FirstInLine(agents: map<string, Agent>, group: string, a: string) {
    && a in agents && HasRoom(agents[a]) && InGroup(agents[a], group)
    && forall b :: b in agents && HasRoom(agents[b]) && InGroup(agents[b], group) && b != a ==>
         agents[a].cur < agents[b].cur || (agents[a].cur == agents[b].cur && Less(a, b))
  }

  ghost predicate Somebody(agents: map<string, Agent>, group: string) {
    exists a :: a in agents && HasRoom(agents[a]) && InGroup(agents[a], group)
  }

  lemma SelectionPicksFirst(agents: map<string, Agent>, group: string)
    ensures LeastLoaded(agents, group).Some? <==> Somebody(agents, group)
    ensures LeastLoaded(agents, group).Some? ==> FirstInLine(agents, group, LeastLoaded(agents, group).value)
  {
  }

  /** The AI may answer when it is enabled and not in manual_only mode. */
  predicate AIMayServe(s: State) { s.settings.aiEnabled && s.settings.aiMode != ManualOnly }

  /** Agent a takes conversation conv, stored under c, and everything else stays. */
  function GivenTo(s: State, c: string, conv: Conversation, a: string): State
    requires a in s.agents
  {
    s.(agents := s.agents[a := s.agents[a].(cur := s.agents[a].cur + 1)],
       convs := s.convs[c := conv.(owner := a, status := Assigned)])
  }

  lemma AssignOutcome(s: State, c: string) returns (to: Option<string>)
    requires c in s.convs
    ensures match to
            case Some(a) =>
              && s.settings.aiMode != AlwaysAI && FirstInLine(s.agents, "", a)
              && Assign(s, c) == GivenTo(s, c, s.convs[c], a)
            case None =>
              if s.settings.aiMode == AlwaysAI
              then Assign(s, c) == s.(convs := s.convs[c := s.convs[c].(status := AIServing)])
              else !Somebody(s.agents, "") && Assign(s, c) == s
  {
    SelectionPicksFirst(s.agents, "");
    hide HasRoom, InGroup, FirstInLine, Somebody;
    to := if s.settings.aiMode == AlwaysAI then None else LeastLoaded(s.agents, "");
  }

  // ----- messages -----

  predicate Sendable(kind: MessageType, content: string, urlSafe: bool) {
    && 0 < |Trim(content)| <= 4000
    && (kind == PlainText || kind == Emoji || kind == ContactPhone || kind == ContactWechat
        || ((kind == Image || kind == Audio) && urlSafe))
  }

  /** The sender has a message in the log under this client id, which is not blank. */
  ghost predicate AlreadySent(log: seq<Message>, sender: SenderType, senderId: string, clientId: string) {
    Trim(clientId) != "" &&
    exists m :: m in log && m.clientId == Trim(clientId) && m.sender == sender && m.senderId == senderId
  }

  lemma SendableIff(kind: MessageType, content: string, urlSafe: bool)
    ensures ValidUserMessage(kind, content, urlSafe) <==> Sendable(kind, content, urlSafe)
  {
    hide Trim;
  }

  lemma AlreadySentIff(log: seq<Message>, sender: SenderType, senderId: string, clientId: string)
    ensures FindByClientId(log, sender, senderId, clientId).Some? <==> AlreadySent(log, sender, senderId, clientId)
  {
    hide Trim;
    if m :| m in log && m.clientId == Trim(clientId) && m.sender == sender && m.senderId == senderId {
      assert Carries(m, sender, senderId, Trim(clientId));
    }
  }

  /** A message is added to the log of c, whose record becomes conv. */
  function Added(s: State, c: string, conv: Conversation, m: Message): State {
    s.(convs := s.convs[c := conv], logs := s.logs[c := (if c in s.logs then s.logs[c] else []) + [m]])
  }

  /** A visitor's message is accepted if its conversation is open, its client id is not too long, and it was sent
      before or has a content fit to be sent; the first of these that fails decides the error. */
  lemma VisitorSendAccepted(s: State, c: string, clientId: string, content: string, kind: MessageType, urlSafe: bool,
                            matched: Matched, business: bool, id: string, replyId: string, now: int)
    ensures var r := AddVisitorMessage(s, c, clientId, content, kind, urlSafe, matched, business, id, replyId, now).1;
            if c !in s.convs then r == Err(NotFound)
            else if s.convs[c].status == Closed then r == Err(Forbidden)
            else if |Trim(clientId)| > 128 then r == Err(InvalidInput)
            else if AlreadySent(Log(s, c), FromVisitor, s.convs[c].visitor, clientId)
                    || Sendable(kind, content, urlSafe)
            then r.Ok? else r == Err(InvalidInput)
  {
    SendableIff(kind, content, urlSafe);
    if c in s.convs { AlreadySentIff(Log(s, c), FromVisitor, s.convs[c].visitor, clientId); }
    hide Trim, FindByClientId, ValidUserMessage, AutoReply, AlreadySent, Sendable;
  }

  /** The message is stored, and is to be answered. */
  ghost predicate VisitorStores(s: State, c: string, clientId: string, content: string, kind: MessageType,
                                urlSafe: bool)
  {
    && c in s.convs && s.convs[c].status != Closed && |Trim(clientId)| <= 128
    && !AlreadySent(Log(s, c), FromVisitor, s.convs[c].visitor, clientId) && Sendable(kind, content, urlSafe)
  }

  /** The visitor's message as stored. */
  function VisitorInput(s: State, c: string, clientId: string, content: string, kind: MessageType, id: string, now: int)
    : Message
    requires c in s.convs
  {
    Message(id, clientId, FromVisitor, s.convs[c].visitor, kind, Trim(content), now, None)
  }

  /** The state with the visitor's message stored and not yet answered. */
  function VisitorStored(s: State, c: string, clientId: string, content: string, kind: MessageType, id: string,
                         now: int)
    : State
    requires c in s.convs
  {
    Added(s, c, s.convs[c].(lastAt := now, unreadForAgent := s.convs[c].unreadForAgent + 1),
          VisitorInput(s, c, clientId, content, kind, id, now))
  }

  /** Up to the answer every stored message is treated alike. */
  lemma StoredThenAnswered(s: State, c: string, clientId: string, content: string, kind: MessageType, urlSafe: bool,
                           matched: Matched, business: bool, id: string, replyId: string, now: int)
    requires VisitorStores(s, c, clientId, content, kind, urlSafe)
    ensures var (t, r) := AddVisitorMessage(s, c, clientId, content, kind, urlSafe, matched, business, id, replyId,
                                              now);
            var mid := VisitorStored(s, c, clientId, content, kind, id, now);
            var (u, generated, needAI) := AutoReply(mid, c, content, matched, business, replyId, now);
            t == u && c in t.convs
            && r == Ok(Sent(VisitorInput(s, c, clientId, content, kind, id, now), generated, t.convs[c], needAI, now))
  {
    SendableIff(kind, content, urlSafe);
    AlreadySentIff(Log(s, c), FromVisitor, s.convs[c].visitor, clientId);
    hide Trim, FindByClientId, ValidUserMessage, AutoReply, AlreadySent, Sendable;
    var input := VisitorInput(s, c, clientId, content, kind, id, now);
    assert PutConv(Append(s, c, input), c, Touched(s.convs[c], true, now))
        == VisitorStored(s, c, clientId, content, kind, id, now);
  }

  /** What the answer to a wish for a human is when the conversation is unowned. */
  ghost predicate HumanAnswered(mid: State, c: string, replyId: string, now: int, to: Option<string>,
                                t: State, generated: seq<Message>)
    requires c in mid.convs
  {
    && (to.Some? <==> mid.settings.aiMode != AlwaysAI && Somebody(mid.agents, ""))
    && match to
       case Some(a) =>
         var notice := Message(replyId, "", FromSystem, "system", Handoff, Trim(NOTIFIED_TEXT), now, None);
         && FirstInLine(mid.agents, "", a) && generated == [notice]
         && t == Added(GivenTo(mid, c, mid.convs[c], a), c, mid.convs[c].(owner := a, status := Assigned), notice)
       case None =>
         var notice := Message(replyId, "", FromAI, "ai", AIText, Trim(UNAVAILABLE_TEXT), now, None);
         var status := if mid.settings.aiMode == AlwaysAI then AIServing else HumanRequested;
         && generated == [notice] && t == Added(mid, c, mid.convs[c].(status := status), notice)
  }

  lemma HumanAnswer(mid: State, c: string, content: string, business: bool, replyId: string, now: int)
    returns (to: Option<string>)
    requires c in mid.convs && mid.convs[c].owner == "" && Trim(content) != "" && "" !in mid.agents
    ensures var (t, generated, needAI) := AutoReply(mid, c, content, HumanAsked, business, replyId, now);
            !needAI && HumanAnswered(mid, c, replyId, now, to, t, generated)
  {
    var conv := mid.convs[c];
    to := AssignOutcome(PutConv(mid, c, conv.(status := HumanRequested)), c);
    hide Assign, FirstInLine, Somebody, Trim;
    PutTwice(mid.convs, c, conv.(status := HumanRequested), conv.(status := AIServing));
    if to.Some? {
      var taken := conv.(owner := to.value, status := Assigned);
      PutTwice(mid.convs, c, conv.(status := HumanRequested), taken);
      PutTwice(mid.convs, c, taken, taken);
    }
  }

  /** Who asks for a human in a conversation that nobody owns gets the first agent in line, who is one
      conversation fuller then, with a hand-off notice; if nobody has room the conversation stays requested and
      the AI says so. In always_ai mode the AI keeps it. */
  lemma HumanRequestOutcome(s: State, c: string, clientId: string, content: string, kind: MessageType, urlSafe: bool,
                            business: bool, id: string, replyId: string, now: int) returns (to: Option<string>)
    requires VisitorStores(s, c, clientId, content, kind, urlSafe) && s.convs[c].owner == "" && "" !in s.agents
    ensures var (t, r) := AddVisitorMessage(s, c, clientId, content, kind, urlSafe, HumanAsked, business, id, replyId,
                                            now);
            && r.Ok? && !r.value.needAI && r.value.sentAt == now
            && r.value.input == VisitorInput(s, c, clientId, content, kind, id, now)
            && c in t.convs && r.value.conv == t.convs[c]
            && HumanAnswered(VisitorStored(s, c, clientId, content, kind, id, now), c, replyId, now, to,
                             t, r.value.generated)
  {
    StoredThenAnswered(s, c, clientId, content, kind, urlSafe, HumanAsked, business, id, replyId, now);
    to := HumanAnswer(VisitorStored(s, c, clientId, content, kind, id, now), c, content, business, replyId, now);
    hide AddVisitorMessage, AlreadySent, AutoReply, HumanAnswered, Trim;
  }

  /** Whoever asks for a human in a conversation that an agent owns has it assigned to that agent again. */
  lemma HumanRequestOfOwned(s: State, c: string, clientId: string, content: string, kind: MessageType, urlSafe: bool,
                            business: bool, id: string, replyId: string, now: int)
    requires VisitorStores(s, c, clientId, content, kind, urlSafe) && s.convs[c].owner != ""
    ensures var (t, r) := AddVisitorMessage(s, c, clientId, content, kind, urlSafe, HumanAsked, business, id, replyId,
                                            now);
            var mid := VisitorStored(s, c, clientId, content, kind, id, now);
            var notice := Message(replyId, "", FromSystem, "system", Handoff, Trim(NOTIFIED_TEXT), now, None);
            && t == Added(mid, c, mid.convs[c].(status := Assigned), notice) && c in t.convs
            && r == Ok(Sent(VisitorInput(s, c, clientId, content, kind, id, now), [notice], t.convs[c], false, now))
  {
    StoredThenAnswered(s, c, clientId, content, kind, urlSafe, HumanAsked, business, id, replyId, now);
    hide AddVisitorMessage, AlreadySent, Trim;
  }

  /** A keyword rule answers with its own kind and text and changes nothing else. */
  lemma RuleOutcome(s: State, c: string, clientId: string, content: string, kind: MessageType, urlSafe: bool,
                    ruleKind: MessageType, text: string, business: bool, id: string, replyId: string, now: int)
    requires VisitorStores(s, c, clientId, content, kind, urlSafe)
    ensures var (t, r) := AddVisitorMessage(s, c, clientId, content, kind, urlSafe, RuleHit(ruleKind, text), business,
                                            id, replyId, now);
            var mid := VisitorStored(s, c, clientId, content, kind, id, now);
            var reply := Message(replyId, "", FromSystem, "system", ruleKind, Trim(text), now, None);
            && t == Added(mid, c, mid.convs[c], reply) && c in t.convs
            && r == Ok(Sent(VisitorInput(s, c, clientId, content, kind, id, now), [reply], t.convs[c], false, now))
  {
    StoredThenAnswered(s, c, clientId, content, kind, urlSafe, RuleHit(ruleKind, text), business, id, replyId, now);
    hide AddVisitorMessage, AlreadySent, Trim;
    var mid := VisitorStored(s, c, clientId, content, kind, id, now);
    assert mid.convs[c := mid.convs[c]] == mid.convs;
  }

  /** Without a rule the AI is asked, and serves the conversation, exactly if it may serve, no agent is serving, and
      the conversation is not waiting for one during business hours; otherwise nothing more happens. */
  lemma NoRuleOutcome(s: State, c: string, clientId: string, content: string, kind: MessageType, urlSafe: bool,
                      business: bool, id: string, replyId: string, now: int)
    requires VisitorStores(s, c, clientId, content, kind, urlSafe)
    ensures var (t, r) := AddVisitorMessage(s, c, clientId, content, kind, urlSafe, NoRule, business, id, replyId, now);
            var mid := VisitorStored(s, c, clientId, content, kind, id, now);
            var needAI := AIMayServe(s) && s.convs[c].status != Assigned
                          && !(s.convs[c].status == Waiting && s.settings.businessHours && business);
            && t == (if needAI then mid.(convs := mid.convs[c := mid.convs[c].(status := AIServing)]) else mid)
            && c in t.convs
            && r == Ok(Sent(VisitorInput(s, c, clientId, content, kind, id, now), [], t.convs[c], needAI, now))
  {
    StoredThenAnswered(s, c, clientId, content, kind, urlSafe, NoRule, business, id, replyId, now);
    hide AddVisitorMessage, AlreadySent, Trim;
  }

  /** An agent's message: who may send what. */
  lemma AgentSendAccepted(s: State, a: string, c: string, clientId: string, content: string, kind: MessageType,
                          urlSafe: bool, id: string, now: int)
    ensures var r := AddAgentMessage(s, a, c, clientId, content, kind, urlSafe, id, now).1;
            if c !in s.convs then r == Err(NotFound)
            else if s.convs[c].owner != a || s.convs[c].status == Closed then r == Err(Forbidden)
            else if |Trim(clientId)| > 128 then r == Err(InvalidInput)
            else if AlreadySent(Log(s, c), FromAgent, a, clientId) || Sendable(kind, content, urlSafe)
            then r.Ok? else r == Err(InvalidInput)
  {
    SendableIff(kind, content, urlSafe);
    AlreadySentIff(Log(s, c), FromAgent, a, clientId);
    hide Trim, FindByClientId, ValidUserMessage, AlreadySent, Sendable;
  }

  /** An agent's message that is stored counts as unread for the visitor, settles what the agent had not read, and
      takes the conversation back from the AI. */
  lemma AgentSendOutcome(s: State, a: string, c: string, clientId: string, content: string, kind: MessageType,
                         urlSafe: bool, id: string, now: int)
    requires c in s.convs && s.convs[c].owner == a && s.convs[c].status != Closed && |Trim(clientId)| <= 128
    requires !AlreadySent(Log(s, c), FromAgent, a, clientId) && Sendable(kind, content, urlSafe)
    ensures var (t, r) := AddAgentMessage(s, a, c, clientId, content, kind, urlSafe, id, now); var was := s.convs[c];
            var m := Message(id, clientId, FromAgent, a, kind, Trim(content), now, None);
            var status := if was.status == Waiting then Waiting else Assigned;
            && t == Added(s, c, was.(status := status, lastAt := now, unreadForAgent := 0,
                                     unreadForVisitor := was.unreadForVisitor + 1), m)
            && r.Ok? && r.value.input == m && r.value.generated == [] && r.value.conv == t.convs[c]
  {
    SendableIff(kind, content, urlSafe);
    AlreadySentIff(Log(s, c), FromAgent, a, clientId);
    hide Trim, FindByClientId, ValidUserMessage, AlreadySent, Sendable;
  }

  /** An AI reply is refused only where there is no open conversation. */
  lemma AIReplyOutcome(s: State, c: string, content: string, id: string, now: int)
    ensures var (t, r) := AddAIMessage(s, c, content, id, now);
            if c !in s.convs then r == Err(NotFound)
            else if s.convs[c].status == Closed then r == Err(Forbidden)
            else
              var m, was := Message(id, "", FromAI, "ai", AIText, Trim(content), now, None), s.convs[c];
              && t == Added(s, c, was.(status := AIServing, lastAt := now, unreadForAgent := 0,
                                       unreadForVisitor := was.unreadForVisitor + 1), m)
              && r == Ok((m, t.convs[c]))
  {
    hide Trim;
  }

  // ----- revoking, reading, closing, deleting -----

  /** i is the first message of the log with this server id. */
  ghost predicate IsAt(log: seq<Message>, id: string, i: nat) {
    i < |log| && log[i].id == id && forall j :: 0 <= j < i ==> log[j].id != id
  }

  /** An admin may revoke any agent's message, an agent the own messages of a conversation owned; the message then
      bears the time and the revoker, and the visitor has one unread less. A second time nothing changes. */
  lemma RevokeOutcome(s: State, actor: Actor, c: string, target: string, now: int, i: nat)
    requires c in s.convs && Trim(target) != "" && IsAt(Log(s, c), Trim(target), i)
    ensures var (t, r) := RevokeMessage(s, actor, c, target, now); var m, was := Log(s, c)[i], s.convs[c];
            var may := m.sender == FromAgent
                       && (actor.kind == AdminAccount
                           || (actor.kind == AgentAccount && was.owner == actor.id && m.senderId == actor.id));
            if !may then r == Err(Forbidden)
            else if m.revoked.Some? then t == s && r == Ok((m, was))
            else
              var next := m.(revoked := Some(Revocation(now, actor)));
              && t == s.(logs := s.logs[c := Log(s, c)[i := next]],
                         convs := s.convs[c := was.(lastAt := now, unreadForVisitor :=
                                                      if was.unreadForVisitor > 0 then was.unreadForVisitor - 1
                                                      else was.unreadForVisitor)])
              && r == Ok((next, t.convs[c]))
  {
    hide Trim;
  }

  /** Where there is nothing to revoke, who may not act here is refused and others find nothing. */
  lemma RevokeNothing(s: State, actor: Actor, c: string, target: string, now: int)
    requires c in s.convs ==> Trim(target) == "" || forall m :: m in Log(s, c) ==> m.id != Trim(target)
    ensures RevokeMessage(s, actor, c, target, now).1 ==
            if c in s.convs
               && (actor.kind == VisitorAccount || (actor.kind == AgentAccount && s.convs[c].owner != actor.id))
            then Err(Forbidden) else Err(NotFound)
  {
    hide Trim;
    if c in s.convs {
      var log, p := Log(s, c), Position(Log(s, c), Trim(target));
      if p < |log| { assert log[p] in log; }
    }
  }

  /** An agent acts on conversations owned, a visitor on the own one, an admin on all. */
  predicate MayAct(s: State, actor: Actor, c: string)
    requires c in s.convs
  {
    match actor.kind
    case AdminAccount => true
    case AgentAccount => s.convs[c].owner == actor.id
    case VisitorAccount => c == actor.id
  }

  lemma ReadOutcome(s: State, actor: Actor, c: string)
    ensures var (t, r) := MarkRead(s, actor, c);
            if c !in s.convs then r == Err(NotFound)
            else if !MayAct(s, actor, c) then r == Err(Forbidden)
            else t == s.(convs := s.convs[c := s.convs[c].(unreadForAgent := 0)]) && r == Ok(t.convs[c])
  {
  }

  /** Closing takes one off the owner's load, if there is one to take, and leaves a notice. */
  lemma CloseOutcome(s: State, actor: Actor, c: string, id: string, now: int)
    ensures var (t, r) := CloseConversation(s, actor, c, id, now);
            if c !in s.convs then r == Err(NotFound)
            else if !MayAct(s, actor, c) then r == Err(Forbidden)
            else
              var note := Message(id, "", FromSystem, "system", SystemNotice, Trim(CLOSED_TEXT), now, None);
              var a := s.convs[c].owner;
              && t == Added(s, c, s.convs[c].(status := Closed), note).(
                        agents := if a != "" && a in s.agents && s.agents[a].cur > 0
                                  then s.agents[a := s.agents[a].(cur := s.agents[a].cur - 1)] else s.agents)
              && r == Ok((t.convs[c], note))
  {
    hide Trim;
  }

  lemma RemovalOutcome(s: State, actor: Actor, c: string)
    ensures var (t, r) := DeleteConversation(s, actor, c);
            if c !in s.convs then r == Err(NotFound)
            else if !MayAct(s, actor, c) || s.convs[c].status != Closed then r == Err(Forbidden)
            else t == s.(convs := s.convs - {c}, logs := s.logs - {c}) && r == Ok(())
  {
  }

  /** The timer hands over exactly an assigned conversation last touched at the timer's own time. */
  lemma EscalationOutcome(s: State, c: string, sentAt: int)
    ensures var (t, r) := EscalateNoReply(s, c, sentAt);
            if c in s.convs && s.convs[c].status == Assigned && s.convs[c].lastAt == sentAt && AIMayServe(s)
            then t == s.(convs := s.convs[c := s.convs[c].(status := AIServing)]) && r == Some(t.convs[c])
            else t == s && r == None
  {
  }

  // ----- new conversations -----

  /** A new conversation goes to the first agent in line; otherwise the AI serves it, unless it may not or an agent
      may be expected during business hours. An entry reply that is not blank is its first message. */
  lemma CreationOutcome(s: State, source: string, visitor: string, c: string, id: string, business: bool, now: int)
    returns (to: Option<string>)
    requires c !in s.convs && c !in s.logs && "" !in s.agents
    ensures var (t, r) := CreateConversation(s, source, visitor, c, id, business, now);
            if |Trim(source)| > 128 then r == Err(InvalidInput)
            else
              && (to.Some? <==> s.settings.aiMode != AlwaysAI && Somebody(s.agents, ""))
              && (to.Some? ==> FirstInLine(s.agents, "", to.value))
              && var status :=
                   if s.settings.aiMode == AlwaysAI then AIServing
                   else if AIMayServe(s) && (!s.settings.businessHours || !business) then AIServing else Waiting;
                 var conv := Conversation(visitor, status, "", now, 0, 0, now);
                 var stored := if to.Some? then GivenTo(s, c, conv, to.value) else s.(convs := s.convs[c := conv]);
                 var entry := Trim(s.settings.entryReply);
                 var m := Message(id, "", FromAI, "ai", AIText, Trim(s.settings.entryReply), now, None);
                 && t == (if entry == "" then stored else stored.(logs := s.logs[c := [m]]))
                 && r == Ok(NewSession(stored.convs[c], if entry == "" then [] else [m]))
  {
    hide HasRoom, InGroup;
    var conv := Conversation(visitor, Waiting, NOBODY, now, 0, 0, now);
    to := AssignOutcome(PutConv(s, c, conv), c);
    hide Assign, FirstInLine, Somebody, Trim;
    PutTwice(s.convs, c, conv, conv.(status := AIServing));
    PutTwice(s.convs, c, conv.(status := AIServing), conv.(status := AIServing));
    var m := NewMessage(id, "", FromAI, AI_ID, AIText, s.settings.entryReply, now);
    assert [] + [m] == [m];
    if to.Some? { PutTwice(s.convs, c, conv, conv.(owner := to.value, status := Assigned)); }
  }

  lemma PutTwice(convs: map<string, Conversation>, c: string, x: Conversation, y: Conversation)
    ensures convs[c := x][c := y] == convs[c := y]
  {
  }

  // ----- transfers -----

  /** A transfer names an agent on record who is not disabled, or leaves the choice to the line of a group, or of
      everybody if the group is blank. */
  ghost predicate IsTarget(s: State, a: string, group: string, target: string) {
    if Trim(a) != "" then target == Trim(a) && target in s.agents && !s.agents[target].disabled
    else FirstInLine(s.agents, Trim(group), target)
  }

  ghost predicate HasTarget(s: State, a: string, group: string) {
    if Trim(a) != "" then Trim(a) in s.agents && !s.agents[Trim(a)].disabled else Somebody(s.agents, Trim(group))
  }

  lemma TransferAccepted(s: State, actor: Actor, c: string, a: string, group: string, id: string, now: int)
    ensures var r := TransferConversation(s, actor, c, a, group, id, now).1;
            if actor.kind != AdminAccount then r == Err(Forbidden)
            else if c !in s.convs then r == Err(NotFound)
            else if s.convs[c].status == Closed then r == Err(Forbidden)
            else if HasTarget(s, a, group) then r.Ok? else r == Err(NotFound)
  {
    SelectionPicksFirst(s.agents, Trim(group));
    hide Trim, FirstInLine, Somebody;
  }

  /** The target gains the conversation and one in load, the old owner loses one if there is one to lose; a
      transfer to the owner leaves a note only. */
  lemma TransferOutcome(s: State, actor: Actor, c: string, a: string, group: string, id: string, now: int)
    returns (target: string)
    requires actor.kind == AdminAccount && c in s.convs && s.convs[c].status != Closed && HasTarget(s, a, group)
    ensures IsTarget(s, a, group, target) && target in s.agents
    ensures var (t, r) := TransferConversation(s, actor, c, a, group, id, now); var old1 := s.convs[c].owner;
            if old1 == target then
              var note := Message(id, "", FromSystem, "system", SystemNotice, Trim(ALREADY_THERE_TEXT), now, None);
              t == Added(s, c, s.convs[c], note) && r == Ok((s.convs[c], note))
            else
              var note := Message(id, "", FromSystem, "system", SystemNotice,
                                  Trim("会话已转接至 " + s.agents[target].name + "。"), now, None);
              var less := if old1 != "" && old1 in s.agents && s.agents[old1].cur > 0
                          then s.agents[old1 := s.agents[old1].(cur := s.agents[old1].cur - 1)] else s.agents;
              && t == Added(s, c, s.convs[c].(owner := target, status := Assigned), note).(
                        agents := less[target := s.agents[target].(cur := s.agents[target].cur + 1)])
              && r == Ok((t.convs[c], note))
  {
    SelectionPicksFirst(s.agents, Trim(group));
    hide Trim, FirstInLine, Somebody;
    target := TransferTarget(s, a, group).value;
    assert s.convs[c := s.convs[c]] == s.convs;
  }

  // ----- agents -----

  lemma NewAgentOutcome(s: State, a: string, name: string, group: string, max: int)
    ensures var (t, r) := CreateAgent(s, a, name, group, max);
            if !(0 < |Trim(name)| <= 64) || |Trim(group)| > 64 || max > 200 then r == Err(InvalidInput)
            else
              var agent := Agent(Trim(name), if Trim(group) == "" then "默认组" else Trim(group), Offline,
                                 if max > 0 then max else 10, 0, false);
              t == s.(agents := s.agents[a := agent]) && r == Ok(agent)
  {
    hide Trim;
  }

  /** An accepted edit sets what it names and keeps the rest, the load and the disabled mark among it. */
  lemma EditOutcome(s: State, a: string, name: string, group: string, max: int, status: Option<AgentStatus>)
    ensures var (t, r) := UpdateAgent(s, a, name, group, max, status);
            if |Trim(name)| > 64 || |Trim(group)| > 64 || max < 0 || max > 200 then r == Err(InvalidInput)
            else if a !in s.agents then r == Err(NotFound)
            else if s.agents[a].disabled && status == Some(Online) then r == Err(Forbidden)
            else
              var was := s.agents[a];
              && r.Ok? && t == s.(agents := s.agents[a := r.value])
              && r.value.name == (if Trim(name) == "" then was.name else Trim(name))
              && r.value.group == (if Trim(group) == "" then was.group else Trim(group))
              && r.value.max == (if max == 0 then was.max else max)
              && r.value.status == (if status.None? then was.status else status.value)
              && r.value.cur == was.cur && r.value.disabled == was.disabled
  {
    hide Trim;
  }

  /** A status is refused for an unknown agent, and going online for a disabled one; being busy is a mark only. */
  lemma StatusAccepted(s: State, a: string, status: AgentStatus, order: seq<string>)
    requires forall c :: c in order ==> c in s.convs
    ensures var (t, r) := SetAgentStatus(s, a, status, order);
            if a !in s.agents then r == Err(NotFound)
            else if s.agents[a].disabled && status == Online then r == Err(Forbidden)
            else
              && r.Ok? && a in t.agents && r.value.agent == t.agents[a] && t.agents[a].status == status
              && (status == Busy ==>
                    r.value.changed == [] && t == s.(agents := s.agents[a := s.agents[a].(status := Busy)]))
  {
    hide Release, Released, PickUp, PickedUp;
    if a in s.agents {
      var set1 := PutAgent(s, a, s.agents[a].(status := status));
      ReleaseKeepsStatus(PutAgent(set1, a, set1.agents[a].(cur := 0)), a, order, false);
      PickUpKeepsStatus(set1, a, order);
    }
  }

  lemma {:induction false} ReleaseKeepsStatus(s: State, a: string, order: seq<string>, deleting: bool)
    requires a in s.agents && forall c :: c in order ==> c in s.convs
    ensures Release(s, a, order, deleting).agents[a].status == s.agents[a].status
    ensures Release(s, a, order, deleting).agents[a].disabled == s.agents[a].disabled
  {
    if order != [] {
      var init, c := order[..|order| - 1], order[|order| - 1];
      ReleaseKeepsStatus(s, a, init, deleting);
      ReleaseOneKeepsStatus(Release(s, a, init, deleting), a, c, deleting);
    }
  }

  lemma ReleaseOneKeepsStatus(s: State, a: string, c: string, deleting: bool)
    requires a in s.agents && c in s.convs
    ensures ReleaseOne(s, a, c, deleting).agents[a].status == s.agents[a].status
    ensures ReleaseOne(s, a, c, deleting).agents[a].disabled == s.agents[a].disabled
  {
    hide Ahead;
  }

  lemma {:induction false} PickUpKeepsStatus(s: State, a: string, order: seq<string>)
    requires a in s.agents && forall c :: c in order ==> c in s.convs
    ensures PickUp(s, a, order).agents[a].status == s.agents[a].status
    decreases |order|
  {
    if order != [] && s.agents[a].cur < s.agents[a].max {
      PickUpKeepsStatus(if Queued(s.convs[order[0]]) then Take(s, order[0], a) else s, a, order[1..]);
    }
  }

  /** Disabling and deleting fail for unknown agents only, and report the agent offline and without load. */
  lemma LeavingOutcome(s: State, a: string, order: seq<string>)
    requires forall c :: c in order ==> c in s.convs
    ensures var (t, r) := DisableAgent(s, a, order);
            if a !in s.agents then r == Err(NotFound) else r.Ok? && a in t.agents && r.value == t.agents[a]
    ensures DeleteAgent(s, a, order).1 ==
            if a !in s.agents then Err(NotFound) else Ok(s.agents[a].(status := Offline, cur := 0))
  {
    hide Release;
  }
}
