/** The in-memory store: its tables are fields that every operation updates in place. Each method is
    proved to compute the step that module StoreState specifies. */
module MemoryStores {
  import opened Results
  import opened Domain
  import opened Text
  import opened Logs
  import opened Selection
  import opened StoreState
  import Spec = StoreState

  /** Distinct stored conversations, older ones first. */
  ghost predicate Sorted(convs: map<string, Conversation>, order: seq<string>) {
    && (forall c :: c in order ==> c in convs)
    && (forall i, j :: 0 <= i < j < |order| ==>
          order[i] != order[j] && convs[order[i]].created <= convs[order[j]].created)
  }

  lemma InsertKeepsOrder(convs: map<string, Conversation>, order: seq<string>, at: nat, c: string)
    requires Sorted(convs, order) && at <= |order| && c in convs && c !in order
    requires forall i :: 0 <= i < at ==> convs[order[i]].created <= convs[c].created
    requires at < |order| ==> convs[c].created <= convs[order[at]].created
    ensures Sorted(convs, order[..at] + [c] + order[at..])
    ensures forall x :: x in order[..at] + [c] + order[at..] <==> x in order || x == c
  {
  }

  /** One turn of the pick-up loop while the agent has room. */
  lemma PickUpTurn(s: State, a: string, order: seq<string>, i: nat)
    requires a in s.agents && (forall c :: c in order ==> c in s.convs)
    requires i < |order| && s.agents[a].cur < s.agents[a].max
    ensures var c := order[i]; var next := if Queued(s.convs[c]) then Take(s, c, a) else s;
            && PickUp(s, a, order[i..]) == PickUp(next, a, order[i + 1..])
            && PickedUp(s, a, order[i..]) ==
               (if Queued(s.convs[c]) then [next.convs[c]] else []) + PickedUp(next, a, order[i + 1..])
  {
  }

  /** One turn of the search for a client id. */
  lemma FirstWithTurn(log: seq<Message>, i: nat, sender: SenderType, senderId: string, id: string)
    requires i < |log|
    ensures FirstWith(log[i..], sender, senderId, id) ==
            if Carries(log[i], sender, senderId, id) then Some(log[i])
            else FirstWith(log[i + 1..], sender, senderId, id)
  {
    assert log[i..][0] == log[i] && log[i..][1..] == log[i + 1..];
  }

  lemma PickUpDone(s: State, a: string, order: seq<string>, i: nat)
    requires a in s.agents && (forall c :: c in order ==> c in s.convs)
    requires i == |order| || (i < |order| && s.agents[a].cur >= s.agents[a].max)
    ensures PickUp(s, a, order[i..]) == s && PickedUp(s, a, order[i..]) == []
  {
  }

  class MemoryStore {
    var agents: map<string, Agent>
    var conversations: map<string, Conversation>
    var messages: map<string, seq<Message>>
    var settings: Settings

    function Model(): State reads this { State(agents, conversations, messages, settings) }

    /** One offline agent with room for ten, and the AI enabled in human_first mode. */
    constructor (entryReply: string)
      ensures Model() == Initial(entryReply)
      ensures agents == map["agent_lixue" := Agent("客服-李雪", "售前组", Offline, 10, 0, false)]
      ensures conversations == map[] && messages == map[]
      ensures settings == Settings(true, HumanFirst, true, entryReply, 60)
    {
      agents := map[SEED_AGENT_ID := SEED_AGENT];
      conversations, messages := map[], map[];
      settings := Settings(true, HumanFirst, true, entryReply, 60);
    }

    // ----- locked helpers -----

    method AssignConversation(c: string)
      requires c in conversations
      modifies this`agents, this`conversations
      ensures Model() == Assign(old(Model()), c)
    {
      if settings.aiMode == AlwaysAI {
        conversations := conversations[c := conversations[c].(status := AIServing)];
        return;
      }
      var selected := SelectLeastLoaded(agents, "");
      if selected == None {
        return;
      }
      var a := selected.value;
      agents := agents[a := agents[a].(cur := agents[a].cur + 1)];
      conversations := conversations[c := conversations[c].(owner := a)];
      conversations := conversations[c := conversations[c].(status := Assigned)];
      assert Model() == Take(old(Model()), c, a);
    }

    method SelectTransferTarget(agentId: string, group: string) returns (target: Option<string>)
      ensures target == TransferTarget(Model(), agentId, group)
    {
      var id := Trim(agentId);
      if id != "" {
        if id !in agents || agents[id].disabled {
          return None;
        }
        return Some(id);
      }
      target := SelectLeastLoaded(agents, Trim(group));
    }

    method CreateMessage(c: string, clientId: string, sender: SenderType, senderId: string,
                         kind: MessageType, content: string, id: string, now: int) returns (m: Message)
      modifies this`messages
      ensures m == NewMessage(id, clientId, sender, senderId, kind, content, now)
      ensures Model() == Append(old(Model()), c, m)
    {
      m := Message(id, clientId, sender, senderId, kind, Trim(content), now, None);
      messages := messages[c := (if c in messages then messages[c] else []) + [m]];
    }

    method FindMessageByClientId(c: string, sender: SenderType, senderId: string, clientId: string)
      returns (found: Option<Message>)
      ensures found == FindByClientId(Log(Model(), c), sender, senderId, clientId)
    {
      hide Trim, FirstWith;
      var wanted := Trim(clientId);
      if wanted == "" {
        return None;
      }
      var log := if c in messages then messages[c] else [];
      var i := 0;
      assert log[0..] == log;
      while i < |log|
        invariant 0 <= i <= |log|
        invariant FirstWith(log, sender, senderId, wanted) == FirstWith(log[i..], sender, senderId, wanted)
      {
        FirstWithTurn(log, i, sender, senderId, wanted);
        if log[i].clientId == wanted && log[i].sender == sender && log[i].senderId == senderId {
          return Some(log[i]);
        }
        i := i + 1;
      }
      assert log[i..] == [];
      return None;
    }

    method FindMessageIndex(c: string, serverId: string) returns (index: int)
      ensures index >= 0 ==>
                Trim(serverId) != "" && index == Position(Log(Model(), c), Trim(serverId)) < |Log(Model(), c)|
      ensures index < 0 ==> Trim(serverId) == "" || Position(Log(Model(), c), Trim(serverId)) == |Log(Model(), c)|
    {
      var wanted := Trim(serverId);
      if wanted == "" {
        return -1;
      }
      var log := if c in messages then messages[c] else [];
      index := 0;
      while index < |log|
        invariant 0 <= index <= |log|
        invariant forall i :: 0 <= i < index ==> log[i].id != wanted
      {
        if log[index].id == wanted {
          return;
        }
        index := index + 1;
      }
      return -1;
    }

    method TouchConversation(c: string, fromVisitor: bool, at: int)
      requires c in conversations
      modifies this`conversations
      ensures Model() == PutConv(old(Model()), c, Touched(old(conversations)[c], fromVisitor, at))
    {
      var conv := conversations[c].(lastAt := at);
      if fromVisitor {
        conv := conv.(unreadForAgent := conv.unreadForAgent + 1);
      } else {
        conv := conv.(unreadForVisitor := conv.unreadForVisitor + 1);
        conv := conv.(unreadForAgent := 0);
      }
      conversations := conversations[c := conv];
    }

    method TouchConversationRevoke(c: string, m: Message, at: int)
      requires c in conversations
      modifies this`conversations
      ensures Model() == PutConv(old(Model()), c, TouchedByRevoke(old(conversations)[c], m, at))
    {
      var conv := conversations[c].(lastAt := at);
      if m.sender == FromAgent && conv.unreadForVisitor > 0 {
        conv := conv.(unreadForVisitor := conv.unreadForVisitor - 1);
      }
      conversations := conversations[c := conv];
    }

    method GenerateAutoReplies(c: string, content: string, matched: Matched, businessTime: bool,
                               id: string, now: int) returns (generated: seq<Message>, needAI: bool)
      requires c in conversations
      modifies this
      ensures (Model(), generated, needAI) ==
              AutoReply(old(Model()), c, content, matched, businessTime, id, now)
    {
      if Trim(content) == "" {
        return [], false;
      }
      var m;
      match matched
      case HumanAsked =>
        if conversations[c].owner != NOBODY {
          conversations := conversations[c := conversations[c].(status := Assigned)];
          m := CreateMessage(c, "", FromSystem, SYSTEM_ID, Handoff, NOTIFIED_TEXT, id, now);
          return [m], false;
        }
        conversations := conversations[c := conversations[c].(status := HumanRequested)];
        AssignConversation(c);
        if conversations[c].owner != NOBODY {
          m := CreateMessage(c, "", FromSystem, SYSTEM_ID, Handoff, NOTIFIED_TEXT, id, now);
          return [m], false;
        }
        m := CreateMessage(c, "", FromAI, AI_ID, AIText, UNAVAILABLE_TEXT, id, now);
        return [m], false;
      case RuleHit(kind, text) =>
        m := CreateMessage(c, "", FromSystem, SYSTEM_ID, kind, text, id, now);
        return [m], false;
      case NoRule =>
        if conversations[c].status == Assigned {
          return [], false;
        }
        if !settings.aiEnabled || settings.aiMode == ManualOnly {
          return [], false;
        }
        if conversations[c].status == Waiting && settings.businessHours && businessTime {
          return [], false;
        }
        conversations := conversations[c := conversations[c].(status := AIServing)];
        return [], true;
    }

    /** The conversations by creation time: collected from the map, each inserted after the older ones. */
    method SortedConversations() returns (order: seq<string>)
      ensures OldestFirst(order, Model())
    {
      order := [];
      var todo := conversations.Keys;
      while todo != {}
        invariant todo <= conversations.Keys
        invariant forall c :: c in order <==> c in conversations.Keys - todo
        invariant Sorted(conversations, order)
        decreases todo
      {
        var c :| c in todo;
        todo := todo - {c};
        var at := 0;
        while at < |order| && conversations[order[at]].created <= conversations[c].created
          invariant 0 <= at <= |order|
          invariant forall i :: 0 <= i < at ==> order[i] in conversations
          invariant forall i :: 0 <= i < at ==> conversations[order[i]].created <= conversations[c].created
        {
          at := at + 1;
        }
        InsertKeepsOrder(conversations, order, at, c);
        order := order[..at] + [c] + order[at..];
      }
    }

    /** One turn of the loop that takes a's conversations away. */
    method ReleaseConversation(a: string, c: string, deleting: bool) returns (handedOver: bool)
      requires c in conversations
      modifies this`agents, this`conversations
      ensures Model() == ReleaseOne(old(Model()), a, c, deleting)
      ensures handedOver <==> old(conversations)[c].owner == a && IsOpen(old(conversations)[c])
    {
      if conversations[c].owner != a || (conversations[c].status == Closed && !deleting) {
        return false;
      }
      conversations := conversations[c := conversations[c].(owner := NOBODY)];
      if conversations[c].status == Closed {
        return false;
      }
      conversations := conversations[c := conversations[c].(status := Waiting)];
      assert Model() == PutConv(old(Model()), c, old(conversations)[c].(owner := NOBODY, status := Waiting));
      AssignConversation(c);
      if conversations[c].owner == NOBODY && settings.aiEnabled && settings.aiMode != ManualOnly {
        conversations := conversations[c := conversations[c].(status := AIServing)];
      }
      return true;
    }

    /** The loop that takes a's conversations away; order records how the map was visited. */
    method ReleaseConversations(a: string, deleting: bool)
      returns (changed: seq<Conversation>, ghost order: seq<string>)
      modifies this`agents, this`conversations
      ensures VisitsAll(order, old(Model()))
      ensures Model() == Release(old(Model()), a, order, deleting)
      ensures !deleting ==> changed == Released(old(Model()), a, order)
    {
      hide ReleaseOne;
      changed, order := [], [];
      var todo := conversations.Keys;
      while todo != {}
        invariant todo <= conversations.Keys == old(conversations).Keys
        invariant forall c :: c in order <==> c in old(conversations).Keys - todo
        invariant forall i, j :: 0 <= i < j < |order| ==> order[i] != order[j]
        invariant Model() == Release(old(Model()), a, order, deleting)
        invariant !deleting ==> changed == Released(old(Model()), a, order)
        decreases todo
      {
        var c :| c in todo;
        todo := todo - {c};
        assert (order + [c])[..|order|] == order && c !in order;
        var handedOver := ReleaseConversation(a, c, deleting);
        if handedOver {
          changed := changed + [conversations[c]];
        }
        order := order + [c];
      }
    }

    // ----- agents -----

    /** order is how the conversations were visited: by the release loop, or as sorted for the pick-up. */
    method SetAgentStatus(a: string, status: AgentStatus) returns (r: Result<StatusChange>, ghost order: seq<string>)
      modifies this`agents, this`conversations
      ensures if status == Online then OldestFirst(order, old(Model())) else VisitsAll(order, old(Model()))
      ensures (Model(), r) == Spec.SetAgentStatus(old(Model()), a, status, order)
    {
      var sorted := SortedConversations();
      order := sorted;
      if a !in agents {
        return Err(NotFound), order;
      }
      if agents[a].disabled && status == Online {
        return Err(Forbidden), order;
      }
      agents := agents[a := agents[a].(status := status)];
      var changed := [];
      if status == Offline {
        agents := agents[a := agents[a].(cur := 0)];
        changed, order := ReleaseConversations(a, false);
      }
      if status == Online {
        changed := PickUpConversations(a, sorted);
      }
      return Ok(StatusChange(agents[a], changed)), order;
    }

    method GiveTo(a: string, c: string)
      requires a in agents && c in conversations
      modifies this`agents, this`conversations
      ensures Model() == Take(old(Model()), c, a)
    {
      conversations := conversations[c := conversations[c].(owner := a)];
      conversations := conversations[c := conversations[c].(status := Assigned)];
      agents := agents[a := agents[a].(cur := agents[a].cur + 1)];
    }

    method PickUpConversations(a: string, order: seq<string>) returns (picked: seq<Conversation>)
      requires a in agents && forall c :: c in order ==> c in conversations
      modifies this`agents, this`conversations
      ensures Model() == PickUp(old(Model()), a, order)
      ensures picked == PickedUp(old(Model()), a, order)
    {
      hide PickUp, PickedUp;
      picked := [];
      var i := 0;
      assert order[0..] == order;
      while i < |order|
        invariant 0 <= i <= |order| && a in agents && conversations.Keys == old(conversations).Keys
        invariant PickUp(Model(), a, order[i..]) == PickUp(old(Model()), a, order)
        invariant picked + PickedUp(Model(), a, order[i..]) == PickedUp(old(Model()), a, order)
      {
        var c := order[i];
        if agents[a].cur >= agents[a].max {
          break;
        }
        PickUpTurn(Model(), a, order, i);
        if conversations[c].status == Waiting || conversations[c].status == HumanRequested {
          GiveTo(a, c);
          picked := picked + [conversations[c]];
        }
        i := i + 1;
      }
      PickUpDone(Model(), a, order, i);
    }

    method CreateAgent(id: string, name: string, group: string, max: int) returns (r: Result<Agent>)
      modifies this`agents
      ensures (Model(), r) == Spec.CreateAgent(old(Model()), id, name, group, max)
    {
      if Trim(name) == "" || |Trim(name)| > NAME_LIMIT || |Trim(group)| > NAME_LIMIT || max > LOAD_LIMIT {
        return Err(InvalidInput);
      }
      var agent := Agent(Trim(name), Trim(group), Offline, max, 0, false);
      if agent.group == "" {
        agent := agent.(group := DEFAULT_GROUP);
      }
      if agent.max <= 0 {
        agent := agent.(max := 10);
      }
      agents := agents[id := agent];
      return Ok(agent);
    }

    method UpdateAgent(a: string, name: string, group: string, max: int, status: Option<AgentStatus>)
      returns (r: Result<Agent>)
      modifies this`agents
      ensures (Model(), r) == Spec.UpdateAgent(old(Model()), a, name, group, max, status)
    {
      hide Trim;
      if |Trim(name)| > NAME_LIMIT || |Trim(group)| > NAME_LIMIT || max < 0 || max > LOAD_LIMIT {
        return Err(InvalidInput);
      }
      if a !in agents {
        return Err(NotFound);
      }
      EditFields(a, name, group, max);
      hide Trim, Edited;
      if status.Some? {
        if agents[a].disabled && status.value == Online {
          return Err(Forbidden);
        }
        agents := agents[a := agents[a].(status := status.value)];
        assert agents == old(agents)[a := agents[a]];
      }
      return Ok(agents[a]);
    }

    method EditFields(a: string, name: string, group: string, max: int)
      requires a in agents
      modifies this`agents
      ensures Model() == PutAgent(old(Model()), a, Edited(old(agents)[a], name, group, max))
    {
      hide Trim;
      var agent := agents[a];
      if Trim(name) != "" {
        agent := agent.(name := Trim(name));
      }
      if Trim(group) != "" {
        agent := agent.(group := Trim(group));
      }
      if max > 0 {
        agent := agent.(max := max);
      }
      agents := agents[a := agent];
    }

    method DisableAgent(a: string) returns (r: Result<Agent>, ghost order: seq<string>)
      modifies this`agents, this`conversations
      ensures VisitsAll(order, old(Model()))
      ensures (Model(), r) == Spec.DisableAgent(old(Model()), a, order)
    {
      if a !in agents {
        ghost var any := SortedConversations();
        return Err(NotFound), any;
      }
      agents := agents[a := agents[a].(disabled := true)];
      agents := agents[a := agents[a].(status := Offline)];
      agents := agents[a := agents[a].(cur := 0)];
      assert Model() == PutAgent(old(Model()), a, old(agents)[a].(disabled := true, status := Offline, cur := 0));
      var changed;
      changed, order := ReleaseConversations(a, false);
      return Ok(agents[a]), order;
    }

    method DeleteAgent(a: string) returns (r: Result<Agent>, ghost order: seq<string>)
      modifies this`agents, this`conversations
      ensures VisitsAll(order, old(Model()))
      ensures (Model(), r) == Spec.DeleteAgent(old(Model()), a, order)
    {
      if a !in agents {
        ghost var any := SortedConversations();
        return Err(NotFound), any;
      }
      var deleted := agents[a];
      agents := agents[a := agents[a].(status := Offline)];
      agents := agents[a := agents[a].(cur := 0)];
      assert Model() == PutAgent(old(Model()), a, old(agents)[a].(status := Offline, cur := 0));
      var changed;
      changed, order := ReleaseConversations(a, true);
      agents := agents - {a};
      deleted := deleted.(status := Offline, cur := 0);
      return Ok(deleted), order;
    }

    // ----- conversations -----

    method CreateVisitorConversation(source: string, visitor: string, c: string, msgId: string,
                                     businessTime: bool, now: int) returns (r: Result<NewSession>)
      modifies this
      ensures (Model(), r) == CreateConversation(old(Model()), source, visitor, c, msgId, businessTime, now)
    {
      var from := Trim(source);
      if from == "" {
        from := "web";
      }
      if |from| > SOURCE_LIMIT {
        return Err(InvalidInput);
      }
      conversations := conversations[c := Conversation(visitor, Waiting, NOBODY, now, 0, 0, now)];
      AssignConversation(c);
      if conversations[c].owner == NOBODY {
        if settings.aiEnabled && settings.aiMode != ManualOnly
           && (!settings.businessHours || !businessTime || settings.aiMode == AlwaysAI) {
          conversations := conversations[c := conversations[c].(status := AIServing)];
        }
      }
      var initial := [];
      if Trim(settings.entryReply) != "" {
        var m := CreateMessage(c, "", FromAI, AI_ID, AIText, settings.entryReply, msgId, now);
        initial := [m];
      }
      return Ok(NewSession(conversations[c], initial));
    }

    method MarkConversationRead(actor: Actor, c: string) returns (r: Result<Conversation>)
      modifies this`conversations
      ensures (Model(), r) == MarkRead(old(Model()), actor, c)
    {
      if c !in conversations {
        return Err(NotFound);
      }
      if actor.kind == AgentAccount && conversations[c].owner != actor.id {
        return Err(Forbidden);
      }
      if actor.kind == VisitorAccount && c != actor.id {
        return Err(Forbidden);
      }
      conversations := conversations[c := conversations[c].(unreadForAgent := 0)];
      return Ok(conversations[c]);
    }

    method AddVisitorMessage(c: string, clientId: string, content: string, kind: MessageType, urlSafe: bool,
                           matched: Matched, businessTime: bool, id: string, replyId: string, now: int)
      returns (r: Result<Sent>)
      modifies this
      ensures (Model(), r) == Spec.AddVisitorMessage(old(Model()), c, clientId, content, kind, urlSafe, matched,
                                                businessTime, id, replyId, now)
    {
      hide AutoReply, FindByClientId, ValidUserMessage, Trim;
      if c !in conversations {
        return Err(NotFound);
      }
      if conversations[c].status == Closed {
        return Err(Forbidden);
      }
      if |Trim(clientId)| > CLIENT_ID_LIMIT {
        return Err(InvalidInput);
      }
      var visitor := conversations[c].visitor;
      var existing := FindMessageByClientId(c, FromVisitor, visitor, clientId);
      if existing.Some? {
        return Ok(Sent(existing.value, [], conversations[c], false, ZERO_TIME));
      }
      if !ValidUserMessage(kind, content, urlSafe) {
        return Err(InvalidInput);
      }
      var input := CreateMessage(c, clientId, FromVisitor, visitor, kind, content, id, now);
      TouchConversation(c, true, input.at);
      var generated, needAI := GenerateAutoReplies(c, content, matched, businessTime, replyId, now);
      return Ok(Sent(input, generated, conversations[c], needAI, input.at));
    }

    method AddAIMessage(c: string, content: string, id: string, now: int) returns (r: Result<(Message, Conversation)>)
      modifies this
      ensures (Model(), r) == Spec.AddAIMessage(old(Model()), c, content, id, now)
    {
      if c !in conversations {
        return Err(NotFound);
      }
      if conversations[c].status == Closed {
        return Err(Forbidden);
      }
      conversations := conversations[c := conversations[c].(status := AIServing)];
      var m := CreateMessage(c, "", FromAI, AI_ID, AIText, content, id, now);
      TouchConversation(c, false, m.at);
      assert conversations == old(conversations)[c := conversations[c]];
      return Ok((m, conversations[c]));
    }

    method AddAgentMessage(a: string, c: string, clientId: string, content: string, kind: MessageType,
                         urlSafe: bool, id: string, now: int) returns (r: Result<Sent>)
      modifies this
      ensures (Model(), r) == Spec.AddAgentMessage(old(Model()), a, c, clientId, content, kind, urlSafe, id, now)
    {
      hide FindByClientId, ValidUserMessage, Trim;
      if c !in conversations {
        return Err(NotFound);
      }
      if conversations[c].owner != a {
        return Err(Forbidden);
      }
      if conversations[c].status == Closed {
        return Err(Forbidden);
      }
      if |Trim(clientId)| > CLIENT_ID_LIMIT {
        return Err(InvalidInput);
      }
      var existing := FindMessageByClientId(c, FromAgent, a, clientId);
      if existing.Some? {
        return Ok(Sent(existing.value, [], conversations[c], false, ZERO_TIME));
      }
      if !ValidUserMessage(kind, content, urlSafe) {
        return Err(InvalidInput);
      }
      if conversations[c].status == AIServing || conversations[c].status == HumanRequested {
        conversations := conversations[c := conversations[c].(status := Assigned)];
      }
      var input := CreateMessage(c, clientId, FromAgent, a, kind, content, id, now);
      TouchConversation(c, false, input.at);
      assert conversations == old(conversations)[c := conversations[c]];
      return Ok(Sent(input, [], conversations[c], false, ZERO_TIME));
    }

    method RevokeMessage(actor: Actor, c: string, msgId: string, now: int) returns (r: Result<(Message, Conversation)>)
      modifies this
      ensures (Model(), r) == Spec.RevokeMessage(old(Model()), actor, c, msgId, now)
    {
      if c !in conversations {
        return Err(NotFound);
      }
      if actor.kind == AgentAccount && conversations[c].owner != actor.id {
        return Err(Forbidden);
      }
      if actor.kind != AgentAccount && actor.kind != AdminAccount {
        return Err(Forbidden);
      }
      var index := FindMessageIndex(c, msgId);
      if index < 0 {
        return Err(NotFound);
      }
      var m := messages[c][index];
      if m.sender != FromAgent {
        return Err(Forbidden);
      }
      if actor.kind == AgentAccount && m.senderId != actor.id {
        return Err(Forbidden);
      }
      if m.revoked.Some? {
        return Ok((m, conversations[c]));
      }
      m := m.(revoked := Some(Revocation(now, actor)));
      messages := messages[c := messages[c][index := m]];
      TouchConversationRevoke(c, m, now);
      return Ok((m, conversations[c]));
    }

    method EscalateNoReplyToAI(c: string, sentAt: int) returns (escalated: Option<Conversation>)
      modifies this`conversations
      ensures (Model(), escalated) == EscalateNoReply(old(Model()), c, sentAt)
    {
      if c !in conversations {
        return None;
      }
      if conversations[c].status != Assigned {
        return None;
      }
      if conversations[c].lastAt != sentAt {
        return None;
      }
      if !settings.aiEnabled || settings.aiMode == ManualOnly {
        return None;
      }
      conversations := conversations[c := conversations[c].(status := AIServing)];
      return Some(conversations[c]);
    }

    method UnloadAgent(a: string)
      modifies this`agents
      ensures Model() == Unload(old(Model()), a)
    {
      if a != NOBODY {
        if a in agents && agents[a].cur > 0 {
          agents := agents[a := agents[a].(cur := agents[a].cur - 1)];
        }
      }
    }

    method CloseConversation(actor: Actor, c: string, id: string, now: int) returns (r: Result<(Conversation, Message)>)
      modifies this
      ensures (Model(), r) == Spec.CloseConversation(old(Model()), actor, c, id, now)
    {
      if c !in conversations {
        return Err(NotFound);
      }
      if actor.kind == AgentAccount && conversations[c].owner != actor.id {
        return Err(Forbidden);
      }
      if actor.kind == VisitorAccount && c != actor.id {
        return Err(Forbidden);
      }
      UnloadAgent(conversations[c].owner);
      conversations := conversations[c := conversations[c].(status := Closed)];
      var m := CreateMessage(c, "", FromSystem, SYSTEM_ID, SystemNotice, CLOSED_TEXT, id, now);
      return Ok((conversations[c], m));
    }

    method DeleteConversation(actor: Actor, c: string) returns (r: Result<()>)
      modifies this
      ensures (Model(), r) == Spec.DeleteConversation(old(Model()), actor, c)
    {
      if c !in conversations {
        return Err(NotFound);
      }
      if actor.kind == AgentAccount && conversations[c].owner != actor.id {
        return Err(Forbidden);
      }
      if actor.kind == VisitorAccount && c != actor.id {
        return Err(Forbidden);
      }
      if conversations[c].status != Closed {
        return Err(Forbidden);
      }
      conversations := conversations - {c};
      messages := messages - {c};
      return Ok(());
    }

    method TransferConversation(actor: Actor, c: string, a: string, group: string, id: string, now: int)
      returns (r: Result<(Conversation, Message)>)
      modifies this
      ensures (Model(), r) == Spec.TransferConversation(old(Model()), actor, c, a, group, id, now)
    {
      if actor.kind != AdminAccount {
        return Err(Forbidden);
      }
      if c !in conversations {
        return Err(NotFound);
      }
      if conversations[c].status == Closed {
        return Err(Forbidden);
      }
      var target := SelectTransferTarget(a, group);
      if target == None {
        return Err(NotFound);
      }
      var m;
      if conversations[c].owner == target.value {
        m := CreateMessage(c, "", FromSystem, SYSTEM_ID, SystemNotice, ALREADY_THERE_TEXT, id, now);
        return Ok((conversations[c], m));
      }
      UnloadAgent(conversations[c].owner);
      agents := agents[target.value := agents[target.value].(cur := agents[target.value].cur + 1)];
      conversations := conversations[c := conversations[c].(owner := target.value)];
      conversations := conversations[c := conversations[c].(status := Assigned)];
      assert Model() == Take(Unload(old(Model()), old(conversations)[c].owner), c, target.value);
      m := CreateMessage(c, "", FromSystem, SYSTEM_ID, SystemNotice, TransferText(agents[target.value].name), id, now);
      return Ok((conversations[c], m));
    }

    method Configure(next: Settings)
      modifies this`settings
      ensures Model() == old(Model()).(settings := next)
    {
      settings := next;
    }
  }
}
