/** Who owns what, in every reachable state of the store. */
module Ownership {
  import opened Results
  import opened Domain
  import opened Text
  import opened Selection
  import opened StoreState
  import opened StoreRuns

  /** Queued conversations have no owner, assigned ones have one, and every owner is an agent on record
      who is not disabled while the conversation is open. */
  ghost predicate Owned(agents: map<string, Agent>, conv: Conversation) {
    && (Queued(conv) ==> conv.owner == NOBODY)
    && (conv.status == Assigned ==> conv.owner != NOBODY)
    && (conv.owner != NOBODY ==> conv.owner in agents && (IsOpen(conv) ==> !agents[conv.owner].disabled))
  }

  /** leaving is exempt: the agent whose conversations are being taken away. */
  ghost predicate CoupledBut(s: State, leaving: string) {
    && NOBODY !in s.agents
    && s.logs.Keys <= s.convs.Keys
    && (forall a :: a in s.agents && s.agents[a].disabled ==> s.agents[a].status != Online)
    && (forall c :: c in s.convs && (leaving == NOBODY || s.convs[c].owner != leaving) ==> Owned(s.agents, s.convs[c]))
  }

  ghost predicate Coupled(s: State) { CoupledBut(s, NOBODY) }

  // ----- building blocks -----

  lemma PutConvKeeps(s: State, c: string, conv: Conversation, leaving: string)
    requires CoupledBut(s, leaving) && Owned(s.agents, conv)
    ensures CoupledBut(PutConv(s, c, conv), leaving)
  {
  }

  lemma AppendKeeps(s: State, c: string, m: Message)
    requires Coupled(s) && c in s.convs
    ensures Coupled(Append(s, c, m))
  {
  }

  /** Loads, limits, groups and names do not matter, nor does the status of an agent who is not disabled. */
  lemma PutAgentKeeps(s: State, a: string, agent: Agent)
    requires Coupled(s) && a != NOBODY && (a in s.agents ==> agent.disabled == s.agents[a].disabled)
    requires agent.disabled ==> agent.status != Online
    ensures Coupled(PutAgent(s, a, agent))
  {
  }

  lemma TakeKeeps(s: State, c: string, a: string)
    requires Coupled(s) && c in s.convs && a in s.agents && !s.agents[a].disabled
    ensures Coupled(Take(s, c, a))
  {
  }

  /** What Assign does, case by case. */
  lemma AssignCases(s: State, c: string) returns (to: Option<string>)
    requires c in s.convs
    ensures match to
            case Some(a) => a in s.agents && Eligible(s.agents[a], "") && Assign(s, c) == Take(s, c, a)
            case None => Assign(s, c) == s || Assign(s, c) == PutConv(s, c, s.convs[c].(status := AIServing))
  {
    hide Eligible, Take, PutConv, Ahead;
    to := if s.settings.aiMode == AlwaysAI then None else LeastLoaded(s.agents, "");
  }

  /** Handing out a conversation that nobody owns keeps everything coupled. */
  lemma AssignKeepsCoupled(s: State, c: string, leaving: string)
    requires CoupledBut(s, leaving) && c in s.convs && s.convs[c].owner == NOBODY
    requires leaving in s.agents ==> !Eligible(s.agents[leaving], "")
    ensures CoupledBut(Assign(s, c), leaving)
    ensures leaving != NOBODY ==> Assign(s, c).convs[c].owner != leaving
    ensures IsOpen(s.convs[c]) ==> IsOpen(Assign(s, c).convs[c])
    ensures forall d :: d in s.convs && d != c ==> Assign(s, c).convs[d] == s.convs[d]
    ensures leaving in s.agents ==> Assign(s, c).agents[leaving] == s.agents[leaving]
  {
    hide Assign;
    var to := AssignCases(s, c);
  }

  /** One turn of the release loop leaves c without its old owner and touches no other conversation. */
  lemma ReleaseOneKeepsCoupled(s: State, a: string, c: string, deleting: bool)
    requires CoupledBut(s, a) && a in s.agents && !Eligible(s.agents[a], "") && c in s.convs
    ensures var t := ReleaseOne(s, a, c, deleting);
            && CoupledBut(t, a) && t.agents[a] == s.agents[a]
            && (t.convs[c].owner == a ==> !IsOpen(t.convs[c]) && !deleting)
            && (forall d :: d in s.convs && d != c ==> t.convs[d] == s.convs[d])
  {
    hide Assign, Eligible;
    var conv := s.convs[c];
    if conv.owner == a && IsOpen(conv) {
      var dropped := PutConv(s, c, conv.(owner := NOBODY, status := Waiting));
      AssignKeepsCoupled(dropped, c, a);
      PutConvStays(Assign(dropped, c), c, a);
    }
  }

  /** A conversation without an owner may be handed to the AI. */
  lemma PutConvStays(s: State, c: string, leaving: string)
    requires CoupledBut(s, leaving) && c in s.convs && leaving != NOBODY
    ensures s.convs[c].owner == NOBODY ==> CoupledBut(PutConv(s, c, s.convs[c].(status := AIServing)), leaving)
  {
  }

  /** After the whole loop, in whatever order, the agent owns no open conversation (none at all on deletion). */
  lemma {:induction false} ReleaseKeepsCoupled(s: State, a: string, order: seq<string>, deleting: bool)
    requires CoupledBut(s, a) && a in s.agents && !Eligible(s.agents[a], "")
    requires forall c :: c in order ==> c in s.convs
    ensures var t := Release(s, a, order, deleting);
            && CoupledBut(t, a) && t.agents[a] == s.agents[a]
            && (forall c :: c in order && t.convs[c].owner == a ==> !IsOpen(t.convs[c]) && !deleting)
            && (forall c :: c in s.convs && c !in order ==> t.convs[c] == s.convs[c])
  {
    if order != [] {
      var init, c := order[..|order| - 1], order[|order| - 1];
      assert forall x :: x in order <==> x in init || x == c;
      ReleaseKeepsCoupled(s, a, init, deleting);
      ReleaseOneKeepsCoupled(Release(s, a, init, deleting), a, c, deleting);
    }
  }

  lemma {:induction false} PickUpKeepsCoupled(s: State, a: string, order: seq<string>)
    requires Coupled(s) && a in s.agents && !s.agents[a].disabled && forall c :: c in order ==> c in s.convs
    ensures Coupled(PickUp(s, a, order))
    decreases |order|
  {
    if order != [] && s.agents[a].cur < s.agents[a].max {
      PickUpKeepsCoupled(if Queued(s.convs[order[0]]) then Take(s, order[0], a) else s, a, order[1..]);
    }
  }

  // ----- operations -----

  lemma StatusKeepsCoupled(s: State, a: string, status: AgentStatus, order: seq<string>)
    requires Coupled(s) && VisitsAll(order, s)
    ensures Coupled(SetAgentStatus(s, a, status, order).0)
  {
    hide Release, PickUp, Released, PickedUp;
    if a in s.agents && !(s.agents[a].disabled && status == Online) {
      var set1 := PutAgent(s, a, s.agents[a].(status := status));
      PutAgentKeeps(s, a, set1.agents[a]);
      match status
      case Offline =>
        var idle := PutAgent(set1, a, set1.agents[a].(cur := 0));
        PutAgentKeeps(set1, a, idle.agents[a]);
        ReleaseKeepsCoupled(idle, a, order, false);
      case Online => PickUpKeepsCoupled(set1, a, order);
      case Busy =>
    }
  }

  lemma DisableKeepsCoupled(s: State, a: string, order: seq<string>)
    requires Coupled(s) && VisitsAll(order, s)
    ensures Coupled(DisableAgent(s, a, order).0)
  {
    hide Release;
    if a in s.agents {
      var t := PutAgent(s, a, s.agents[a].(disabled := true, status := Offline, cur := 0));
      ReleaseKeepsCoupled(t, a, order, false);
    }
  }

  lemma DeleteKeepsCoupled(s: State, a: string, order: seq<string>)
    requires Coupled(s) && VisitsAll(order, s)
    ensures Coupled(DeleteAgent(s, a, order).0)
  {
    hide Release;
    if a in s.agents {
      var t := PutAgent(s, a, s.agents[a].(status := Offline, cur := 0));
      ReleaseKeepsCoupled(t, a, order, true);
    }
  }

  lemma CreateKeepsCoupled(s: State, source: string, visitor: string, c: string, id: string, business: bool, now: int)
    requires Coupled(s)
    ensures Coupled(CreateConversation(s, source, visitor, c, id, business, now).0)
  {
    hide Assign;
    var conv := Conversation(visitor, Waiting, NOBODY, now, 0, 0, now);
    var stored := PutConv(s, c, conv);
    PutConvKeeps(s, c, conv, NOBODY);
    AssignKeepsCoupled(stored, c, NOBODY);
    var offered := Assign(stored, c);
    PutConvKeeps(offered, c, offered.convs[c].(status := AIServing), NOBODY);
  }

  lemma AutoReplyKeepsCoupled(s: State, c: string, content: string, matched: Matched, business: bool, id: string,
                              now: int)
    requires Coupled(s) && c in s.convs && IsOpen(s.convs[c])
    ensures Coupled(AutoReply(s, c, content, matched, business, id, now).0)
  {
    hide Assign;
    var conv := s.convs[c];
    match matched
    case HumanAsked =>
      if conv.owner == NOBODY {
        PutConvKeeps(s, c, conv.(status := HumanRequested), NOBODY);
        AssignKeepsCoupled(PutConv(s, c, conv.(status := HumanRequested)), c, NOBODY);
      } else {
        PutConvKeeps(s, c, conv.(status := Assigned), NOBODY);
      }
    case _ =>
  }

  lemma VisitorMessageKeepsCoupled(s: State, c: string, clientId: string, content: string, kind: MessageType,
      urlSafe: bool, matched: Matched, business: bool, id: string, replyId: string, now: int)
    requires Coupled(s)
    ensures Coupled(AddVisitorMessage(s, c, clientId, content, kind, urlSafe, matched, business, id, replyId, now).0)
  {
    hide AutoReply;
    if c in s.convs && IsOpen(s.convs[c]) {
      var conv := s.convs[c];
      var input := NewMessage(id, clientId, FromVisitor, conv.visitor, kind, content, now);
      AppendKeeps(s, c, input);
      PutConvKeeps(Append(s, c, input), c, Touched(conv, true, now), NOBODY);
      AutoReplyKeepsCoupled(PutConv(Append(s, c, input), c, Touched(conv, true, now)),
                            c, content, matched, business, replyId, now);
    }
  }

  /** Whether an agent's message is stored, rather than refused or recognised as a retry. */
  ghost predicate Stores(s: State, a: string, c: string, clientId: string, content: string, kind: MessageType,
                         urlSafe: bool)
  {
    && c in s.convs && s.convs[c].owner == a && IsOpen(s.convs[c])
    && |Trim(clientId)| <= CLIENT_ID_LIMIT && FindByClientId(Log(s, c), FromAgent, a, clientId).None?
    && ValidUserMessage(kind, content, urlSafe)
  }

  /** An agent's message keeps ownership coupled unless the sender id is blank and the conversation is
      unowned and not merely waiting: then it is marked assigned although nobody owns it. */
  lemma AgentMessageKeepsCoupledIff(s: State, a: string, c: string, clientId: string, content: string,
                                    kind: MessageType, urlSafe: bool, id: string, now: int)
    requires Coupled(s)
    ensures Coupled(AddAgentMessage(s, a, c, clientId, content, kind, urlSafe, id, now).0)
            <==> !(a == NOBODY && Stores(s, a, c, clientId, content, kind, urlSafe) && s.convs[c].status != Waiting)
  {
    hide FindByClientId, ValidUserMessage, Trim;
    if Stores(s, a, c, clientId, content, kind, urlSafe) {
      var conv := s.convs[c];
      var m := NewMessage(id, clientId, FromAgent, a, kind, content, now);
      AppendKeeps(s, c, m);
      var status := if conv.status == AIServing || conv.status == HumanRequested then Assigned else conv.status;
      var touched := Touched(conv.(status := status), false, now);
      if a != NOBODY || conv.status == Waiting {
        PutConvKeeps(Append(s, c, m), c, touched, NOBODY);
      } else {
        var t := AddAgentMessage(s, a, c, clientId, content, kind, urlSafe, id, now).0;
        assert t.convs[c] == touched && !Owned(t.agents, touched);
      }
    }
  }

  /** In a coupled state an accepted agent message leaves its conversation assigned, except that a
      recognised retry leaves the status alone. */
  lemma AgentMessageAssigns(s: State, a: string, c: string, clientId: string, content: string, kind: MessageType,
                            urlSafe: bool, id: string, now: int)
    requires Coupled(s) && a != NOBODY
    requires AddAgentMessage(s, a, c, clientId, content, kind, urlSafe, id, now).1.Ok?
    ensures var t := AddAgentMessage(s, a, c, clientId, content, kind, urlSafe, id, now).0;
            t.convs[c].status == Assigned <==>
            s.convs[c].status == Assigned || Stores(s, a, c, clientId, content, kind, urlSafe)
  {
  }

  lemma CloseKeepsCoupled(s: State, actor: Actor, c: string, id: string, now: int)
    requires Coupled(s)
    ensures Coupled(CloseConversation(s, actor, c, id, now).0)
  {
    if c in s.convs {
      var conv, owner := s.convs[c].(status := Closed), s.convs[c].owner;
      if owner in s.agents { PutAgentKeeps(s, owner, s.agents[owner].(cur := s.agents[owner].cur - 1)); }
      PutConvKeeps(Unload(s, owner), c, conv, NOBODY);
    }
  }

  lemma TransferKeepsCoupled(s: State, actor: Actor, c: string, a: string, group: string, id: string, now: int)
    requires Coupled(s)
    ensures Coupled(TransferConversation(s, actor, c, a, group, id, now).0)
  {
    var target := TransferTarget(s, a, group);
    if c in s.convs && IsOpen(s.convs[c]) && target.Some? {
      var owner := s.convs[c].owner;
      if owner in s.agents { PutAgentKeeps(s, owner, s.agents[owner].(cur := s.agents[owner].cur - 1)); }
      TakeKeeps(Unload(s, owner), c, target.value);
    }
  }

  lemma EditKeepsCoupled(s: State, a: string, name: string, group: string, max: int, status: Option<AgentStatus>)
    requires Coupled(s)
    ensures Coupled(UpdateAgent(s, a, name, group, max, status).0)
  {
    if a in s.agents {
      var t := UpdateAgent(s, a, name, group, max, status).0;
      PutAgentKeeps(s, a, t.agents[a]);
    }
  }

  lemma SmallStepsKeepCoupled(s: State, tick: Tick)
    requires Coupled(s) && Enabled(s, tick.step)
    requires tick.step.Read? || tick.step.AISends? || tick.step.Revokes? || tick.step.TimerFires?
             || tick.step.Removes? || tick.step.Configures? || tick.step.NewAgent?
    ensures Coupled(Apply(s, tick))
  {
  }

  /** Every step keeps ownership coupled. */
  lemma StepKeepsCoupled(s: State, tick: Tick)
    requires Coupled(s) && Enabled(s, tick.step)
    ensures Coupled(Apply(s, tick))
  {
    hide CoupledBut, Coupled;
    match tick.step
    case NewConversation(source, visitor, c, id, business) =>
      CreateKeepsCoupled(s, source, visitor, c, id, business, tick.now);
    case ChangeStatus(a, status, order) => StatusKeepsCoupled(s, a, status, order);
    case EditAgent(a, name, group, max, status) => EditKeepsCoupled(s, a, name, group, max, status);
    case Disable(a, order) => DisableKeepsCoupled(s, a, order);
    case Delete(a, order) => DeleteKeepsCoupled(s, a, order);
    case VisitorSends(c, clientId, content, kind, urlSafe, matched, business, id, replyId) =>
      VisitorMessageKeepsCoupled(s, c, clientId, content, kind, urlSafe, matched, business, id, replyId, tick.now);
    case AgentSends(a, c, clientId, content, kind, urlSafe, id) =>
      AgentMessageKeepsCoupledIff(s, a, c, clientId, content, kind, urlSafe, id, tick.now);
    case Closes(actor, c, id) => CloseKeepsCoupled(s, actor, c, id, tick.now);
    case Transfers(actor, c, a, group, id) => TransferKeepsCoupled(s, actor, c, a, group, id, tick.now);
    case _ => SmallStepsKeepCoupled(s, tick);
  }

  /** So ownership is coupled in every reachable state. */
  lemma {:induction false} RunsKeepCoupled(s: State, ticks: seq<Tick>)
    requires Coupled(s) && Runs(s, ticks)
    ensures Coupled(After(s, ticks))
  {
    if ticks != [] {
      RunsKeepCoupled(s, ticks[..|ticks| - 1]);
      StepKeepsCoupled(After(s, ticks[..|ticks| - 1]), ticks[|ticks| - 1]);
    }
  }

  lemma InitialIsCoupled(entryReply: string)
    ensures Coupled(Initial(entryReply))
  {
  }
}
