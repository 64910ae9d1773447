/** The cached loads of the agents against the conversation table, over every run. */
module Accounting {
  import opened Results
  import opened Domain
  import opened Text
  import opened Selection
  import opened StoreState
  import opened StoreRuns
  import opened Ownership

  predicate Holds(conv: Conversation, a: string) { conv.owner == a && IsOpen(conv) }

  function HeldBy(convs: map<string, Conversation>, a: string): set<string> {
    set c | c in convs && Holds(convs[c], a)
  }

  /** The real load: how many open conversations the agent owns. */
  function Load(convs: map<string, Conversation>, a: string): nat { |HeldBy(convs, a)| }

  /** The cached load is never above the real one and, if exact, never below. */
  ghost predicate Tallied(s: State, a: string, exact: bool)
    requires a in s.agents
  {
    0 <= s.agents[a].cur <= Load(s.convs, a) && (exact ==> s.agents[a].cur == Load(s.convs, a))
  }

  /** leaving is exempt: the agent whose conversations are being taken away. */
  ghost predicate AccountsBut(s: State, leaving: string, exact: bool) {
    forall a :: a in s.agents && a != leaving ==> Tallied(s, a, exact)
  }

  ghost predicate Accounts(s: State, exact: bool) { AccountsBut(s, NOBODY, exact) }

  // ----- building blocks -----

  function One(b: bool): nat { if b then 1 else 0 }

  lemma LoadPut(convs: map<string, Conversation>, c: string, conv: Conversation, a: string)
    ensures Load(convs[c := conv], a)
            == Load(convs, a) - One(c in convs && Holds(convs[c], a)) + One(Holds(conv, a))
  {
    var before, after := HeldBy(convs, a), HeldBy(convs[c := conv], a);
    assert c in before <==> c in convs && Holds(convs[c], a);
    assert c in after <==> Holds(conv, a);
    assert after - {c} == before - {c};
    hide HeldBy, Holds;
    assert |before| == |before - {c}| + One(c in before);
    assert |after| == |after - {c}| + One(c in after);
  }

  lemma LoadRemove(convs: map<string, Conversation>, c: string, a: string)
    requires c in convs && !IsOpen(convs[c])
    ensures Load(convs - {c}, a) == Load(convs, a)
  {
    assert HeldBy(convs - {c}, a) == HeldBy(convs, a);
  }

  /** A change to one conversation that nobody gains or loses. */
  lemma PutKeepsAccounts(s: State, c: string, conv: Conversation, leaving: string, exact: bool)
    requires AccountsBut(s, leaving, exact)
    requires forall a :: a in s.agents && a != leaving ==>
                           (Holds(conv, a) <==> c in s.convs && Holds(s.convs[c], a))
    ensures AccountsBut(PutConv(s, c, conv), leaving, exact)
  {
    forall a | a in s.agents && a != leaving ensures Tallied(PutConv(s, c, conv), a, exact) {
      assert Tallied(s, a, exact);
      LoadPut(s.convs, c, conv, a);
    }
  }

  /** Taking a conversation that no agent holds. */
  lemma TakeKeepsAccounts(s: State, c: string, b: string, leaving: string, exact: bool)
    requires AccountsBut(s, leaving, exact) && c in s.convs && b in s.agents
    requires s.convs[c].owner == NOBODY && NOBODY !in s.agents
    ensures AccountsBut(Take(s, c, b), leaving, exact)
  {
    var t := Take(s, c, b);
    forall a | a in t.agents && a != leaving ensures Tallied(t, a, exact) {
      assert Tallied(s, a, exact);
      LoadPut(s.convs, c, t.convs[c], a);
    }
  }

  lemma AssignKeepsAccounts(s: State, c: string, leaving: string, exact: bool)
    requires AccountsBut(s, leaving, exact) && c in s.convs
    requires s.convs[c].owner == NOBODY && NOBODY !in s.agents
    ensures AccountsBut(Assign(s, c), leaving, exact)
  {
    hide AccountsBut, Take;
    if s.settings.aiMode == AlwaysAI {
      PutKeepsAccounts(s, c, s.convs[c].(status := AIServing), leaving, exact);
    } else if LeastLoaded(s.agents, "").Some? {
      TakeKeepsAccounts(s, c, LeastLoaded(s.agents, "").value, leaving, exact);
    }
  }

  lemma ReleaseOneKeepsAccounts(s: State, a: string, c: string, deleting: bool, exact: bool)
    requires AccountsBut(s, a, exact) && a in s.agents && c in s.convs && NOBODY !in s.agents
    ensures AccountsBut(ReleaseOne(s, a, c, deleting), a, exact)
  {
    hide AccountsBut, Assign;
    var conv := s.convs[c];
    if conv.owner == a && !IsOpen(conv) && deleting {
      PutKeepsAccounts(s, c, conv.(owner := NOBODY), a, exact);
    }
    if conv.owner == a && IsOpen(conv) {
      var dropped := PutConv(s, c, conv.(owner := NOBODY, status := Waiting));
      PutKeepsAccounts(s, c, dropped.convs[c], a, exact);
      AssignKeepsAccounts(dropped, c, a, exact);
      var next := Assign(dropped, c);
      if next.convs[c].owner == NOBODY {
        PutKeepsAccounts(next, c, next.convs[c].(status := AIServing), a, exact);
      }
    }
  }

  lemma {:induction false} ReleaseKeepsAccounts(s: State, a: string, order: seq<string>, deleting: bool, exact: bool)
    requires AccountsBut(s, a, exact) && a in s.agents && NOBODY !in s.agents
    requires forall c :: c in order ==> c in s.convs
    ensures AccountsBut(Release(s, a, order, deleting), a, exact)
  {
    hide AccountsBut, ReleaseOne;
    if order != [] {
      var init := order[..|order| - 1];
      ReleaseKeepsAccounts(s, a, init, deleting, exact);
      ReleaseOneKeepsAccounts(Release(s, a, init, deleting), a, order[|order| - 1], deleting, exact);
    }
  }

  /** An idle agent's conversations are taken away: every tally is right again at the end. */
  lemma ReleaseSettles(s: State, a: string, order: seq<string>, deleting: bool, exact: bool)
    requires AccountsBut(s, a, exact) && CoupledBut(s, a) && VisitsAll(order, s)
    requires a in s.agents && s.agents[a].cur == 0 && !Eligible(s.agents[a], "")
    ensures Accounts(Release(s, a, order, deleting), exact)
  {
    var t := Release(s, a, order, deleting);
    ReleaseKeepsAccounts(s, a, order, deleting, exact);
    ReleaseKeepsCoupled(s, a, order, deleting);
    assert HeldBy(t.convs, a) == {};
    assert Tallied(t, a, exact);
  }

  lemma {:induction false} PickUpKeepsAccounts(s: State, a: string, order: seq<string>, exact: bool)
    requires Coupled(s) && Accounts(s, exact) && a in s.agents && !s.agents[a].disabled
    requires forall c :: c in order ==> c in s.convs
    ensures Accounts(PickUp(s, a, order), exact)
    decreases |order|
  {
    if order != [] && s.agents[a].cur < s.agents[a].max {
      var c := order[0];
      if Queued(s.convs[c]) {
        TakeKeepsAccounts(s, c, a, NOBODY, exact);
        TakeKeeps(s, c, a);
        PickUpKeepsAccounts(Take(s, c, a), a, order[1..], exact);
      } else {
        PickUpKeepsAccounts(s, a, order[1..], exact);
      }
    }
  }

  // ----- operations -----

  /** A change to an agent's record that leaves the cached load alone, or concerns the exempt agent. */
  lemma PutAgentKeepsAccounts(s: State, a: string, agent: Agent, leaving: string, exact: bool)
    requires AccountsBut(s, leaving, exact)
    requires a == leaving || (a in s.agents && agent.cur == s.agents[a].cur)
    ensures AccountsBut(PutAgent(s, a, agent), leaving, exact)
  {
  }

  lemma ReleasingKeepsAccounts(s: State, a: string, idle: Agent, order: seq<string>, deleting: bool, exact: bool)
    requires Coupled(s) && Accounts(s, exact) && a in s.agents && VisitsAll(order, s)
    requires idle.status == Offline && idle.cur == 0
    ensures Accounts(Release(PutAgent(s, a, idle), a, order, deleting), exact)
  {
    hide Release;
    assert AccountsBut(s, a, exact);
    PutAgentKeepsAccounts(s, a, idle, a, exact);
    ReleaseSettles(PutAgent(s, a, idle), a, order, deleting, exact);
  }

  lemma StatusKeepsAccounts(s: State, a: string, status: AgentStatus, order: seq<string>, exact: bool)
    requires Coupled(s) && Accounts(s, exact) && VisitsAll(order, s)
    ensures Accounts(SetAgentStatus(s, a, status, order).0, exact)
  {
    hide AccountsBut, Release, PickUp, Released, PickedUp;
    if a in s.agents && !(s.agents[a].disabled && status == Online) {
      var agent := s.agents[a].(status := status);
      match status
      case Offline =>
        assert PutAgent(PutAgent(s, a, agent), a, agent.(cur := 0)) == PutAgent(s, a, agent.(cur := 0));
        ReleasingKeepsAccounts(s, a, agent.(cur := 0), order, false, exact);
      case _ =>
        PutAgentKeepsAccounts(s, a, agent, NOBODY, exact);
        if status == Online {
          PutAgentKeeps(s, a, agent);
          PickUpKeepsAccounts(PutAgent(s, a, agent), a, order, exact);
        }
    }
  }

  lemma DeleteKeepsAccounts(s: State, a: string, order: seq<string>, exact: bool)
    requires Coupled(s) && Accounts(s, exact) && VisitsAll(order, s)
    ensures Accounts(DeleteAgent(s, a, order).0, exact)
  {
    hide Release;
    if a in s.agents {
      ReleasingKeepsAccounts(s, a, s.agents[a].(status := Offline, cur := 0), order, true, exact);
      var t := Release(PutAgent(s, a, s.agents[a].(status := Offline, cur := 0)), a, order, true);
      forall b | b in t.agents && b != a ensures Tallied(t.(agents := t.agents - {a}), b, exact) {
        assert Tallied(t, b, exact);
      }
    }
  }

  lemma CreateKeepsAccounts(s: State, source: string, visitor: string, c: string, id: string, business: bool,
                            now: int, exact: bool)
    requires Coupled(s) && Accounts(s, exact) && c !in s.convs
    ensures Accounts(CreateConversation(s, source, visitor, c, id, business, now).0, exact)
  {
    hide AccountsBut, Assign;
    var conv := Conversation(visitor, Waiting, NOBODY, now, 0, 0, now);
    PutKeepsAccounts(s, c, conv, NOBODY, exact);
    AssignKeepsAccounts(PutConv(s, c, conv), c, NOBODY, exact);
    var offered := Assign(PutConv(s, c, conv), c);
    if offered.convs[c].owner == NOBODY {
      PutKeepsAccounts(offered, c, offered.convs[c].(status := AIServing), NOBODY, exact);
    }
    AppendKeepsAccounts(offered, c, exact);
    AppendKeepsAccounts(PutConv(offered, c, offered.convs[c].(status := AIServing)), c, exact);
  }

  lemma AppendKeepsAccounts(s: State, c: string, exact: bool)
    ensures forall m :: Accounts(s, exact) ==> Accounts(Append(s, c, m), exact)
  {
  }

  lemma VisitorMessageKeepsAccounts(s: State, c: string, clientId: string, content: string, kind: MessageType,
      urlSafe: bool, matched: Matched, business: bool, id: string, replyId: string, now: int, exact: bool)
    requires Coupled(s) && Accounts(s, exact)
    ensures var t := AddVisitorMessage(s, c, clientId, content, kind, urlSafe, matched, business, id, replyId, now).0;
            Accounts(t, exact)
  {
    hide AccountsBut, AutoReply, FindByClientId, ValidUserMessage;
    if c in s.convs && IsOpen(s.convs[c]) {
      var conv := s.convs[c];
      var input := NewMessage(id, clientId, FromVisitor, conv.visitor, kind, content, now);
      AppendKeepsAccounts(s, c, exact);
      PutKeepsAccounts(Append(s, c, input), c, Touched(conv, true, now), NOBODY, exact);
      AutoReplyKeepsAccounts(PutConv(Append(s, c, input), c, Touched(conv, true, now)),
                             c, content, matched, business, replyId, now, exact);
    }
  }

  lemma AutoReplyKeepsAccounts(s: State, c: string, content: string, matched: Matched, business: bool,
                               id: string, now: int, exact: bool)
    requires NOBODY !in s.agents && Accounts(s, exact) && c in s.convs && IsOpen(s.convs[c])
    ensures Accounts(AutoReply(s, c, content, matched, business, id, now).0, exact)
  {
    hide AccountsBut, Assign;
    var conv := s.convs[c];
    AppendKeepsAccounts(s, c, exact);
    match matched
    case HumanAsked =>
      var marked, requested := PutConv(s, c, conv.(status := Assigned)), PutConv(s, c, conv.(status := HumanRequested));
      PutKeepsAccounts(s, c, marked.convs[c], NOBODY, exact);
      PutKeepsAccounts(s, c, requested.convs[c], NOBODY, exact);
      AppendKeepsAccounts(marked, c, exact);
      if conv.owner == NOBODY {
        AssignKeepsAccounts(requested, c, NOBODY, exact);
        AppendKeepsAccounts(Assign(requested, c), c, exact);
      }
    case _ =>
      PutKeepsAccounts(s, c, conv.(status := AIServing), NOBODY, exact);
  }

  /** Whether a close request is accepted. */
  predicate MayClose(s: State, actor: Actor, c: string) {
    && c in s.convs
    && (actor.kind == AgentAccount ==> s.convs[c].owner == actor.id)
    && (actor.kind == VisitorAccount ==> c == actor.id)
  }

  lemma UnloadEffect(s: State, owner: string, a: string)
    requires a in s.agents
    ensures a in Unload(s, owner).agents && Unload(s, owner).convs == s.convs
    ensures Unload(s, owner).agents[a].cur
            == s.agents[a].cur - One(a == owner && a != NOBODY && s.agents[a].cur > 0)
  {
  }

  /** Closing never lets a cached load exceed the real one. */
  lemma CloseKeepsBound(s: State, actor: Actor, c: string, id: string, now: int)
    requires Accounts(s, false)
    ensures Accounts(CloseConversation(s, actor, c, id, now).0, false)
  {
    if MayClose(s, actor, c) {
      var t := CloseConversation(s, actor, c, id, now).0;
      forall a | a in t.agents && a != NOBODY ensures Tallied(t, a, false) {
        assert Tallied(s, a, false);
        LoadPut(s.convs, c, s.convs[c].(status := Closed), a);
        UnloadEffect(s, s.convs[c].owner, a);
      }
    }
  }

  /** An accepted close of a closed conversation whose owner still has some load to lose. */
  predicate LosesCount(s: State, actor: Actor, c: string) {
    && MayClose(s, actor, c) && !IsOpen(s.convs[c])
    && s.convs[c].owner in s.agents && s.agents[s.convs[c].owner].cur > 0
  }

  /** Closing keeps the loads exact precisely when it does not close a closed conversation whose owner
      still has some load to lose. */
  lemma CloseKeepsExactIff(s: State, actor: Actor, c: string, id: string, now: int)
    requires Coupled(s) && Accounts(s, true)
    ensures Accounts(CloseConversation(s, actor, c, id, now).0, true)
            <==> !LosesCount(s, actor, c)
  {
    if MayClose(s, actor, c) {
      var t, owner := CloseConversation(s, actor, c, id, now).0, s.convs[c].owner;
      forall a | a in s.agents
        ensures Load(t.convs, a) == Load(s.convs, a) - One(Holds(s.convs[c], a))
        ensures a in t.agents && t.agents[a].cur == s.agents[a].cur - One(a == owner && s.agents[a].cur > 0)
      {
        LoadPut(s.convs, c, s.convs[c].(status := Closed), a);
        UnloadEffect(s, owner, a);
      }
      forall a | a in s.agents && a != NOBODY && (a != owner || IsOpen(s.convs[c]) || s.agents[a].cur == 0)
        ensures Tallied(t, a, true)
      {
        assert Tallied(s, a, true);
      }
      if owner != NOBODY && !IsOpen(s.convs[c]) && s.agents[owner].cur > 0 {
        assert Tallied(s, owner, true) && !Tallied(t, owner, true);
      }
    }
  }

  lemma TransferKeepsAccounts(s: State, actor: Actor, c: string, a: string, group: string, id: string, now: int,
                              exact: bool)
    requires Coupled(s) && Accounts(s, exact)
    ensures Accounts(TransferConversation(s, actor, c, a, group, id, now).0, exact)
  {
    var target := TransferTarget(s, a, group);
    AppendKeepsAccounts(s, c, exact);
    if c in s.convs && IsOpen(s.convs[c]) && target.Some? && s.convs[c].owner != target.value {
      var mid := Unload(s, s.convs[c].owner);
      var t := Take(mid, c, target.value);
      forall b | b in t.agents && b != NOBODY ensures Tallied(t, b, exact) {
        assert Tallied(s, b, exact);
        LoadPut(s.convs, c, t.convs[c], b);
        UnloadEffect(s, s.convs[c].owner, b);
      }
      AppendKeepsAccounts(t, c, exact);
    }
  }

  lemma NewAgentKeepsAccounts(s: State, a: string, agent: Agent, exact: bool)
    requires Coupled(s) && Accounts(s, exact) && a !in s.agents && a != NOBODY && agent.cur == 0
    ensures Accounts(PutAgent(s, a, agent), exact)
  {
  }

  lemma EditKeepsAccounts(s: State, a: string, name: string, group: string, max: int, status: Option<AgentStatus>,
                          exact: bool)
    requires Accounts(s, exact)
    ensures Accounts(UpdateAgent(s, a, name, group, max, status).0, exact)
  {
  }

  /** Messages, revocations, reads, escalation: only the log and one open conversation's record change. */
  lemma MessageStepsKeepAccounts(s: State, tick: Tick, exact: bool)
    requires Accounts(s, exact) && Enabled(s, tick.step)
    requires tick.step.Read? || tick.step.AISends? || tick.step.AgentSends? || tick.step.Revokes?
             || tick.step.TimerFires?
    ensures Accounts(Apply(s, tick), exact)
  {
    hide AccountsBut, FindByClientId, ValidUserMessage, Trim;
    var t, c := Apply(s, tick), tick.step.c;
    if c in s.convs {
      assert t.agents == s.agents && t.convs == s.convs[c := t.convs[c]];
      PutKeepsAccounts(s, c, t.convs[c], NOBODY, exact);
      SameTables(PutConv(s, c, t.convs[c]), t, exact);
    }
  }

  lemma SameTables(s: State, t: State, exact: bool)
    requires Accounts(s, exact) && t.agents == s.agents && t.convs == s.convs
    ensures Accounts(t, exact)
  {
  }

  lemma RemoveKeepsAccounts(s: State, actor: Actor, c: string, exact: bool)
    requires Accounts(s, exact)
    ensures Accounts(DeleteConversation(s, actor, c).0, exact)
  {
    var t := DeleteConversation(s, actor, c).0;
    forall a | a in t.agents && a != NOBODY ensures Tallied(t, a, exact) {
      assert Tallied(s, a, exact);
      if c in s.convs && !IsOpen(s.convs[c]) { LoadRemove(s.convs, c, a); }
    }
  }

  predicate Miscounts(s: State, step: Step) { step.Closes? && LosesCount(s, step.actor, step.c) }

  /** Every step keeps the bound; every step but a close that loses count keeps the loads exact. */
  lemma StepKeepsAccounts(s: State, tick: Tick, exact: bool)
    requires Coupled(s) && Accounts(s, exact) && Enabled(s, tick.step)
    requires exact ==> !Miscounts(s, tick.step)
    ensures Accounts(Apply(s, tick), exact)
  {
    hide AccountsBut, CoupledBut, Trim;
    match tick.step
    case NewConversation(source, visitor, c, id, business) =>
      CreateKeepsAccounts(s, source, visitor, c, id, business, tick.now, exact);
    case ChangeStatus(a, status, order) => StatusKeepsAccounts(s, a, status, order, exact);
    case NewAgent(a, name, group, max) =>
      if CreateAgent(s, a, name, group, max).1.Ok? {
        NewAgentKeepsAccounts(s, a, CreateAgent(s, a, name, group, max).1.value, exact);
      }
    case EditAgent(a, name, group, max, status) => EditKeepsAccounts(s, a, name, group, max, status, exact);
    case Disable(a, order) =>
      if a in s.agents {
        ReleasingKeepsAccounts(s, a, s.agents[a].(disabled := true, status := Offline, cur := 0), order, false, exact);
      }
    case Delete(a, order) => DeleteKeepsAccounts(s, a, order, exact);
    case VisitorSends(c, clientId, content, kind, urlSafe, matched, business, id, replyId) =>
      VisitorMessageKeepsAccounts(s, c, clientId, content, kind, urlSafe, matched, business, id, replyId, tick.now,
          exact);
    case Closes(actor, c, id) =>
      if exact { CloseKeepsExactIff(s, actor, c, id, tick.now); } else { CloseKeepsBound(s, actor, c, id, tick.now); }
    case Removes(actor, c) => RemoveKeepsAccounts(s, actor, c, exact);
    case Transfers(actor, c, a, group, id) => TransferKeepsAccounts(s, actor, c, a, group, id, tick.now, exact);
    case Configures(next) => SameTables(s, s.(settings := next), exact);
    case _ => MessageStepsKeepAccounts(s, tick, exact);
  }

  /** From exact loads a step keeps them exact exactly unless it is such a close. */
  lemma StepKeepsExactIff(s: State, tick: Tick)
    requires Coupled(s) && Accounts(s, true) && Enabled(s, tick.step)
    ensures Accounts(Apply(s, tick), true) <==> !Miscounts(s, tick.step)
  {
    hide AccountsBut, CoupledBut, LosesCount, CloseConversation;
    if Miscounts(s, tick.step) {
      CloseKeepsExactIff(s, tick.step.actor, tick.step.c, tick.step.msgId, tick.now);
    } else {
      StepKeepsAccounts(s, tick, true);
      hide Apply;
    }
  }

  // ----- whole runs -----

  ghost predicate NeverMiscounts(s: State, ticks: seq<Tick>)
    requires Runs(s, ticks)
    decreases |ticks|
  {
    ticks == [] || (NeverMiscounts(s, ticks[..|ticks| - 1])
                    && !Miscounts(After(s, ticks[..|ticks| - 1]), ticks[|ticks| - 1].step))
  }

  /** Over every run cached loads stay between zero and the real loads; over every run in which no close
      loses count they equal the real loads. */
  lemma {:induction false} RunsKeepAccounts(s: State, ticks: seq<Tick>, exact: bool)
    requires Coupled(s) && Accounts(s, exact) && Runs(s, ticks)
    requires exact ==> NeverMiscounts(s, ticks)
    ensures Accounts(After(s, ticks), exact)
  {
    hide AccountsBut, CoupledBut, Apply;
    if ticks != [] {
      var init := ticks[..|ticks| - 1];
      RunsKeepAccounts(s, init, exact);
      RunsKeepCoupled(s, init);
      StepKeepsAccounts(After(s, init), ticks[|ticks| - 1], exact);
    }
  }

  lemma InitialAccounts(entryReply: string)
    ensures Accounts(Initial(entryReply), true)
  {
  }

  // ----- totals -----

  ghost function TotalLoad(agents: map<string, Agent>, ids: set<string>): int
    requires ids <= agents.Keys
  {
    if ids == {} then 0
    else
      var a :| a in ids;
      agents[a].cur + TotalLoad(agents, ids - {a})
  }

  lemma {:induction false} TotalOverAgents(s: State, ids: set<string>)
    requires Accounts(s, true) && ids <= s.agents.Keys && NOBODY !in ids
    ensures TotalLoad(s.agents, ids) == |HeldByAny(s.convs, ids)|
  {
    if ids == {} {
      assert HeldByAny(s.convs, ids) == {};
    } else {
      var a :| a in ids && TotalLoad(s.agents, ids) == s.agents[a].cur + TotalLoad(s.agents, ids - {a});
      TotalOverAgents(s, ids - {a});
      assert Tallied(s, a, true);
      HeldByOneMore(s.convs, ids, a);
    }
  }

  function HeldByAny(convs: map<string, Conversation>, ids: set<string>): set<string> {
    set c | c in convs && IsOpen(convs[c]) && convs[c].owner in ids
  }

  lemma HeldByOneMore(convs: map<string, Conversation>, ids: set<string>, a: string)
    requires a in ids
    ensures |HeldByAny(convs, ids)| == |HeldByAny(convs, ids - {a})| + Load(convs, a)
  {
    var others := HeldByAny(convs, ids - {a});
    assert HeldByAny(convs, ids) == others + HeldBy(convs, a);
    assert others !! HeldBy(convs, a);
  }

  /** With exact loads, the loads add up to the number of open conversations that have an owner. */
  lemma TotalIsOwnedOpen(s: State)
    requires Coupled(s) && Accounts(s, true)
    ensures TotalLoad(s.agents, s.agents.Keys)
            == |set c | c in s.convs && IsOpen(s.convs[c]) && s.convs[c].owner != NOBODY|
  {
    TotalOverAgents(s, s.agents.Keys);
    assert HeldByAny(s.convs, s.agents.Keys)
        == (set c | c in s.convs && IsOpen(s.convs[c]) && s.convs[c].owner != NOBODY) by {
      forall c | c in s.convs && IsOpen(s.convs[c]) && s.convs[c].owner != NOBODY
        ensures s.convs[c].owner in s.agents.Keys
      {
        assert Owned(s.agents, s.convs[c]);
      }
    }
  }

  // ----- the witness -----

  const ADMIN := Actor(AdminAccount, "admin_super")

  /** A new conversation goes to the only agent, who is online with room. */
  lemma SoleAgentTakes(s: State, a: string, visitor: string, c: string, id: string, now: int)
    requires s.agents.Keys == {a} && Eligible(s.agents[a], "") && a != NOBODY
    requires c != "" && c !in s.convs && c !in s.logs
    requires s.settings == Settings(true, HumanFirst, true, "", 60) && id != "" && Trim(id) == id
    ensures var tick := Tick(now, NewConversation("web", visitor, c, id, false));
            Enabled(s, tick.step) &&
            Apply(s, tick) == s.(agents := map[a := s.agents[a].(cur := s.agents[a].cur + 1)],
                                 convs := s.convs[c := Conversation(visitor, Assigned, a, now, 0, 0, now)])
  {
    LeastUnique(s.agents, "", a);
    assert s.agents[a := s.agents[a].(cur := s.agents[a].cur + 1)]
           == map[a := s.agents[a].(cur := s.agents[a].cur + 1)];
    var stored := PutConv(s, c, Conversation(visitor, Waiting, NOBODY, now, 0, 0, now));
    assert Take(stored, c, a).convs == s.convs[c := Conversation(visitor, Assigned, a, now, 0, 0, now)];
    assert TrimRight(TrimLeft("")) == "";
    assert |"web"| == 3 && Trim("web") == "web";
  }

  function BusySeed(load: int, first: ConversationStatus, log: seq<Message>): State {
    State(map[SEED_AGENT_ID := SEED_AGENT.(status := Online, cur := load)],
          map["c1" := Conversation("v1", first, SEED_AGENT_ID, 2, 0, 0, 2),
              "c2" := Conversation("v2", Assigned, SEED_AGENT_ID, 3, 0, 0, 3)],
          if log == [] then map[] else map["c1" := log],
          Settings(true, HumanFirst, true, "", 60))
  }

  /** The seed agent goes online and gets two conversations. */
  lemma TwoConversations() returns (ticks: seq<Tick>)
    ensures Runs(Initial(""), ticks) && After(Initial(""), ticks) == BusySeed(2, Assigned, [])
  {
    var a, s0 := SEED_AGENT_ID, Initial("");
    var t1 := Tick(1, ChangeStatus(a, Online, []));
    var t2 := Tick(2, NewConversation("web", "v1", "c1", "m", false));
    var t3 := Tick(3, NewConversation("web", "v2", "c2", "m", false));
    RunsSnoc(s0, [], t1);
    hide Runs, After;
    var s1 := State(map[a := SEED_AGENT.(status := Online)], map[], map[], s0.settings);
    assert After(s0, [] + [t1]) == s1;
    hide Apply;
    SoleAgentTakes(s1, a, "v1", "c1", "m", 2);
    RunsSnoc(s0, [] + [t1], t2);
    var s2 := After(s0, [] + [t1] + [t2]);
    SoleAgentTakes(s2, a, "v2", "c2", "m", 3);
    RunsSnoc(s0, [] + [t1] + [t2], t3);
    ticks := [] + [t1] + [t2] + [t3];
    assert After(s0, ticks).convs == BusySeed(2, Assigned, []).convs;
  }

  lemma CloseFirst(load: int, first: ConversationStatus, log: seq<Message>, id: string, now: int)
    requires load > 0
    ensures CloseConversation(BusySeed(load, first, log), ADMIN, "c1", id, now).0
            == BusySeed(load - 1, Closed,
                        log + [NewMessage(id, "", FromSystem, SYSTEM_ID, SystemNotice, CLOSED_TEXT, now)])
  {
    var s, m := BusySeed(load, first, log), NewMessage(id, "", FromSystem, SYSTEM_ID, SystemNotice, CLOSED_TEXT, now);
    var t := CloseConversation(s, ADMIN, "c1", id, now).0;
    assert Log(s, "c1") == log;
    assert t.agents == BusySeed(load - 1, Closed, log + [m]).agents;
    assert t.logs == map["c1" := log + [m]];
  }

  /** Closing the first of them twice leaves a cached load of zero beside an open conversation. */
  lemma TwoClosesLoseCount() returns (ticks: seq<Tick>)
    ensures Runs(Initial(""), ticks) && !Accounts(After(Initial(""), ticks), true)
  {
    var before := TwoConversations();
    var t1, t2 := Tick(4, Closes(ADMIN, "c1", "m")), Tick(5, Closes(ADMIN, "c1", "n"));
    var note := NewMessage("m", "", FromSystem, SYSTEM_ID, SystemNotice, CLOSED_TEXT, 4);
    var last := NewMessage("n", "", FromSystem, SYSTEM_ID, SystemNotice, CLOSED_TEXT, 5);
    hide Runs, After, CloseConversation, AccountsBut;
    assert Trim("m") == "m" && Trim("n") == "n";
    assert Log(BusySeed(2, Assigned, []), "c1") == [];
    CloseFirst(2, Assigned, [], "m", 4);
    assert [] + [note] == [note];
    RunsSnoc(Initial(""), before, t1);
    assert Log(BusySeed(1, Closed, [note]), "c1") == [note];
    CloseFirst(1, Closed, [note], "n", 5);
    RunsSnoc(Initial(""), before + [t1], t2);
    ticks := before + [t1] + [t2];
    assert After(Initial(""), ticks) == BusySeed(0, Closed, [note] + [last]);
    CountIsLost([note] + [last]);
  }

  lemma CountIsLost(log: seq<Message>)
    ensures !Accounts(BusySeed(0, Closed, log), true)
  {
    var s := BusySeed(0, Closed, log);
    assert HeldBy(s.convs, SEED_AGENT_ID) == {"c2"};
    assert !Tallied(s, SEED_AGENT_ID, true);
  }
}
