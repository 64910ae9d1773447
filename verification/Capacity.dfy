/** Two things one might expect of every reachable state, and exactly which steps break them: no agent
    carries more than the maximum, and no offline agent owns an open conversation. */
module Capacity {
  import opened Results
  import opened Domain
  import opened Text
  import opened Selection
  import opened StoreState
  import opened StoreRuns
  import opened Ownership
  import opened Accounting
  import opened Handover

  ghost predicate Fits(s: State) {
    forall a :: a in s.agents ==> 0 <= s.agents[a].cur <= s.agents[a].max
  }

  ghost predicate OfflineIdle(s: State) {
    forall c :: c in s.convs && IsOpen(s.convs[c]) && s.convs[c].owner in s.agents ==>
                  s.agents[s.convs[c].owner].status != Offline
  }

  /** An accepted edit lowers the maximum below the load, or a transfer names an agent that is full. */
  ghost predicate Overloads(s: State, step: Step) {
    match step
    case EditAgent(a, name, group, max, _) => EditAccepted(s, a, name, group, max) && 0 < max < s.agents[a].cur
    case Transfers(actor, c, a, _, _) => Moves(s, actor, c, a) && s.agents[Trim(a)].cur >= s.agents[Trim(a)].max
    case _ => false
  }

  /** An accepted edit sets an agent offline who still owns work, or a transfer names an offline agent. */
  ghost predicate Strands(s: State, step: Step) {
    match step
    case EditAgent(a, name, group, max, status) =>
      EditAccepted(s, a, name, group, max) && status == Some(Offline) && HeldBy(s.convs, a) != {}
    case Transfers(actor, c, a, _, _) => Moves(s, actor, c, a) && s.agents[Trim(a)].status == Offline
    case _ => false
  }

  predicate EditAccepted(s: State, a: string, name: string, group: string, max: int) {
    a in s.agents && |Trim(name)| <= NAME_LIMIT && |Trim(group)| <= NAME_LIMIT && 0 <= max <= LOAD_LIMIT
  }

  /** The transfer names an agent and the conversation changes hands. */
  predicate Moves(s: State, actor: Actor, c: string, a: string) {
    && actor.kind == AdminAccount && c in s.convs && IsOpen(s.convs[c])
    && Trim(a) != "" && Trim(a) in s.agents && !s.agents[Trim(a)].disabled && s.convs[c].owner != Trim(a)
  }

  // ----- dispatch -----

  /** Dispatch picks only agents who are online and have room. */
  lemma AssignKeeps(s: State, c: string)
    requires c in s.convs
    ensures Fits(s) ==> Fits(Assign(s, c))
    ensures OfflineIdle(s) && (s.convs[c].owner == NOBODY || IsOpen(s.convs[c])) && NOBODY !in s.agents
            ==> OfflineIdle(Assign(s, c))
  {
  }

  lemma {:induction false} PickUpKeeps(s: State, a: string, order: seq<string>)
    requires a in s.agents && forall c :: c in order ==> c in s.convs
    ensures Fits(s) ==> Fits(PickUp(s, a, order))
    ensures OfflineIdle(s) && s.agents[a].status == Online ==> OfflineIdle(PickUp(s, a, order))
    decreases |order|
  {
    if order != [] && s.agents[a].cur < s.agents[a].max {
      PickUpKeeps(if Queued(s.convs[order[0]]) then Take(s, order[0], a) else s, a, order[1..]);
    }
  }

  /** Taking an agent's work away overloads nobody and strands nothing. */
  lemma VacatedKeeps(s: State, t: State, a: string, deleting: bool)
    requires Vacated(s, t, a, deleting) && t.agents.Keys <= s.agents.Keys
    requires a in t.agents ==> t.agents[a].cur == 0 && t.agents[a].max == s.agents[a].max
    ensures Fits(s) ==> Fits(t)
    ensures OfflineIdle(s) ==> OfflineIdle(t)
  {
    if Fits(s) {
      forall b | b in t.agents ensures 0 <= t.agents[b].cur <= t.agents[b].max {
        if b != a { assert LoadHandedOver(s, t, a, b); }
      }
    }
    if OfflineIdle(s) {
      forall c | c in t.convs && IsOpen(t.convs[c]) && t.convs[c].owner in t.agents
        ensures t.agents[t.convs[c].owner].status != Offline
      {
        StillServed(s, t, a, deleting, c);
      }
    }
  }

  lemma StillServed(s: State, t: State, a: string, deleting: bool, c: string)
    requires Vacated(s, t, a, deleting) && OfflineIdle(s) && c in t.convs && IsOpen(t.convs[c])
    requires t.agents.Keys <= s.agents.Keys && t.convs[c].owner in t.agents
    ensures t.agents[t.convs[c].owner].status != Offline
  {
    hide LeftOnlyWhenFull;
    var b := t.convs[c].owner;
    assert b != a;
    assert LoadHandedOver(s, t, a, b);
    if Holds(s.convs[c], a) { assert c in Received(s.convs, t.convs, a, b); }
  }

  lemma ReleasingStepKeeps(s: State, tick: Tick)
    requires Coupled(s) && Enabled(s, tick.step)
    requires tick.step.ChangeStatus? || tick.step.Disable? || tick.step.Delete?
    ensures Fits(s) ==> Fits(Apply(s, tick))
    ensures OfflineIdle(s) ==> OfflineIdle(Apply(s, tick))
  {
    hide Vacated, Release, Released, PickUp, PickedUp, CoupledBut;
    match tick.step
    case ChangeStatus(a, status, order) =>
      if a in s.agents && !(s.agents[a].disabled && status == Online) {
        match status
        case Offline =>
          OfflineVacates(s, a, order);
          hide SetAgentStatus;
          VacatedKeeps(s, Apply(s, tick), a, false);
        case Online => PickUpKeeps(PutAgent(s, a, s.agents[a].(status := Online)), a, order);
        case Busy =>
      }
    case Disable(a, order) =>
      if a in s.agents {
        DisableVacates(s, a, order);
        hide DisableAgent;
        VacatedKeeps(s, Apply(s, tick), a, false);
      }
    case Delete(a, order) =>
      if a in s.agents {
        DeleteVacates(s, a, order);
        hide DeleteAgent;
        VacatedKeeps(s, Apply(s, tick), a, true);
      }
  }

  // ----- messages -----

  lemma CreationKeeps(s: State, tick: Tick)
    requires Coupled(s) && Enabled(s, tick.step) && tick.step.NewConversation?
    ensures Fits(s) ==> Fits(Apply(s, tick))
    ensures OfflineIdle(s) ==> OfflineIdle(Apply(s, tick))
  {
    hide Assign, Trim;
    var c := tick.step.c;
    AssignKeeps(PutConv(s, c, Conversation(tick.step.visitor, Waiting, NOBODY, tick.now, 0, 0, tick.now)), c);
  }

  lemma AutoReplyKeeps(s: State, c: string, content: string, matched: Matched, business: bool, id: string, now: int)
    requires c in s.convs && IsOpen(s.convs[c]) && NOBODY !in s.agents
    ensures var t := AutoReply(s, c, content, matched, business, id, now).0;
            (Fits(s) ==> Fits(t)) && (OfflineIdle(s) ==> OfflineIdle(t))
  {
    hide Assign, Trim;
    if matched.HumanAsked? {
      AssignKeeps(PutConv(s, c, s.convs[c].(status := HumanRequested)), c);
    }
  }

  lemma VisitorMessageKeeps(s: State, tick: Tick)
    requires Coupled(s) && Enabled(s, tick.step) && tick.step.VisitorSends?
    ensures Fits(s) ==> Fits(Apply(s, tick))
    ensures OfflineIdle(s) ==> OfflineIdle(Apply(s, tick))
  {
    hide AutoReply, FindByClientId, ValidUserMessage, Trim;
    var step := tick.step;
    if step.c in s.convs && IsOpen(s.convs[step.c]) {
      var conv := s.convs[step.c];
      var input := NewMessage(step.msgId, step.clientId, FromVisitor, conv.visitor, step.kind, step.content, tick.now);
      AutoReplyKeeps(PutConv(Append(s, step.c, input), step.c, Touched(conv, true, tick.now)), step.c,
                     step.content, step.matched, step.businessTime, step.replyId, tick.now);
    }
  }

  lemma PlainStepKeeps(s: State, tick: Tick)
    requires Coupled(s) && Enabled(s, tick.step)
    requires tick.step.Closes? || tick.step.Removes? || tick.step.Configures? || tick.step.NewAgent?
    ensures Fits(s) ==> Fits(Apply(s, tick))
    ensures OfflineIdle(s) ==> OfflineIdle(Apply(s, tick))
  {
    hide Trim;
  }

  lemma MessageStepKeeps(s: State, tick: Tick)
    requires Enabled(s, tick.step)
    requires tick.step.Read? || tick.step.AISends? || tick.step.AgentSends? || tick.step.Revokes?
             || tick.step.TimerFires?
    ensures Fits(s) ==> Fits(Apply(s, tick))
    ensures OfflineIdle(s) ==> OfflineIdle(Apply(s, tick))
  {
    hide FindByClientId, ValidUserMessage, Trim;
  }

  // ----- the two steps that can break either -----

  lemma EditKeepsIff(s: State, a: string, name: string, group: string, max: int, status: Option<AgentStatus>)
    ensures var t := UpdateAgent(s, a, name, group, max, status).0; var step := EditAgent(a, name, group, max, status);
            && (Fits(s) ==> (Fits(t) <==> !Overloads(s, step)))
            && (OfflineIdle(s) ==> (OfflineIdle(t) <==> !Strands(s, step)))
  {
    hide Trim;
    var t := UpdateAgent(s, a, name, group, max, status).0;
    if EditAccepted(s, a, name, group, max) {
      assert t.agents == s.agents[a := t.agents[a]] && t.convs == s.convs;
      assert forall c :: c in s.convs && IsOpen(s.convs[c]) && s.convs[c].owner == a ==> c in HeldBy(s.convs, a);
      if c :| c in HeldBy(s.convs, a) {
        assert IsOpen(t.convs[c]) && t.convs[c].owner == a;
      }
    }
  }

  lemma TransferKeepsIff(s: State, actor: Actor, c: string, a: string, group: string, id: string, now: int)
    requires Coupled(s)
    ensures var t := TransferConversation(s, actor, c, a, group, id, now).0;
            var step := Transfers(actor, c, a, group, id);
            && (Fits(s) ==> (Fits(t) <==> !Overloads(s, step)))
            && (OfflineIdle(s) ==> (OfflineIdle(t) <==> !Strands(s, step)))
  {
    hide Trim, Ahead, CoupledBut;
    var t := TransferConversation(s, actor, c, a, group, id, now).0;
    if Moves(s, actor, c, a) {
      var target := Trim(a);
      assert t.agents[target] == s.agents[target].(cur := s.agents[target].cur + 1);
      assert t.convs[c].owner == target && IsOpen(t.convs[c]);
    }
  }

  // ----- every step -----

  /** A step keeps every load within the maximum unless it lowers the maximum below the load or transfers
      to a named agent who is full; and it keeps offline agents idle unless it sets a working agent offline
      by an edit or transfers to a named agent who is offline. */
  lemma StepKeepsIff(s: State, tick: Tick)
    requires Coupled(s) && Enabled(s, tick.step)
    ensures Fits(s) ==> (Fits(Apply(s, tick)) <==> !Overloads(s, tick.step))
    ensures OfflineIdle(s) ==> (OfflineIdle(Apply(s, tick)) <==> !Strands(s, tick.step))
  {
    hide Fits, OfflineIdle, CoupledBut, SetAgentStatus, DisableAgent, DeleteAgent, AddVisitorMessage,
         CreateConversation, UpdateAgent, TransferConversation;
    match tick.step
    case ChangeStatus(_, _, _) => ReleasingStepKeeps(s, tick);
    case Disable(_, _) => ReleasingStepKeeps(s, tick);
    case Delete(_, _) => ReleasingStepKeeps(s, tick);
    case NewConversation(_, _, _, _, _) => CreationKeeps(s, tick);
    case VisitorSends(_, _, _, _, _, _, _, _, _) => VisitorMessageKeeps(s, tick);
    case EditAgent(a, name, group, max, status) => EditKeepsIff(s, a, name, group, max, status);
    case Transfers(actor, c, a, group, id) => TransferKeepsIff(s, actor, c, a, group, id, tick.now);
    case Closes(_, _, _) => PlainStepKeeps(s, tick);
    case Removes(_, _) => PlainStepKeeps(s, tick);
    case Configures(_) => PlainStepKeeps(s, tick);
    case NewAgent(_, _, _, _) => PlainStepKeeps(s, tick);
    case _ => MessageStepKeeps(s, tick);
  }

  // ----- whole runs -----

  ghost predicate NoneBreaks(s: State, ticks: seq<Tick>)
    requires Runs(s, ticks)
    decreases |ticks|
  {
    ticks == [] || (var init, step := ticks[..|ticks| - 1], ticks[|ticks| - 1].step;
                    NoneBreaks(s, init) && !Overloads(After(s, init), step) && !Strands(After(s, init), step))
  }

  /** A run without such steps keeps both throughout. */
  lemma {:induction false} RunsKeepBoth(s: State, ticks: seq<Tick>)
    requires Coupled(s) && Runs(s, ticks) && Fits(s) && OfflineIdle(s) && NoneBreaks(s, ticks)
    ensures Fits(After(s, ticks)) && OfflineIdle(After(s, ticks))
  {
    hide Fits, OfflineIdle, CoupledBut, Apply;
    if ticks != [] {
      var init := ticks[..|ticks| - 1];
      RunsKeepBoth(s, init);
      RunsKeepCoupled(s, init);
      StepKeepsIff(After(s, init), ticks[|ticks| - 1]);
    }
  }

  lemma InitialKeepsBoth(entryReply: string)
    ensures Fits(Initial(entryReply)) && OfflineIdle(Initial(entryReply))
  {
  }
}
