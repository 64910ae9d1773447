/** One conversation seen alone: what each step of the store does to its record and its log. Everything
    about messages, unread counters and timers is proved on this view. */
module Local {
  import opened Domain
  import opened Text
  import opened Logs
  import opened StoreState
  import opened StoreRuns
  import opened Ownership

  datatype View =
    | Gone
    | View(visitor: string, open: bool, lastAt: int, forAgent: int, forVisitor: int, log: seq<Message>)

  function ViewOf(s: State, c: string): View {
    if c in s.convs then
      var conv := s.convs[c];
      View(conv.visitor, IsOpen(conv), conv.lastAt, conv.unreadForAgent, conv.unreadForVisitor, Log(s, c))
    else Gone
  }

  datatype Event =
    | Quiet
    | Born(visitor: string, initial: seq<Message>, at: int)
    | VisitorMessage(m: Message, replies: seq<Message>)
    | AIReply(m: Message)
    | AgentMessage(m: Message)
    | Retraction(p: nat, m: Message)
    | ReadMark
    | Note(m: Message)
    | Ending(m: Message)
    | Removal

  /** The view after an event. */
  function React(v: View, e: Event): View {
    if v.Gone? then
      if e.Born? then View(e.visitor, true, e.at, 0, 0, e.initial) else v
    else
      match e
      case Quiet => v
      case Born(_, _, _) => v
      case VisitorMessage(m, replies) =>
        v.(lastAt := m.at, forAgent := v.forAgent + 1, log := v.log + [m] + replies)
      case AIReply(m) => v.(lastAt := m.at, forVisitor := v.forVisitor + 1, forAgent := 0, log := v.log + [m])
      case AgentMessage(m) => v.(lastAt := m.at, forVisitor := v.forVisitor + 1, forAgent := 0, log := v.log + [m])
      case Retraction(p, m) =>
        if p < |v.log| && m.revoked.Some? then
          v.(lastAt := m.revoked.value.at, forVisitor := if v.forVisitor > 0 then v.forVisitor - 1 else v.forVisitor,
             log := v.log[p := m])
        else v
      case ReadMark => v.(forAgent := 0)
      case Note(m) => v.(log := v.log + [m])
      case Ending(m) => v.(open := false, log := v.log + [m])
      case Removal => Gone
  }

  /** What a step means to conversation c. */
  ghost function EventOf(s: State, tick: Tick, c: string): Event
    requires Enabled(s, tick.step)
  {
    var v, log, now := ViewOf(s, c), Log(s, c), tick.now;
    match tick.step
    case NewConversation(source, visitor, d, id, business) =>
      var r := CreateConversation(s, source, visitor, d, id, business, now).1;
      if d == c && r.Ok? then Born(visitor, r.value.initial, now) else Quiet
    case VisitorSends(d, clientId, content, kind, urlSafe, matched, business, id, replyId) =>
      var r := AddVisitorMessage(s, d, clientId, content, kind, urlSafe, matched, business, id, replyId, now).1;
      if d == c && r.Ok? && FindByClientId(log, FromVisitor, s.convs[c].visitor, clientId).None?
      then VisitorMessage(r.value.input, r.value.generated) else Quiet
    case AISends(d, content, id) =>
      var r := AddAIMessage(s, d, content, id, now).1;
      if d == c && r.Ok? then AIReply(r.value.0) else Quiet
    case AgentSends(a, d, clientId, content, kind, urlSafe, id) =>
      var r := AddAgentMessage(s, a, d, clientId, content, kind, urlSafe, id, now).1;
      if d == c && r.Ok? && FindByClientId(log, FromAgent, a, clientId).None?
      then AgentMessage(r.value.input) else Quiet
    case Revokes(actor, d, target) =>
      var r := RevokeMessage(s, actor, d, target, now).1;
      if d == c && r.Ok? && log[Position(log, Trim(target))].revoked.None?
      then Retraction(Position(log, Trim(target)), r.value.0) else Quiet
    case Read(actor, d) => if d == c && MarkRead(s, actor, d).1.Ok? then ReadMark else Quiet
    case Transfers(actor, d, a, group, id) =>
      var r := TransferConversation(s, actor, d, a, group, id, now).1;
      if d == c && r.Ok? then Note(r.value.1) else Quiet
    case Closes(actor, d, id) =>
      var r := CloseConversation(s, actor, d, id, now).1;
      if d == c && r.Ok? then Ending(r.value.1) else Quiet
    case Removes(actor, d) => if d == c && DeleteConversation(s, actor, d).1.Ok? then Removal else Quiet
    case _ => Quiet
  }

  // ----- steps that only hand conversations around -----

  lemma TakeKeepsView(s: State, d: string, a: string, c: string)
    requires d in s.convs && a in s.agents && IsOpen(s.convs[d])
    ensures ViewOf(Take(s, d, a), c) == ViewOf(s, c)
  {
  }

  lemma AssignKeepsView(s: State, d: string, c: string)
    requires d in s.convs && IsOpen(s.convs[d])
    ensures ViewOf(Assign(s, d), c) == ViewOf(s, c) && IsOpen(Assign(s, d).convs[d])
  {
  }

  lemma {:induction false} ReleaseKeepsView(s: State, a: string, order: seq<string>, deleting: bool, c: string)
    requires forall d :: d in order ==> d in s.convs
    ensures ViewOf(Release(s, a, order, deleting), c) == ViewOf(s, c)
  {
    if order != [] {
      var init, d := order[..|order| - 1], order[|order| - 1];
      ReleaseKeepsView(s, a, init, deleting, c);
      ReleaseOneKeepsView(Release(s, a, init, deleting), a, d, deleting, c);
    }
  }

  lemma ReleaseOneKeepsView(s: State, a: string, d: string, deleting: bool, c: string)
    requires d in s.convs
    ensures ViewOf(ReleaseOne(s, a, d, deleting), c) == ViewOf(s, c)
  {
  }

  lemma {:induction false} PickUpKeepsView(s: State, a: string, order: seq<string>, c: string)
    requires a in s.agents && forall d :: d in order ==> d in s.convs
    ensures ViewOf(PickUp(s, a, order), c) == ViewOf(s, c)
    decreases |order|
  {
    if order != [] && s.agents[a].cur < s.agents[a].max {
      if Queued(s.convs[order[0]]) {
        TakeKeepsView(s, order[0], a, c);
        PickUpKeepsView(Take(s, order[0], a), a, order[1..], c);
      } else {
        PickUpKeepsView(s, a, order[1..], c);
      }
    }
  }

  lemma StatusKeepsView(s: State, a: string, status: AgentStatus, order: seq<string>, c: string)
    requires VisitsAll(order, s)
    ensures ViewOf(SetAgentStatus(s, a, status, order).0, c) == ViewOf(s, c)
  {
    hide Release, PickUp, Released, PickedUp;
    if a in s.agents {
      var set1 := PutAgent(s, a, s.agents[a].(status := status));
      ReleaseKeepsView(PutAgent(set1, a, set1.agents[a].(cur := 0)), a, order, false, c);
      PickUpKeepsView(set1, a, order, c);
    }
  }

  lemma AgentStepsAreQuiet(s: State, tick: Tick, c: string)
    requires Enabled(s, tick.step)
    requires tick.step.ChangeStatus? || tick.step.Disable? || tick.step.Delete? || tick.step.NewAgent?
             || tick.step.EditAgent? || tick.step.TimerFires? || tick.step.Configures?
    ensures ViewOf(Apply(s, tick), c) == ViewOf(s, c)
  {
    hide Release, PickUp, Released, PickedUp, Trim, Edited;
    match tick.step
    case ChangeStatus(a, status, order) =>
      StatusKeepsView(s, a, status, order, c);
      hide SetAgentStatus;
    case Disable(a, order) =>
      if a in s.agents {
        ReleaseKeepsView(PutAgent(s, a, s.agents[a].(disabled := true, status := Offline, cur := 0)), a, order,
            false, c);
      }
    case Delete(a, order) =>
      if a in s.agents {
        ReleaseKeepsView(PutAgent(s, a, s.agents[a].(status := Offline, cur := 0)), a, order, true, c);
      }
    case _ =>
  }

  // ----- steps on one conversation -----

  /** The view of a conversation just created, and of any other. */
  lemma CreationViews(s: State, source: string, visitor: string, d: string, id: string, business: bool, now: int,
                      c: string)
    requires d !in s.convs && d !in s.logs
    ensures var (t, r) := CreateConversation(s, source, visitor, d, id, business, now);
            && (r.Err? ==> t == s)
            && (r.Ok? ==>
                  ViewOf(t, c) == if c == d then View(visitor, true, now, 0, 0, r.value.initial) else ViewOf(s, c))
  {
    hide Assign, Trim;
    AssignKeepsView(PutConv(s, d, Conversation(visitor, Waiting, NOBODY, now, 0, 0, now)), d, c);
  }

  lemma CreationReacts(s: State, tick: Tick, c: string)
    requires Coupled(s) && Enabled(s, tick.step) && tick.step.NewConversation?
    ensures ViewOf(Apply(s, tick), c) == React(ViewOf(s, c), EventOf(s, tick, c))
  {
    var step := tick.step;
    CreationViews(s, step.source, step.visitor, step.c, step.msgId, step.businessTime, tick.now, c);
    hide CreateConversation, CoupledBut;
  }

  lemma AutoReplyKeepsView(s: State, d: string, content: string, matched: Matched, business: bool, id: string,
                           now: int, c: string)
    requires d in s.convs && IsOpen(s.convs[d])
    ensures var (t, generated, _) := AutoReply(s, d, content, matched, business, id, now);
            && (c != d ==> ViewOf(t, c) == ViewOf(s, c))
            && ViewOf(t, d) == ViewOf(s, d).(log := Log(s, d) + generated)
  {
    hide Trim, Assign;
    match matched
    case HumanAsked => HandOffKeepsView(s, d, content, business, id, now, c);
    case _ =>
  }

  lemma HandOffKeepsView(s: State, d: string, content: string, business: bool, id: string, now: int, c: string)
    requires d in s.convs && IsOpen(s.convs[d])
    ensures var (t, generated, _) := AutoReply(s, d, content, HumanAsked, business, id, now);
            && (c != d ==> ViewOf(t, c) == ViewOf(s, c))
            && ViewOf(t, d) == ViewOf(s, d).(log := Log(s, d) + generated)
  {
    hide Assign, Trim;
    if s.convs[d].owner == NOBODY {
      var requested := PutConv(s, d, s.convs[d].(status := HumanRequested));
      AssignKeepsView(requested, d, c);
      AssignKeepsView(requested, d, d);
    }
  }

  lemma VisitorMessageReacts(s: State, tick: Tick, c: string)
    requires Enabled(s, tick.step) && tick.step.VisitorSends?
    ensures ViewOf(Apply(s, tick), c) == React(ViewOf(s, c), EventOf(s, tick, c))
  {
    hide AutoReply, FindByClientId, ValidUserMessage, Trim;
    var d, now := tick.step.c, tick.now;
    if d in s.convs && IsOpen(s.convs[d]) {
      var conv := s.convs[d];
      var input := NewMessage(tick.step.msgId, tick.step.clientId, FromVisitor, conv.visitor, tick.step.kind,
          tick.step.content, now);
      var stored := PutConv(Append(s, d, input), d, Touched(conv, true, now));
      AutoReplyKeepsView(stored, d, tick.step.content, tick.step.matched, tick.step.businessTime, tick.step.replyId,
          now, c);
    }
  }

  lemma TransferReacts(s: State, tick: Tick, c: string)
    requires Enabled(s, tick.step) && tick.step.Transfers?
    ensures ViewOf(Apply(s, tick), c) == React(ViewOf(s, c), EventOf(s, tick, c))
  {
    hide TransferTarget, Trim;
  }

  lemma RevocationReacts(s: State, tick: Tick, c: string)
    requires Enabled(s, tick.step) && tick.step.Revokes?
    ensures ViewOf(Apply(s, tick), c) == React(ViewOf(s, c), EventOf(s, tick, c))
  {
    hide Trim, Position;
  }

  lemma ReadReacts(s: State, tick: Tick, c: string)
    requires Enabled(s, tick.step) && (tick.step.Read? || tick.step.Removes?)
    ensures ViewOf(Apply(s, tick), c) == React(ViewOf(s, c), EventOf(s, tick, c))
  {
    hide Trim;
  }

  lemma AIReplyReacts(s: State, tick: Tick, c: string)
    requires Enabled(s, tick.step) && tick.step.AISends?
    ensures ViewOf(Apply(s, tick), c) == React(ViewOf(s, c), EventOf(s, tick, c))
  {
    hide Trim;
  }

  lemma AgentMessageReacts(s: State, tick: Tick, c: string)
    requires Enabled(s, tick.step) && tick.step.AgentSends?
    ensures ViewOf(Apply(s, tick), c) == React(ViewOf(s, c), EventOf(s, tick, c))
  {
    hide Trim, FindByClientId, ValidUserMessage;
  }

  lemma CloseReacts(s: State, tick: Tick, c: string)
    requires Enabled(s, tick.step) && tick.step.Closes?
    ensures ViewOf(Apply(s, tick), c) == React(ViewOf(s, c), EventOf(s, tick, c))
  {
    hide Trim;
  }

  /** Every step of the store acts on every conversation as its event says. */
  lemma StepReacts(s: State, tick: Tick, c: string)
    requires Coupled(s) && Enabled(s, tick.step)
    ensures ViewOf(Apply(s, tick), c) == React(ViewOf(s, c), EventOf(s, tick, c))
  {
    hide ViewOf, React;
    match tick.step
    case NewConversation(_, _, _, _, _) => CreationReacts(s, tick, c);
    case VisitorSends(_, _, _, _, _, _, _, _, _) => VisitorMessageReacts(s, tick, c);
    case Transfers(_, _, _, _, _) => TransferReacts(s, tick, c);
    case Revokes(_, _, _) => RevocationReacts(s, tick, c);
    case Read(_, _) => ReadReacts(s, tick, c);
    case AISends(_, _, _) => AIReplyReacts(s, tick, c);
    case AgentSends(_, _, _, _, _, _, _) => AgentMessageReacts(s, tick, c);
    case Closes(_, _, _) => CloseReacts(s, tick, c);
    case Removes(_, _) => ReadReacts(s, tick, c);
    case _ =>
      AgentStepsAreQuiet(s, tick, c);
      QuietReacts(ViewOf(s, c));
  }

  lemma QuietReacts(v: View)
    ensures React(v, Quiet) == v
  {
  }
}
