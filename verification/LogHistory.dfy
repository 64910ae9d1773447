/** The message log of a conversation over every run: what events can occur, and what they leave intact. */
module LogHistory {
  import opened Domain
  import opened Text
  import opened Logs
  import opened Paging
  import opened StoreState
  import opened StoreRuns
  import opened Ownership
  import opened Local

  ghost predicate NewTo(log: seq<Message>, m: Message, now: int) {
    && m.at == now && m.revoked.None? && m.id != "" && Trim(m.id) == m.id
    && forall x :: x in log ==> x.id != m.id
  }

  predicate Automatic(m: Message) { m.clientId == "" && (m.sender == FromAI || m.sender == FromSystem) }

  /** Which events a conversation can meet, and with what. */
  ghost predicate Sound(v: View, e: Event, now: int) {
    match e
    case Quiet => true
    case Born(_, initial, at) =>
      v.Gone? && at == now && |initial| <= 1
      && forall m :: m in initial ==> NewTo([], m, now) && Automatic(m)
    case VisitorMessage(m, replies) =>
      && v.View? && v.open && NewTo(v.log, m, now) && m.sender == FromVisitor && m.senderId == v.visitor
      && FindByClientId(v.log, FromVisitor, v.visitor, m.clientId).None?
      && |replies| <= 1 && forall r :: r in replies ==> NewTo(v.log + [m], r, now) && Automatic(r)
    case AIReply(m) => v.View? && v.open && NewTo(v.log, m, now) && m.sender == FromAI && Automatic(m)
    case AgentMessage(m) =>
      && v.View? && v.open && NewTo(v.log, m, now) && m.sender == FromAgent
      && FindByClientId(v.log, FromAgent, m.senderId, m.clientId).None?
    case Retraction(p, m) =>
      && v.View? && p < |v.log| && v.log[p].sender == FromAgent && v.log[p].revoked.None?
      && m.revoked.Some? && m.revoked.value.at == now && m == v.log[p].(revoked := m.revoked)
    case ReadMark => v.View?
    case Note(m) => v.View? && v.open && NewTo(v.log, m, now) && m.sender == FromSystem && Automatic(m)
    case Ending(m) => v.View? && NewTo(v.log, m, now) && m.sender == FromSystem && Automatic(m)
    case Removal => v.View? && !v.open
  }

  /** What a visitor's stored message and its replies are. */
  lemma VisitorMessages(s: State, step: Step, now: int)
    requires step.VisitorSends?
    ensures var r := AddVisitorMessage(s, step.c, step.clientId, step.content, step.kind, step.urlSafe, step.matched,
                                       step.businessTime, step.msgId, step.replyId, now).1;
            r.Ok? ==>
              && step.c in s.convs && IsOpen(s.convs[step.c])
              && (FindByClientId(Log(s, step.c), FromVisitor, s.convs[step.c].visitor, step.clientId).None? ==>
                    && r.value.input == NewMessage(step.msgId, step.clientId, FromVisitor, s.convs[step.c].visitor,
                                                   step.kind, step.content, now)
                    && |r.value.generated| <= 1
                    && forall m :: m in r.value.generated ==>
                         m.id == step.replyId && m.at == now && m.revoked.None? && Automatic(m))
  {
    hide FindByClientId, ValidUserMessage, Trim, Assign;
  }

  lemma VisitorEventIsSound(s: State, tick: Tick, c: string)
    requires Enabled(s, tick.step) && tick.step.VisitorSends?
    ensures Sound(ViewOf(s, c), EventOf(s, tick, c), tick.now)
  {
    VisitorMessages(s, tick.step, tick.now);
    hide FindByClientId, Trim, AddVisitorMessage, Automatic;
  }

  lemma CreationEventIsSound(s: State, tick: Tick, c: string)
    requires Enabled(s, tick.step) && tick.step.NewConversation?
    ensures Sound(ViewOf(s, c), EventOf(s, tick, c), tick.now)
  {
    hide Assign, Trim;
  }

  lemma RevocationEventIsSound(s: State, tick: Tick, c: string)
    requires Enabled(s, tick.step) && tick.step.Revokes?
    ensures Sound(ViewOf(s, c), EventOf(s, tick, c), tick.now)
  {
  }

  lemma AgentEventIsSound(s: State, tick: Tick, c: string)
    requires Enabled(s, tick.step) && tick.step.AgentSends?
    ensures Sound(ViewOf(s, c), EventOf(s, tick, c), tick.now)
  {
  }

  lemma AIEventIsSound(s: State, tick: Tick, c: string)
    requires Enabled(s, tick.step) && tick.step.AISends?
    ensures Sound(ViewOf(s, c), EventOf(s, tick, c), tick.now)
  {
    hide Trim;
  }

  lemma EndingIsSound(s: State, tick: Tick, c: string)
    requires Enabled(s, tick.step) && tick.step.Closes?
    ensures Sound(ViewOf(s, c), EventOf(s, tick, c), tick.now)
  {
    hide Trim;
  }

  lemma TransferEventIsSound(s: State, tick: Tick, c: string)
    requires Enabled(s, tick.step) && tick.step.Transfers?
    ensures Sound(ViewOf(s, c), EventOf(s, tick, c), tick.now)
  {
  }

  /** The store gives rise to sound events only. */
  lemma EventIsSound(s: State, tick: Tick, c: string)
    requires Enabled(s, tick.step)
    ensures Sound(ViewOf(s, c), EventOf(s, tick, c), tick.now)
  {
    match tick.step
    case NewConversation(_, _, _, _, _) => CreationEventIsSound(s, tick, c);
    case VisitorSends(_, _, _, _, _, _, _, _, _) => VisitorEventIsSound(s, tick, c);
    case Revokes(_, _, _) => RevocationEventIsSound(s, tick, c);
    case AgentSends(_, _, _, _, _, _, _) => AgentEventIsSound(s, tick, c);
    case Transfers(_, _, _, _, _) => TransferEventIsSound(s, tick, c);
    case AISends(_, _, _) => AIEventIsSound(s, tick, c);
    case Closes(_, _, _) => EndingIsSound(s, tick, c);
    case _ =>
  }

  // ----- one event -----

  /** While the conversation stays on record its log only grows; closed stays closed, and a closed log
      receives system notices only. */
  lemma EventGrowsLog(v: View, e: Event, now: int)
    requires Sound(v, e, now) && v.View? && React(v, e).View?
    ensures var v' := React(v, e);
            && Grows(v.log, v'.log)
            && (!v.open ==> !v'.open && forall i :: |v.log| <= i < |v'.log| ==> v'.log[i].sender == FromSystem)
  {
  }

  /** Server ids stay distinct and usable as cursors. */
  lemma EventKeepsAddressable(v: View, e: Event, now: int)
    requires Sound(v, e, now) && React(v, e).View? && (v.View? ==> Addressable(v.log))
    ensures Addressable(React(v, e).log)
  {
    match e
    case Born(_, initial, _) => assert forall i :: 0 <= i < |initial| ==> initial[i] in initial;
    case VisitorMessage(m, replies) =>
      if v.View? {
        SnocAddressable(v.log, m, now);
        if replies == [] {
          assert v.log + [m] + replies == v.log + [m];
        } else {
          assert replies == [replies[0]];
          SnocAddressable(v.log + [m], replies[0], now);
        }
      }
    case Retraction(p, m) =>
      assert forall i :: 0 <= i < |v.log| ==> v.log[p := m][i].id == v.log[i].id;
    case AIReply(m) => SnocAddressable(v.log, m, now);
    case AgentMessage(m) => SnocAddressable(v.log, m, now);
    case Note(m) => SnocAddressable(v.log, m, now);
    case Ending(m) => SnocAddressable(v.log, m, now);
    case _ =>
  }

  lemma SnocAddressable(log: seq<Message>, m: Message, now: int)
    requires Addressable(log) && NewTo(log, m, now)
    ensures Addressable(log + [m])
  {
  }

  // ----- whole runs -----

  /** c is on record from the start of the run to its end. */
  ghost predicate Kept(s: State, ticks: seq<Tick>, c: string)
    requires Runs(s, ticks)
    decreases |ticks|
  {
    c in After(s, ticks).convs && (ticks == [] || Kept(s, ticks[..|ticks| - 1], c))
  }

  lemma {:induction false} RunsPrefix(s: State, ticks: seq<Tick>, c: string, m: nat)
    requires Runs(s, ticks) && Kept(s, ticks, c) && m <= |ticks|
    ensures Runs(s, ticks[..m]) && Kept(s, ticks[..m], c)
    decreases |ticks|
  {
    if m < |ticks| {
      RunsPrefix(s, ticks[..|ticks| - 1], c, m);
      assert ticks[..|ticks| - 1][..m] == ticks[..m];
    } else {
      assert ticks[..m] == ticks;
    }
  }

  /** The log of an earlier moment is a prefix of a later one up to revocations, and after closing only
      system notices are added. */
  ghost predicate Extends(older: View, newer: View) {
    && older.View? && newer.View? && Grows(older.log, newer.log)
    && (!older.open ==> !newer.open)
    && (!older.open ==> forall i :: |older.log| <= i < |newer.log| ==> newer.log[i].sender == FromSystem)
  }

  lemma ExtendsTransitive(a: View, b: View, c: View)
    requires Extends(a, b) && Extends(b, c)
    ensures Extends(a, c)
  {
  }

  lemma StepExtends(s: State, tick: Tick, c: string)
    requires Coupled(s) && Enabled(s, tick.step) && c in s.convs && c in Apply(s, tick).convs
    ensures Extends(ViewOf(s, c), ViewOf(Apply(s, tick), c))
  {
    StepReacts(s, tick, c);
    EventIsSound(s, tick, c);
    var v, e := ViewOf(s, c), EventOf(s, tick, c);
    hide Apply, EventOf, React, Sound, CoupledBut;
    EventGrowsLog(v, e, tick.now);
  }

  /** Between any two moments of a run that does not delete the conversation. */
  lemma {:induction false} LogOnlyGrows(s: State, ticks: seq<Tick>, c: string, m: nat)
    requires Coupled(s) && Runs(s, ticks) && Kept(s, ticks, c) && m <= |ticks|
    ensures Runs(s, ticks[..m]) && Extends(ViewOf(After(s, ticks[..m]), c), ViewOf(After(s, ticks), c))
    decreases |ticks|
  {
    hide Apply, Extends, CoupledBut;
    RunsPrefix(s, ticks, c, m);
    if m == |ticks| {
      assert ticks[..m] == ticks;
      ExtendsItself(ViewOf(After(s, ticks), c));
    } else {
      var init, last := ticks[..|ticks| - 1], ticks[|ticks| - 1];
      LogOnlyGrows(s, init, c, m);
      assert init[..m] == ticks[..m];
      RunsKeepCoupled(s, init);
      StepExtends(After(s, init), last, c);
      ExtendsTransitive(ViewOf(After(s, ticks[..m]), c), ViewOf(After(s, init), c), ViewOf(After(s, ticks), c));
    }
  }

  lemma ExtendsItself(v: View)
    requires v.View?
    ensures Extends(v, v)
  {
  }

  /** In every reachable state server ids are distinct within a log and can serve as cursors. */
  lemma {:induction false} LogsStayAddressable(s: State, ticks: seq<Tick>, c: string)
    requires Coupled(s) && Runs(s, ticks) && Addressable(Log(s, c))
    ensures Addressable(Log(After(s, ticks), c))
  {
    if ticks != [] {
      var init, last := ticks[..|ticks| - 1], ticks[|ticks| - 1];
      var mid := After(s, init);
      LogsStayAddressable(s, init, c);
      RunsKeepCoupled(s, init);
      RunsKeepCoupled(s, ticks);
      StepReacts(mid, last, c);
      EventIsSound(mid, last, c);
      var v, e := ViewOf(mid, c), EventOf(mid, last, c);
      hide Apply, EventOf, React, Sound;
      assert ViewOf(After(s, ticks), c) == React(v, e);
      if React(v, e).View? { EventKeepsAddressable(v, e, last.now); }
    }
  }

  /** What a request at moment n of the run sees. */
  ghost function LogAt(s: State, ticks: seq<Tick>, c: string, n: nat): seq<Message> {
    if n <= |ticks| && Runs(s, ticks[..n]) then Log(After(s, ticks[..n]), c) else []
  }

  lemma MomentsGrow(s: State, ticks: seq<Tick>, c: string, m: nat, n: nat)
    requires Coupled(s) && Addressable(Log(s, c)) && Runs(s, ticks) && Kept(s, ticks, c) && m <= n <= |ticks|
    ensures Addressable(LogAt(s, ticks, c, n)) && Grows(LogAt(s, ticks, c, m), LogAt(s, ticks, c, n))
  {
    hide CoupledBut, Addressable;
    RunsPrefix(s, ticks, c, n);
    LogsStayAddressable(s, ticks[..n], c);
    LogOnlyGrows(s, ticks[..n], c, m);
    assert ticks[..n][..m] == ticks[..m];
  }

  /** Requests made at successive moments of one run see a paging history, so the pages they fetch rebuild
      the log of the first request, whatever the store does in between. */
  lemma PagesOfARunRebuildTheLog(s: State, ticks: seq<Tick>, c: string, moments: nat -> nat, limits: nat -> int)
    requires Coupled(s) && Addressable(Log(s, c)) && Runs(s, ticks) && Kept(s, ticks, c)
    requires (forall n: nat :: moments(n) <= |ticks|) && forall m: nat, n: nat :: m <= n ==> moments(m) <= moments(n)
    ensures var logs := (n: nat) => LogAt(s, ticks, c, moments(n));
            && History(logs)
            && var all := Follow(logs, limits, 0, "");
               |all| == |logs(0)| && forall k :: 0 <= k < |all| ==> SameMessage(logs(0)[k], all[k])
  {
    hide Follow, LogAt, Kept, Runs, CoupledBut, Addressable, Grows;
    var logs := (n: nat) => LogAt(s, ticks, c, moments(n));
    forall m: nat, n: nat | m <= n ensures Addressable(logs(n)) && Grows(logs(m), logs(n)) {
      MomentsGrow(s, ticks, c, moments(m), moments(n));
    }
    assert forall n: nat :: Addressable(logs(n)) by {
      forall n: nat ensures Addressable(logs(n)) { MomentsGrow(s, ticks, c, moments(n), moments(n)); }
    }
    PagesRebuildTheLog(logs, limits);
  }
}
