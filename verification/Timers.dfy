/** No-reply timers: a visitor's message arms one when the conversation is assigned, and on firing it may
    hand the conversation to the AI. The clock strictly increases from step to step. */
module Timers {
  import opened Domain
  import opened Text
  import opened StoreState
  import opened StoreRuns
  import opened Ownership
  import opened Accounting
  import opened Local
  import opened LogHistory

  /** Every step reads a later clock than the one before, and the first a later one than since. */
  ghost predicate Clocked(ticks: seq<Tick>, since: int) {
    && (forall i :: 0 <= i < |ticks| ==> since < ticks[i].now)
    && (forall i, j :: 0 <= i < j < |ticks| ==> ticks[i].now < ticks[j].now)
  }

  /** Messages from a visitor, an agent or the AI, and revocations, touch a conversation. */
  predicate Touches(e: Event) { e.VisitorMessage? || e.AgentMessage? || e.AIReply? || e.Retraction? }

  /** A stored last-message time is never the zero time and never ahead of the clock. */
  ghost predicate TimedUpTo(v: View, clock: int) { v.View? ==> ZERO_TIME < v.lastAt <= clock }

  lemma EventSetsTime(v: View, e: Event, now: int)
    requires Sound(v, e, now)
    ensures v.View? && React(v, e).View? ==> React(v, e).lastAt == if Touches(e) then now else v.lastAt
    ensures v.Gone? && React(v, e).View? ==> React(v, e).lastAt == now
  {
  }

  function ClockAfter(ticks: seq<Tick>, since: int): int { if ticks == [] then since else ticks[|ticks| - 1].now }

  lemma ClockedPrefix(ticks: seq<Tick>, since: int)
    requires Clocked(ticks, since) && ticks != []
    ensures Clocked(ticks[..|ticks| - 1], since)
    ensures ClockAfter(ticks[..|ticks| - 1], since) < ticks[|ticks| - 1].now
    ensures since < ticks[|ticks| - 1].now
  {
  }

  /** One step as an event, ready for use in an induction over runs. */
  lemma LastEvent(s: State, ticks: seq<Tick>, c: string) returns (v: View, e: Event)
    requires Coupled(s) && Runs(s, ticks) && ticks != []
    ensures v == ViewOf(After(s, ticks[..|ticks| - 1]), c)
    ensures e == EventOf(After(s, ticks[..|ticks| - 1]), ticks[|ticks| - 1], c)
    ensures Sound(v, e, ticks[|ticks| - 1].now) && ViewOf(After(s, ticks), c) == React(v, e)
  {
    var init, last := ticks[..|ticks| - 1], ticks[|ticks| - 1];
    RunsKeepCoupled(s, init);
    StepReacts(After(s, init), last, c);
    EventIsSound(After(s, init), last, c);
    v, e := ViewOf(After(s, init), c), EventOf(After(s, init), last, c);
  }

  lemma {:induction false} RunsKeepTimes(s: State, ticks: seq<Tick>, since: int, c: string)
    requires Coupled(s) && Runs(s, ticks) && Clocked(ticks, since) && ZERO_TIME <= since
    requires TimedUpTo(ViewOf(s, c), since)
    ensures TimedUpTo(ViewOf(After(s, ticks), c), ClockAfter(ticks, since))
  {
    hide Apply, EventOf, React, Sound, CoupledBut, ViewOf;
    if ticks != [] {
      ClockedPrefix(ticks, since);
      RunsKeepTimes(s, ticks[..|ticks| - 1], since, c);
      var v, e := LastEvent(s, ticks, c);
      EventSetsTime(v, e, ticks[|ticks| - 1].now);
    }
  }

  /** Some step of the run touched c. */
  ghost predicate TouchedIn(s: State, ticks: seq<Tick>, c: string)
    requires Runs(s, ticks)
    decreases |ticks|
  {
    ticks != [] && (TouchedIn(s, ticks[..|ticks| - 1], c)
                    || Touches(EventOf(After(s, ticks[..|ticks| - 1]), ticks[|ticks| - 1], c)))
  }

  /** After a message at time t, the last-message time is still t exactly as long as nothing touches c. */
  lemma {:induction false} StillLastIffUntouched(s: State, ticks: seq<Tick>, t: int, c: string)
    requires Coupled(s) && Runs(s, ticks) && Clocked(ticks, t) && c in s.convs && s.convs[c].lastAt == t
    ensures c in After(s, ticks).convs ==> After(s, ticks).convs[c].lastAt >= t
    ensures c in After(s, ticks).convs && Kept(s, ticks, c) ==>
              (After(s, ticks).convs[c].lastAt == t <==> !TouchedIn(s, ticks, c))
    ensures c in After(s, ticks).convs && !Kept(s, ticks, c) ==> After(s, ticks).convs[c].lastAt > t
  {
    hide Apply, EventOf, React, Sound, CoupledBut, Touches;
    if ticks != [] {
      var init, last := ticks[..|ticks| - 1], ticks[|ticks| - 1];
      ClockedPrefix(ticks, t);
      StillLastIffUntouched(s, init, t, c);
      var v, e := LastEvent(s, ticks, c);
      EventSetsTime(v, e, last.now);
      assert TouchedIn(s, ticks, c) <==> TouchedIn(s, init, c) || Touches(e);
      assert t < last.now;
      assert Kept(s, ticks, c) <==> c in After(s, ticks).convs && Kept(s, init, c);
    }
  }

  /** What the service arms after a visitor's message: the result is assigned, owned, and the timeout is on. */
  ghost predicate Arms(s: State, tick: Tick, sentAt: int)
    requires Enabled(s, tick.step) && tick.step.VisitorSends?
  {
    var step := tick.step;
    var r := AddVisitorMessage(s, step.c, step.clientId, step.content, step.kind, step.urlSafe, step.matched,
                               step.businessTime, step.msgId, step.replyId, tick.now).1;
    && r.Ok? && r.value.conv.status == Assigned && r.value.conv.owner != NOBODY && s.settings.noReply > 0
    && r.value.sentAt == sentAt
  }

  /** The timer would hand the conversation to the AI if it fired now. */
  predicate Fires(s: State, c: string, sentAt: int) { EscalateNoReply(s, c, sentAt).1.Some? }

  /** A timer carries the time of its message if that was stored, and the zero time for a retry. */
  lemma ArmedTime(s: State, tick: Tick, sentAt: int)
    requires Coupled(s) && Enabled(s, tick.step) && tick.step.VisitorSends? && Arms(s, tick, sentAt)
    ensures tick.step.c in Apply(s, tick).convs
    ensures sentAt == (if EventOf(s, tick, tick.step.c).VisitorMessage? then tick.now else ZERO_TIME)
    ensures EventOf(s, tick, tick.step.c).VisitorMessage? ==> Apply(s, tick).convs[tick.step.c].lastAt == tick.now
  {
    var c := tick.step.c;
    StepReacts(s, tick, c);
    EventIsSound(s, tick, c);
    EventSetsTime(ViewOf(s, c), EventOf(s, tick, c), tick.now);
    hide AutoReply, FindByClientId, ValidUserMessage, Trim;
  }

  /** A timer armed by a stored message fires exactly if nothing has touched its conversation since, the
      conversation is still assigned, and the AI may take over. */
  lemma FiresIffUntouched(s: State, tick: Tick, later: seq<Tick>, sentAt: int)
    requires Coupled(s) && Enabled(s, tick.step) && tick.step.VisitorSends? && Arms(s, tick, sentAt)
    requires EventOf(s, tick, tick.step.c).VisitorMessage?
    requires Runs(Apply(s, tick), later) && Clocked(later, tick.now)
    ensures var armed, c, end := Apply(s, tick), tick.step.c, After(Apply(s, tick), later);
            Fires(end, c, sentAt) <==>
            && Kept(armed, later, c) && !TouchedIn(armed, later, c)
            && end.convs[c].status == Assigned && FallsBackToAI(end.settings)
  {
    ArmedTime(s, tick, sentAt);
    StepKeepsCoupled(s, tick);
    StillLastIffUntouched(Apply(s, tick), later, tick.now, tick.step.c);
    hide Apply, EventOf, Arms, CoupledBut, TouchedIn, Runs;
  }

  /** A timer armed by a recognised retry never fires. */
  lemma RetryTimerNeverFires(s: State, ticks: seq<Tick>, since: int, c: string)
    requires Coupled(s) && Runs(s, ticks) && Clocked(ticks, since) && ZERO_TIME <= since
    requires TimedUpTo(ViewOf(s, c), since)
    ensures !Fires(After(s, ticks), c, ZERO_TIME)
  {
    RunsKeepTimes(s, ticks, since, c);
  }

  /** Step i of the run arms a timer for c that carries sentAt. */
  ghost predicate ArmedAt(s: State, ticks: seq<Tick>, i: nat, c: string, sentAt: int) {
    && i < |ticks| && Runs(s, ticks[..i]) && ticks[i].step.VisitorSends? && ticks[i].step.c == c
    && Enabled(After(s, ticks[..i]), ticks[i].step) && Arms(After(s, ticks[..i]), ticks[i], sentAt)
  }

  /** Of two timers armed for one conversation at different steps of a run, never both can fire. */
  lemma AtMostOneFires(s: State, ticks: seq<Tick>, since: int, i: nat, j: nat, c: string, t1: int, t2: int)
    requires Coupled(s) && Runs(s, ticks) && Clocked(ticks, since) && ZERO_TIME <= since
    requires TimedUpTo(ViewOf(s, c), since)
    requires i < j && ArmedAt(s, ticks, i, c, t1) && ArmedAt(s, ticks, j, c, t2)
    ensures !(Fires(After(s, ticks), c, t1) && Fires(After(s, ticks), c, t2))
  {
    RunsKeepCoupled(s, ticks[..i]);
    RunsKeepCoupled(s, ticks[..j]);
    hide CoupledBut, EventOf, Apply;
    ArmedTime(After(s, ticks[..i]), ticks[i], t1);
    ArmedTime(After(s, ticks[..j]), ticks[j], t2);
    hide Arms;
    assert ticks[i].now < ticks[j].now;
    RetryTimerNeverFires(s, ticks, since, c);
  }

  /** Timers do fire: an assigned conversation's message goes unanswered. */
  lemma ATimerFires() returns (s: State, tick: Tick)
    ensures Coupled(s) && Enabled(s, tick.step) && tick.step.VisitorSends? && Arms(s, tick, tick.now)
    ensures Fires(Apply(s, tick), tick.step.c, tick.now)
  {
    s := BusySeed(2, Assigned, []);
    tick := Tick(9, VisitorSends("c1", "k", "hello", PlainText, true, NoRule, false, "m", "n"));
    PlainWords();
    hide Trim, Assign;
    assert SEED_AGENT_ID != NOBODY && Log(s, "c1") == [] && Coupled(s);
    hide CoupledBut;
  }

  lemma PlainWords()
    ensures Trim("hello") == "hello" && Trim("k") == "k" && Trim("m") == "m" && Trim("n") == "n"
  {
  }

  /** Firing changes the status of one conversation and nothing else: owner and all loads stay. */
  lemma FiringKeepsOwnerAndLoads(s: State, c: string, sentAt: int, a: string)
    ensures var t := EscalateNoReply(s, c, sentAt).0;
            && t.agents == s.agents && t.logs == s.logs && t.settings == s.settings
            && (Fires(s, c, sentAt) ==> t.convs == s.convs[c := s.convs[c].(status := AIServing)])
            && (!Fires(s, c, sentAt) ==> t == s)
            && Load(t.convs, a) == Load(s.convs, a)
  {
    if Fires(s, c, sentAt) { LoadPut(s.convs, c, s.convs[c].(status := AIServing), a); }
  }
}
