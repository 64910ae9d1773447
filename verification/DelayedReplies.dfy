/** Runs of the whole service: every operation of the store, with timers and AI requests going on whenever
    the environment likes. The clock strictly increases from step to step. */
module DelayedReplies {
  import opened Results
  import opened Domain
  import opened Text
  import opened StoreState
  import opened StoreRuns
  import opened Ownership
  import opened Local
  import opened LogHistory
  import opened Timers
  import opened Services

  datatype Act =
    | Operation(step: Step)
    | Wake(x: Cause)
    | Answer(x: Cause, text: string, id: string)

  /** What an act does to the store. */
  function StepOf(act: Act): Step {
    match act
    case Operation(step) => step
    case Wake(x) => TimerFires(x.c, x.at)
    case Answer(x, text, id) => AISends(x.c, text, id)
  }

  /** Timers fire and AI replies are stored only for what is pending. */
  ghost predicate Possible(w: World, act: Act) {
    && Enabled(w.store, StepOf(act))
    && match act
       case Operation(step) => !step.TimerFires? && !step.AISends?
       case Wake(x) => x in w.timers
       case Answer(x, _, _) => x in w.thinking
  }

  ghost function Next(w: World, act: Act, now: int): World
    requires Possible(w, act)
  {
    match act
    case Wake(x) => AfterTimer(w, x)
    case Answer(x, text, id) => AfterReply(w, x, text, id, now)
    case Operation(step) =>
      if step.VisitorSends? then
        var (t, r) := AddVisitorMessage(w.store, step.c, step.clientId, step.content, step.kind, step.urlSafe,
                                        step.matched, step.businessTime, step.msgId, step.replyId, now);
        AfterSend(w, step.c, t, r)
      else w.(store := Apply(w.store, Tick(now, step)))
  }

  lemma NextSteps(w: World, act: Act, now: int)
    requires Possible(w, act)
    ensures Next(w, act, now).store == Apply(w.store, Tick(now, StepOf(act)))
  {
    hide AddVisitorMessage, AddAIMessage, EscalateNoReply;
  }

  /** How often x occurs among the timers, the AI requests and the stored replies. */
  function Occurrences(w: World, x: Cause): nat { w.timers[x] + w.thinking[x] + w.answered[x] }

  /** A stored message has one occurrence at most, anything else none; a retry has timers only. */
  ghost predicate Single(w: World, x: Cause) {
    if x.at == ZERO_TIME then w.thinking[x] == 0 && w.answered[x] == 0
    else Occurrences(w, x) <= if x in w.asked then 1 else 0
  }

  ghost predicate Orderly(w: World, clock: int) {
    && Coupled(w.store) && ZERO_TIME <= clock
    && (forall c :: TimedUpTo(ViewOf(w.store, c), clock))
    && (forall x :: x in w.asked ==> ZERO_TIME < x.at <= clock)
    && (forall x, y :: x in w.asked && y in w.asked && x.at == y.at ==> x == y)
    && (forall x :: Single(w, x))
  }

  // ----- one act -----

  lemma ActKeepsTimes(w: World, act: Act, now: int, clock: int)
    requires Orderly(w, clock) && Possible(w, act) && clock < now
    ensures Coupled(Next(w, act, now).store)
    ensures forall c :: TimedUpTo(ViewOf(Next(w, act, now).store, c), now)
  {
    var tick := Tick(now, StepOf(act));
    NextSteps(w, act, now);
    StepKeepsCoupled(w.store, tick);
    hide Apply, Next, EventOf, React, Sound, CoupledBut, ViewOf;
    forall c ensures TimedUpTo(ViewOf(Apply(w.store, tick), c), now) {
      StepReacts(w.store, tick, c);
      EventIsSound(w.store, tick, c);
      EventSetsTime(ViewOf(w.store, c), EventOf(w.store, tick, c), now);
      assert TimedUpTo(ViewOf(w.store, c), clock);
    }
  }

  /** An accepted send carries the time now, or the zero time; and either it starts an AI request at once or
      it leaves the conversation assigned, never both. */
  lemma SendStartsOneThing(s: State, step: Step, now: int)
    requires step.VisitorSends?
    ensures var r := AddVisitorMessage(s, step.c, step.clientId, step.content, step.kind, step.urlSafe, step.matched,
                                       step.businessTime, step.msgId, step.replyId, now).1;
            r.Ok? ==>
              && (r.value.sentAt == now || (r.value.sentAt == ZERO_TIME && !r.value.needAI))
              && !(r.value.needAI && r.value.conv.status == Assigned)
  {
    hide FindByClientId, ValidUserMessage, Trim, Assign;
  }

  lemma SendStaysOrderly(w: World, step: Step, now: int, clock: int)
    requires Orderly(w, clock) && Possible(w, Operation(step)) && step.VisitorSends? && clock < now
    ensures var v := Next(w, Operation(step), now);
            && (forall x :: Single(v, x))
            && (forall x :: x in v.asked ==> ZERO_TIME < x.at <= now)
            && (forall x, y :: x in v.asked && y in v.asked && x.at == y.at ==> x == y)
  {
    SendStartsOneThing(w.store, step, now);
    hide AddVisitorMessage, CoupledBut, ViewOf;
    var v := Next(w, Operation(step), now);
    forall x ensures Single(v, x) { assert Single(w, x); }
  }

  lemma WakeStaysOrderly(w: World, x: Cause, now: int, clock: int)
    requires Orderly(w, clock) && Possible(w, Wake(x))
    ensures forall y :: Single(Next(w, Wake(x), now), y)
  {
    var v := Next(w, Wake(x), now);
    assert TimedUpTo(ViewOf(w.store, x.c), clock);
    hide CoupledBut;
    forall y ensures Single(v, y) { assert Single(w, y); }
  }

  lemma AnswerStaysOrderly(w: World, x: Cause, text: string, id: string, now: int, clock: int)
    requires Orderly(w, clock) && Possible(w, Answer(x, text, id))
    ensures forall y :: Single(Next(w, Answer(x, text, id), now), y)
  {
    hide CoupledBut, ViewOf, AddAIMessage;
    var v := Next(w, Answer(x, text, id), now);
    forall y ensures Single(v, y) { assert Single(w, y); }
  }

  lemma ActStaysOrderly(w: World, act: Act, now: int, clock: int)
    requires Orderly(w, clock) && Possible(w, act) && clock < now
    ensures Orderly(Next(w, act, now), now)
  {
    ActKeepsTimes(w, act, now, clock);
    match act
    case Wake(x) => WakeStaysOrderly(w, x, now, clock);
    case Answer(x, text, id) => AnswerStaysOrderly(w, x, text, id, now, clock);
    case Operation(step) =>
      if step.VisitorSends? {
        SendStaysOrderly(w, step, now, clock);
      } else {
        forall x ensures Single(Next(w, act, now), x) { assert Single(w, x); }
      }
    hide CoupledBut, Single, TimedUpTo, ViewOf, Apply;
  }

  // ----- what an act starts -----

  /** An accepted send starts a timer exactly if it arms one, and an AI request exactly if one is needed. */
  lemma SendStarts(w: World, step: Step, now: int)
    requires Possible(w, Operation(step)) && step.VisitorSends?
    ensures var r := AddVisitorMessage(w.store, step.c, step.clientId, step.content, step.kind, step.urlSafe,
                                       step.matched, step.businessTime, step.msgId, step.replyId, now).1;
            var v := Next(w, Operation(step), now);
            && v.answered == w.answered
            && (r.Err? ==> v.timers == w.timers && v.thinking == w.thinking && v.asked == w.asked)
            && (r.Ok? ==>
                  var x := Cause(step.c, r.value.input.id, r.value.sentAt);
                  && v.asked == (if r.value.sentAt == 0 then w.asked else w.asked + {x})
                  && forall y ::
                       && v.thinking[y] == w.thinking[y] + (if y == x && r.value.needAI then 1 else 0)
                       && v.timers[y] == w.timers[y] +
                          if y == x && Arms(w.store, Tick(now, step), r.value.sentAt) then 1 else 0)
  {
    SendKeepsSettings(w.store, step, now);
    hide AddVisitorMessage;
  }

  lemma SendKeepsSettings(s: State, step: Step, now: int)
    requires step.VisitorSends?
    ensures AddVisitorMessage(s, step.c, step.clientId, step.content, step.kind, step.urlSafe, step.matched,
                              step.businessTime, step.msgId, step.replyId, now).0.settings == s.settings
  {
    hide Trim, FindByClientId, ValidUserMessage, Assign;
  }

  /** A timer that wakes is spent, and starts an AI request exactly if it fires. */
  lemma WakeStarts(w: World, x: Cause, now: int)
    requires Possible(w, Wake(x))
    ensures var v := Next(w, Wake(x), now);
            && v.asked == w.asked && v.answered == w.answered
            && forall y ::
                 && v.timers[y] == w.timers[y] - (if y == x then 1 else 0)
                 && v.thinking[y] == w.thinking[y] + if y == x && Fires(w.store, x.c, x.at) then 1 else 0
  {
  }

  /** A reply is stored as the newest message of its conversation exactly if that is open, and the request is
      settled in any case. */
  lemma AnswerSettles(w: World, x: Cause, text: string, id: string, now: int)
    requires Possible(w, Answer(x, text, id))
    ensures var v := Next(w, Answer(x, text, id), now);
            var open := x.c in w.store.convs && w.store.convs[x.c].status != Closed;
            && v.asked == w.asked && v.timers == w.timers
            && (forall y ::
                  && v.thinking[y] == w.thinking[y] - (if y == x then 1 else 0)
                  && v.answered[y] == w.answered[y] + if y == x && open then 1 else 0)
            && Log(v.store, x.c) ==
               Log(w.store, x.c) + if open then [Message(id, "", FromAI, "ai", AIText, Trim(text), now, None)] else []
  {
    hide Trim;
    assert Log(w.store, x.c) + [] == Log(w.store, x.c);
  }

  /** A send that needs the AI leaves its request pending beside an open conversation. */
  lemma RequestIsPending(w: World, step: Step, now: int)
    requires Possible(w, Operation(step)) && step.VisitorSends?
    ensures var (t, r) := AddVisitorMessage(w.store, step.c, step.clientId, step.content, step.kind, step.urlSafe,
                                            step.matched, step.businessTime, step.msgId, step.replyId, now);
            var v := Next(w, Operation(step), now);
            v.store == t
            && (r.Ok? && r.value.needAI ==>
                  var x := Cause(step.c, r.value.input.id, r.value.sentAt);
                  && v.thinking[x] == w.thinking[x] + 1 && v.answered == w.answered
                  && step.c in t.convs && t.convs[step.c].status != Closed)
  {
    NeedyIsOpen(w.store, step, now);
    hide AddVisitorMessage;
  }

  /** So a visitor's message that needs the AI can be answered as soon as a reply comes. */
  lemma NeededAnswerIsGiven(w: World, step: Step, now: int, text: string, id: string, later: int)
    requires Possible(w, Operation(step)) && step.VisitorSends?
    requires FreshMessage(Next(w, Operation(step), now).store, step.c, id)
    ensures var r := AddVisitorMessage(w.store, step.c, step.clientId, step.content, step.kind, step.urlSafe,
                                       step.matched, step.businessTime, step.msgId, step.replyId, now).1;
            r.Ok? && r.value.needAI ==>
              var v, x := Next(w, Operation(step), now), Cause(step.c, r.value.input.id, r.value.sentAt);
              && Possible(v, Answer(x, text, id))
              && Next(v, Answer(x, text, id), later).answered[x] == w.answered[x] + 1
              && Log(Next(v, Answer(x, text, id), later).store, step.c) ==
                 Log(v.store, step.c) + [Message(id, "", FromAI, "ai", AIText, Trim(text), later, None)]
  {
    RequestIsPending(w, step, now);
    hide AddVisitorMessage, Trim, Next, FreshMessage;
    var r := AddVisitorMessage(w.store, step.c, step.clientId, step.content, step.kind, step.urlSafe,
                               step.matched, step.businessTime, step.msgId, step.replyId, now).1;
    if r.Ok? && r.value.needAI {
      var v, x := Next(w, Operation(step), now), Cause(step.c, r.value.input.id, r.value.sentAt);
      assert x in v.thinking;
      AnswerSettles(v, x, text, id, later);
    }
  }

  lemma NeedyIsOpen(s: State, step: Step, now: int)
    requires step.VisitorSends?
    ensures var (t, r) := AddVisitorMessage(s, step.c, step.clientId, step.content, step.kind, step.urlSafe,
                                            step.matched, step.businessTime, step.msgId, step.replyId, now);
            r.Ok? && r.value.needAI ==> step.c in t.convs && t.convs[step.c].status != Closed
  {
    hide Trim, FindByClientId, ValidUserMessage, Assign;
  }

  // ----- whole runs -----

  datatype Moment = Moment(now: int, act: Act)

  ghost predicate Proceeds(w: World, clock: int, moments: seq<Moment>)
    decreases |moments|, 0
  {
    moments == [] || (Proceeds(w, clock, moments[..|moments| - 1])
                      && Possible(Reached(w, clock, moments[..|moments| - 1]), moments[|moments| - 1].act)
                      && Clock(clock, moments[..|moments| - 1]) < moments[|moments| - 1].now)
  }

  ghost function Reached(w: World, clock: int, moments: seq<Moment>): World
    requires Proceeds(w, clock, moments)
    decreases |moments|, 1
  {
    if moments == [] then w
    else Next(Reached(w, clock, moments[..|moments| - 1]), moments[|moments| - 1].act, moments[|moments| - 1].now)
  }

  function Clock(clock: int, moments: seq<Moment>): int { if moments == [] then clock else moments[|moments| - 1].now }

  lemma {:induction false} RunsStayOrderly(w: World, clock: int, moments: seq<Moment>)
    requires Orderly(w, clock) && Proceeds(w, clock, moments)
    ensures Orderly(Reached(w, clock, moments), Clock(clock, moments))
  {
    hide Orderly, Next, Possible;
    if moments != [] {
      var init, last := moments[..|moments| - 1], moments[|moments| - 1];
      RunsStayOrderly(w, clock, init);
      ActStaysOrderly(Reached(w, clock, init), last.act, last.now, Clock(clock, init));
    }
  }

  lemma FreshServiceIsOrderly(entryReply: string)
    ensures Orderly(World(Initial(entryReply), multiset{}, multiset{}, {}, multiset{}), ZERO_TIME)
  {
  }

  /** In every run of a fresh service the AI answers a visitor message at most once, whether at once or
      after the no-reply timeout; and of the timers pending for a conversation at most one would fire now. */
  lemma AnsweredAtMostOnce(entryReply: string, moments: seq<Moment>, x: Cause, y: Cause)
    requires Proceeds(World(Initial(entryReply), multiset{}, multiset{}, {}, multiset{}), ZERO_TIME, moments)
    ensures var w := Reached(World(Initial(entryReply), multiset{}, multiset{}, {}, multiset{}), ZERO_TIME, moments);
            && w.answered[x] <= (if x in w.asked then 1 else 0)
            && (w.answered[x] == 1 ==> w.timers[x] == 0 && w.thinking[x] == 0)
            && (x in w.timers && y in w.timers && x.c == y.c
                && Fires(w.store, x.c, x.at) && Fires(w.store, y.c, y.at) ==>
                  x == y && w.timers[x] == 1)
  {
    FreshServiceIsOrderly(entryReply);
    var start := World(Initial(entryReply), multiset{}, multiset{}, {}, multiset{});
    RunsStayOrderly(start, ZERO_TIME, moments);
    var w := Reached(start, ZERO_TIME, moments);
    hide Proceeds, Reached, CoupledBut;
    assert Single(w, x) && Single(w, y);
    assert TimedUpTo(ViewOf(w.store, x.c), Clock(ZERO_TIME, moments));
    if x.at == ZERO_TIME { assert w.answered[x] == 0; }
  }
}
