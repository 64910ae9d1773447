/** The unread counters against what has happened in the conversation, over every run. */
module Unread {
  import opened Domain
  import opened StoreState
  import opened StoreRuns
  import opened Ownership
  import opened Local
  import opened LogHistory

  /** Messages of agents that are not revoked. */
  function LiveAgentMessages(log: seq<Message>): nat {
    if log == [] then 0
    else LiveAgentMessages(log[..|log| - 1]) + Live(log[|log| - 1])
  }

  function Live(m: Message): nat { if m.sender == FromAgent && m.revoked.None? then 1 else 0 }

  function VisitorMessages(log: seq<Message>): nat {
    if log == [] then 0
    else VisitorMessages(log[..|log| - 1]) + if log[|log| - 1].sender == FromVisitor then 1 else 0
  }

  /** What the log alone does not show: how many replies the AI was asked for, and where the log stood at
      the last agent message, AI reply or read mark. */
  datatype Past = Past(aiReplies: nat, mark: nat)

  function Remember(past: Past, v: View, e: Event): Past {
    match e
    case Born(_, initial, _) => Past(0, |initial|)
    case AIReply(_) => if v.View? then Past(past.aiReplies + 1, |v.log| + 1) else past
    case AgentMessage(_) => if v.View? then past.(mark := |v.log| + 1) else past
    case ReadMark => if v.View? then past.(mark := |v.log|) else past
    case _ => past
  }

  ghost function PastOf(s: State, ticks: seq<Tick>, c: string): Past
    requires Runs(s, ticks)
    decreases |ticks|
  {
    if ticks == [] then Past(0, 0)
    else
      var init := ticks[..|ticks| - 1];
      Remember(PastOf(s, init, c), ViewOf(After(s, init), c), EventOf(After(s, init), ticks[|ticks| - 1], c))
  }

  /** The counters say what the log and the past say. */
  ghost predicate CountersAgree(v: View, past: Past) {
    v.View? ==>
      && v.forVisitor == LiveAgentMessages(v.log) + past.aiReplies
      && past.mark <= |v.log|
      && v.forAgent == VisitorMessages(v.log[past.mark..])
  }

  lemma {:induction false} LiveUpdate(log: seq<Message>, p: nat, m: Message)
    requires p < |log|
    ensures LiveAgentMessages(log[p := m]) == LiveAgentMessages(log) - Live(log[p]) + Live(m)
    ensures LiveAgentMessages(log) >= Live(log[p])
  {
    var init, last := log[..|log| - 1], log[|log| - 1];
    if p < |log| - 1 {
      LiveUpdate(init, p, m);
      assert log[p := m][..|log| - 1] == init[p := m];
    } else {
      assert log[p := m][..|log| - 1] == init;
    }
  }

  lemma {:induction false} VisitorUpdate(log: seq<Message>, p: nat, m: Message)
    requires p < |log| && m.sender == log[p].sender
    ensures VisitorMessages(log[p := m]) == VisitorMessages(log)
  {
    var init := log[..|log| - 1];
    if p < |log| - 1 {
      VisitorUpdate(init, p, m);
      assert log[p := m][..|log| - 1] == init[p := m];
    } else {
      assert log[p := m][..|log| - 1] == init;
    }
  }

  lemma NoMessages()
    ensures LiveAgentMessages([]) == 0 && VisitorMessages([]) == 0
  {
  }

  /** What appending a message adds to the two counts. */
  lemma SnocAgrees(v: View, past: Past, m: Message)
    requires v.View? && CountersAgree(v, past)
    ensures (v.log + [m])[past.mark..] == v.log[past.mark..] + [m]
    ensures LiveAgentMessages(v.log + [m]) == LiveAgentMessages(v.log) + Live(m)
    ensures VisitorMessages((v.log + [m])[past.mark..]) == v.forAgent + if m.sender == FromVisitor then 1 else 0
  {
  }

  lemma VisitorMessageAgrees(v: View, past: Past, m: Message, replies: seq<Message>, now: int)
    requires v.View? && CountersAgree(v, past) && Sound(v, VisitorMessage(m, replies), now)
    ensures CountersAgree(React(v, VisitorMessage(m, replies)), past)
  {
    hide LiveAgentMessages, VisitorMessages, FindByClientId, NewTo;
    SnocAgrees(v, past, m);
    var mid := v.(forAgent := v.forAgent + 1, log := v.log + [m]);
    if replies == [] {
      assert v.log + [m] + replies == mid.log;
    } else {
      assert replies == [replies[0]] && Automatic(replies[0]);
      SnocAgrees(mid, past, replies[0]);
    }
  }

  lemma RetractionAgrees(v: View, past: Past, p: nat, m: Message, now: int)
    requires v.View? && CountersAgree(v, past) && Sound(v, Retraction(p, m), now)
    ensures CountersAgree(React(v, Retraction(p, m)), past) && v.forVisitor > 0
  {
    LiveUpdate(v.log, p, m);
    if p < past.mark {
      assert v.log[p := m][past.mark..] == v.log[past.mark..];
    } else {
      VisitorUpdate(v.log[past.mark..], p - past.mark, m);
      assert v.log[p := m][past.mark..] == v.log[past.mark..][p - past.mark := m];
    }
  }

  lemma BirthAgrees(v: View, past: Past, e: Event, now: int)
    requires e.Born? && Sound(v, e, now)
    ensures CountersAgree(React(v, e), Remember(past, v, e))
  {
    assert forall m :: m in e.initial ==> Automatic(m);
    hide Sound, NewTo;
    FirstReplyCounts(e.initial);
    assert e.initial[|e.initial|..] == [];
    NoMessages();
    hide LiveAgentMessages, VisitorMessages, Automatic;
  }

  /** An entry reply is no agent message. */
  lemma FirstReplyCounts(initial: seq<Message>)
    requires |initial| <= 1 && forall m :: m in initial ==> Automatic(m)
    ensures LiveAgentMessages(initial) == 0
  {
    if initial != [] {
      assert initial[0] in initial && initial[..0] == [];
    }
  }

  /** Every event keeps the counters in step, and a revocation never meets a zero counter. */
  lemma EventKeepsCounters(v: View, past: Past, e: Event, now: int)
    requires Sound(v, e, now) && CountersAgree(v, past)
    ensures CountersAgree(React(v, e), Remember(past, v, e))
    ensures e.Retraction? ==> v.forVisitor > 0
  {
    hide CountersAgree;
    match e
    case Born(_, _, _) => BirthAgrees(v, past, e, now);
    case VisitorMessage(m, replies) => VisitorMessageAgrees(v, past, m, replies, now);
    case Retraction(p, m) => RetractionAgrees(v, past, p, m, now);
    case _ => PlainEventAgrees(v, past, e, now);
  }

  lemma PlainEventAgrees(v: View, past: Past, e: Event, now: int)
    requires Sound(v, e, now) && CountersAgree(v, past)
    requires !e.Born? && !e.VisitorMessage? && !e.Retraction?
    ensures CountersAgree(React(v, e), Remember(past, v, e))
  {
    hide LiveAgentMessages, VisitorMessages, FindByClientId;
    NoMessages();
    if v.View? {
      match e
      case AIReply(m) =>
        SnocAgrees(v, past, m);
        assert (v.log + [m])[|v.log| + 1..] == [];
      case AgentMessage(m) =>
        SnocAgrees(v, past, m);
        assert (v.log + [m])[|v.log| + 1..] == [];
      case Note(m) => SnocAgrees(v, past, m);
      case Ending(m) => SnocAgrees(v, past, m);
      case ReadMark => assert v.log[|v.log|..] == [];
      case _ =>
    }
  }

  /** In every reachable state the visitor's counter is the number of unrevoked agent messages plus AI
      replies, and the agent's counter is the number of visitor messages since the last agent message, AI
      reply or read mark. */
  lemma {:induction false} RunsKeepCounters(s: State, ticks: seq<Tick>, c: string)
    requires Coupled(s) && Runs(s, ticks) && c !in s.convs
    ensures CountersAgree(ViewOf(After(s, ticks), c), PastOf(s, ticks, c))
  {
    hide CountersAgree;
    if ticks == [] {
      assert CountersAgree(Gone, Past(0, 0)) by { NothingYet(); }
    } else {
      var init, last := ticks[..|ticks| - 1], ticks[|ticks| - 1];
      var mid := After(s, init);
      RunsKeepCounters(s, init, c);
      RunsKeepCoupled(s, init);
      StepReacts(mid, last, c);
      EventIsSound(mid, last, c);
      var v, e := ViewOf(mid, c), EventOf(mid, last, c);
      hide Apply, EventOf, React, Sound, CoupledBut, Remember;
      EventKeepsCounters(v, PastOf(s, init, c), e, last.now);
      assert ViewOf(After(s, ticks), c) == React(v, e);
    }
  }

  lemma NothingYet()
    ensures CountersAgree(Gone, Past(0, 0))
  {
  }
}
