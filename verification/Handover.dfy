/** What becomes of an agent's conversations when the agent goes offline, is disabled or is deleted, for
    every order in which the map may be visited. */
module Handover {
  import opened Results
  import opened Domain
  import opened Selection
  import opened StoreState
  import opened Ownership
  import opened Accounting

  /** The conversations that passed from a to b. */
  function Received(before: map<string, Conversation>, after: map<string, Conversation>,
                    a: string, b: string): set<string>
  {
    set c | c in before && c in after && Holds(before[c], a) && after[c].owner == b
  }

  /** Where one of a's open conversations may end up. */
  ghost predicate Settled(s: State, was: Conversation, now: Conversation) {
    || (now.owner in s.agents && now == was.(owner := now.owner, status := Assigned))
    || now == was.(owner := NOBODY,
                   status := if s.settings.aiMode == AlwaysAI || FallsBackToAI(s.settings) then AIServing else Waiting)
  }

  ghost predicate NobodyHasRoom(agents: map<string, Agent>) {
    forall b :: b in agents ==> !Eligible(agents[b], "")
  }

  /** Part-way through the loop, done being the conversations visited: each of a's open ones is settled
      elsewhere, a closed one loses its owner on deletion only, and nothing else has changed. */
  ghost predicate ConvsHandedOver(s: State, t: State, a: string, done: set<string>, deleting: bool) {
    && t.settings == s.settings && t.logs == s.logs && t.convs.Keys == s.convs.Keys
    && forall c :: c in s.convs ==>
         if c in done && Holds(s.convs[c], a) then Settled(s, s.convs[c], t.convs[c]) && t.convs[c].owner != a
         else if c in done && s.convs[c].owner == a && deleting then t.convs[c] == s.convs[c].(owner := NOBODY)
         else t.convs[c] == s.convs[c]
  }

  /** Another agent's load has risen by exactly what was received, and a receiver is online and not past
      the maximum. */
  ghost predicate LoadHandedOver(s: State, t: State, a: string, b: string)
    requires b in s.agents
  {
    var got := Received(s.convs, t.convs, a, b);
    && b in t.agents
    && t.agents[b] == s.agents[b].(cur := s.agents[b].cur + |got|)
    && (got != {} ==> t.agents[b].status == Online && t.agents[b].cur <= t.agents[b].max)
  }

  ghost predicate LoadsHandedOver(s: State, t: State, a: string) {
    && t.agents.Keys == s.agents.Keys
    && (a in s.agents ==> t.agents[a] == s.agents[a])
    && forall b :: b in s.agents && b != a ==> LoadHandedOver(s, t, a, b)
  }

  /** Outside always_ai a conversation is left without an owner only if nobody has room. */
  ghost predicate LeftOnlyWhenFull(s: State, t: State, a: string) {
    && s.settings.aiMode != AlwaysAI
    && (exists c :: c in s.convs && c in t.convs && Holds(s.convs[c], a) && t.convs[c].owner == NOBODY)
    ==> NobodyHasRoom(t.agents)
  }

  /** One visit to an open conversation of a: it goes to an agent with room, or to nobody. */
  lemma VisitOpen(t: State, a: string, c: string, deleting: bool) returns (to: Option<string>)
    requires c in t.convs && Holds(t.convs[c], a) && NOBODY !in t.agents
    requires a in t.agents && !Eligible(t.agents[a], "")
    ensures var u, conv := ReleaseOne(t, a, c, deleting), t.convs[c];
            match to
            case Some(b) =>
              && b in t.agents && b != a && Eligible(t.agents[b], "")
              && u.agents == t.agents[b := t.agents[b].(cur := t.agents[b].cur + 1)]
              && u.convs == t.convs[c := conv.(owner := b, status := Assigned)]
            case None =>
              && u.agents == t.agents && Settled(t, conv, u.convs[c]) && u.convs[c].owner == NOBODY
              && u.convs == t.convs[c := u.convs[c]]
              && (t.settings.aiMode != AlwaysAI ==> NobodyHasRoom(t.agents))
  {
    var conv := t.convs[c];
    var dropped := PutConv(t, c, conv.(owner := NOBODY, status := Waiting));
    to := if t.settings.aiMode == AlwaysAI then None else LeastLoaded(t.agents, "");
    if to.Some? {
      assert Assign(dropped, c).convs == t.convs[c := conv.(owner := to.value, status := Assigned)];
    } else {
      var u := ReleaseOne(t, a, c, deleting);
      assert u.convs == t.convs[c := u.convs[c]];
    }
  }

  /** One visit to any other conversation. */
  lemma VisitOther(t: State, a: string, c: string, deleting: bool)
    requires c in t.convs && !Holds(t.convs[c], a)
    ensures var u := ReleaseOne(t, a, c, deleting);
            && u.agents == t.agents && u.convs == t.convs[c := u.convs[c]]
            && u.convs[c] == if t.convs[c].owner == a && deleting then t.convs[c].(owner := NOBODY) else t.convs[c]
  {
  }

  lemma VisitKeepsConvs(s: State, t: State, a: string, done: set<string>, c: string, deleting: bool)
    requires a in t.agents && NOBODY !in t.agents && a != NOBODY && !Eligible(t.agents[a], "")
    requires ConvsHandedOver(s, t, a, done, deleting) && c in s.convs && c !in done && t.agents.Keys == s.agents.Keys
    ensures ConvsHandedOver(s, ReleaseOne(t, a, c, deleting), a, done + {c}, deleting)
  {
    hide ReleaseOne, Eligible;
    if Holds(t.convs[c], a) {
      var to := VisitOpen(t, a, c, deleting);
    } else {
      VisitOther(t, a, c, deleting);
    }
  }

  /** b has received c now if it owns it now, and everything else as before. */
  lemma ReceivedAfter(before: map<string, Conversation>, mid: map<string, Conversation>, a: string, b: string,
                      c: string, conv: Conversation)
    requires c in before && mid.Keys == before.Keys && before[c] == mid[c] && a != b
    requires Holds(before[c], a) || conv.owner == NOBODY || conv == mid[c]
    requires b != NOBODY
    ensures var got := Received(before, mid, a, b);
            && c !in got
            && Received(before, mid[c := conv], a, b)
               == if Holds(before[c], a) && conv.owner == b then got + {c} else got
  {
  }

  lemma VisitKeepsLoads(s: State, t: State, a: string, done: set<string>, c: string, deleting: bool)
    requires a in t.agents && NOBODY !in t.agents && a != NOBODY && !Eligible(t.agents[a], "")
    requires ConvsHandedOver(s, t, a, done, deleting) && c in s.convs && c !in done && LoadsHandedOver(s, t, a)
    ensures LoadsHandedOver(s, ReleaseOne(t, a, c, deleting), a)
  {
    var u, to := ReleaseOne(t, a, c, deleting), None;
    assert s.convs[c] == t.convs[c] && t.convs.Keys == s.convs.Keys;
    hide ReleaseOne, Settled, Received, ConvsHandedOver;
    if Holds(t.convs[c], a) {
      to := VisitOpen(t, a, c, deleting);
    } else {
      VisitOther(t, a, c, deleting);
    }
    assert u.convs == t.convs[c := u.convs[c]];
    hide Holds, LoadHandedOver, Eligible;
    forall b | b in s.agents && b != a ensures LoadHandedOver(s, u, a, b) {
      assert LoadHandedOver(s, t, a, b);
      LoadAfterVisit(s, t, u, a, b, c, to);
    }
  }

  /** One agent's load when the visit gave c to somebody, or to nobody. */
  lemma LoadAfterVisit(s: State, t: State, u: State, a: string, b: string, c: string, to: Option<string>)
    requires b in s.agents && b != a && b != NOBODY && LoadHandedOver(s, t, a, b)
    requires c in s.convs && t.convs.Keys == s.convs.Keys && s.convs[c] == t.convs[c] && c in u.convs
    requires u.convs == t.convs[c := u.convs[c]]
    requires Holds(t.convs[c], a) || u.convs[c].owner == NOBODY || u.convs[c] == t.convs[c]
    requires to.Some? ==>
               && Holds(t.convs[c], a) && u.convs[c].owner == to.value
               && to.value in t.agents && Eligible(t.agents[to.value], "")
               && u.agents == t.agents[to.value := t.agents[to.value].(cur := t.agents[to.value].cur + 1)]
    requires to.None? ==> u.agents == t.agents && (Holds(t.convs[c], a) ==> u.convs[c].owner == NOBODY)
    ensures LoadHandedOver(s, u, a, b)
  {
    ReceivedAfter(s.convs, t.convs, a, b, c, u.convs[c]);
    hide Received, Holds;
  }

  lemma VisitKeepsFull(s: State, t: State, a: string, done: set<string>, c: string, deleting: bool)
    requires a in t.agents && NOBODY !in t.agents && a != NOBODY && !Eligible(t.agents[a], "")
    requires ConvsHandedOver(s, t, a, done, deleting) && c in s.convs && c !in done && LeftOnlyWhenFull(s, t, a)
    ensures LeftOnlyWhenFull(s, ReleaseOne(t, a, c, deleting), a)
  {
  }

  /** The whole loop. */
  lemma {:induction false} ReleaseHandsOver(s: State, a: string, order: seq<string>, deleting: bool)
    requires a in s.agents && a != NOBODY && NOBODY !in s.agents && !Eligible(s.agents[a], "")
    requires (forall c :: c in order ==> c in s.convs) && (forall i, j :: 0 <= i < j < |order| ==> order[i] != order[j])
    ensures var t := Release(s, a, order, deleting);
            && ConvsHandedOver(s, t, a, (set c | c in order), deleting)
            && LoadsHandedOver(s, t, a) && LeftOnlyWhenFull(s, t, a)
  {
    hide ReleaseOne, ConvsHandedOver, LoadHandedOver, LeftOnlyWhenFull, Eligible;
    if order == [] {
      NothingHandedOver(s, a, deleting);
      assert (set c | c in order) == {};
    } else {
      var init, c := order[..|order| - 1], order[|order| - 1];
      ReleaseHandsOver(s, a, init, deleting);
      var t, done := Release(s, a, init, deleting), set d | d in init;
      VisitKeepsConvs(s, t, a, done, c, deleting);
      VisitKeepsLoads(s, t, a, done, c, deleting);
      VisitKeepsFull(s, t, a, done, c, deleting);
      assert done + {c} == set d | d in order;
    }
  }

  lemma NothingHandedOver(s: State, a: string, deleting: bool)
    requires a != NOBODY
    ensures ConvsHandedOver(s, s, a, {}, deleting) && LoadsHandedOver(s, s, a) && LeftOnlyWhenFull(s, s, a)
  {
  }

  /** What taking an agent's work away does, from the state before the operation to the state after it. */
  ghost predicate Vacated(s: State, t: State, a: string, deleting: bool) {
    && ConvsHandedOver(s, t, a, s.convs.Keys, deleting)
    && (forall b :: b in s.agents && b != a ==> LoadHandedOver(s, t, a, b))
    && LeftOnlyWhenFull(s, t, a)
  }

  lemma TakingAwayVacates(s: State, a: string, idle: Agent, order: seq<string>, deleting: bool)
    requires Coupled(s) && a in s.agents && VisitsAll(order, s) && idle.status == Offline
    ensures var t := Release(PutAgent(s, a, idle), a, order, deleting);
            Vacated(s, t, a, deleting) && t.agents[a] == idle && t.agents.Keys == s.agents.Keys
  {
    hide Release, LeftOnlyWhenFull, ConvsHandedOver, LoadHandedOver;
    var prepared := PutAgent(s, a, idle);
    ReleaseHandsOver(prepared, a, order, deleting);
    var t := Release(prepared, a, order, deleting);
    assert (set c | c in order) == s.convs.Keys;
    PreparedConvs(s, idle, t, a, deleting);
    forall b | b in s.agents && b != a ensures LoadHandedOver(s, t, a, b) {
      PreparedLoad(s, idle, t, a, b);
    }
  }

  /** Setting the leaving agent idle first makes no difference to what is handed over. */
  lemma PreparedConvs(s: State, idle: Agent, t: State, a: string, deleting: bool)
    requires a in s.agents
    requires ConvsHandedOver(PutAgent(s, a, idle), t, a, s.convs.Keys, deleting)
             && LeftOnlyWhenFull(PutAgent(s, a, idle), t, a)
    ensures ConvsHandedOver(s, t, a, s.convs.Keys, deleting) && LeftOnlyWhenFull(s, t, a)
  {
  }

  lemma PreparedLoad(s: State, idle: Agent, t: State, a: string, b: string)
    requires a in s.agents && b in s.agents && b != a && LoadHandedOver(PutAgent(s, a, idle), t, a, b)
    ensures LoadHandedOver(s, t, a, b)
  {
  }

  lemma OfflineVacates(s: State, a: string, order: seq<string>)
    requires Coupled(s) && a in s.agents && VisitsAll(order, s)
    ensures var t := SetAgentStatus(s, a, Offline, order).0;
            && Vacated(s, t, a, false) && t.agents.Keys == s.agents.Keys
            && t.agents[a] == s.agents[a].(status := Offline, cur := 0)
  {
    hide Release, Released, Vacated;
    var agent := s.agents[a].(status := Offline);
    assert PutAgent(PutAgent(s, a, agent), a, agent.(cur := 0)) == PutAgent(s, a, agent.(cur := 0));
    TakingAwayVacates(s, a, agent.(cur := 0), order, false);
  }

  lemma DisableVacates(s: State, a: string, order: seq<string>)
    requires Coupled(s) && a in s.agents && VisitsAll(order, s)
    ensures var t := DisableAgent(s, a, order).0;
            && Vacated(s, t, a, false) && t.agents.Keys == s.agents.Keys
            && t.agents[a] == s.agents[a].(disabled := true, status := Offline, cur := 0)
  {
    hide Release, Vacated;
    TakingAwayVacates(s, a, s.agents[a].(disabled := true, status := Offline, cur := 0), order, false);
  }

  lemma DeleteVacates(s: State, a: string, order: seq<string>)
    requires Coupled(s) && a in s.agents && VisitsAll(order, s)
    ensures var t := DeleteAgent(s, a, order).0;
            Vacated(s, t, a, true) && t.agents.Keys == s.agents.Keys - {a}
  {
    hide Release, Vacated;
    var idle := s.agents[a].(status := Offline, cur := 0);
    TakingAwayVacates(s, a, idle, order, true);
    RemovalKeepsVacated(s, Release(PutAgent(s, a, idle), a, order, true), a);
  }

  /** Removing the agent's own record changes nothing for the others. */
  lemma RemovalKeepsVacated(s: State, t: State, a: string)
    requires Vacated(s, t, a, true)
    ensures Vacated(s, t.(agents := t.agents - {a}), a, true)
  {
    hide Settled, Received, Holds, Eligible;
    RemovalKeepsLoads(s, t, a);
    hide LoadHandedOver;
  }

  lemma RemovalKeepsLoads(s: State, t: State, a: string)
    requires forall b :: b in s.agents && b != a ==> LoadHandedOver(s, t, a, b)
    ensures forall b :: b in s.agents && b != a ==> LoadHandedOver(s, t.(agents := t.agents - {a}), a, b)
  {
    hide Received;
    forall b | b in s.agents && b != a ensures LoadHandedOver(s, t.(agents := t.agents - {a}), a, b) {
      assert LoadHandedOver(s, t, a, b);
    }
  }

  /** The agent is left with no open conversation, whichever way the work was taken away. */
  lemma VacatedHoldsNothing(s: State, t: State, a: string, deleting: bool)
    requires Vacated(s, t, a, deleting)
    ensures Load(t.convs, a) == 0
  {
  }
}
