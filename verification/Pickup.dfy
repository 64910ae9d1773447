/** What an agent takes over on coming online, and the one-at-a-time form of the SQL store. */
module Pickup {
  import opened Domain
  import opened StoreState

  /** The conversations waiting for an agent or asking for one. */
  function Queue(s: State): set<string> {
    set c | c in s.convs && (s.convs[c].status == Waiting || s.convs[c].status == HumanRequested)
  }

  function Room(agent: Agent): nat { if agent.cur >= agent.max then 0 else agent.max - agent.cur }

  /** The state after a took over got. */
  function TakenOver(s: State, a: string, got: set<string>): State
    requires a in s.agents
  {
    s.(agents := s.agents[a := s.agents[a].(cur := s.agents[a].cur + |got|)],
       convs := map c | c in s.convs :: if c in got then s.convs[c].(owner := a, status := Assigned) else s.convs[c])
  }

  /** t is s after agent a took over exactly the conversations in got. */
  ghost predicate TookOver(s: State, t: State, a: string, got: set<string>)
    requires a in s.agents
  {
    got <= Queue(s) && t == TakenOver(s, a, got)
  }

  /** Distinct conversations, older ones first, with every queued one among them. */
  ghost predicate CoversQueue(order: seq<string>, s: State) {
    && (forall c :: c in order ==> c in s.convs)
    && (forall i, j :: 0 <= i < j < |order| ==> order[i] != order[j])
    && (forall i, j :: 0 <= i < j < |order| ==> s.convs[order[i]].created <= s.convs[order[j]].created)
    && (forall c :: c in Queue(s) ==> c in order)
  }

  lemma TailCovers(order: seq<string>, s: State, a: string)
    requires CoversQueue(order, s) && order != [] && a in s.agents
    ensures var next := if Queued(s.convs[order[0]]) then Take(s, order[0], a) else s;
            && CoversQueue(order[1..], next)
            && Queue(next) == Queue(s) - {order[0]}
  {
    var c, tail := order[0], order[1..];
    var next := if Queued(s.convs[c]) then Take(s, c, a) else s;
    assert forall d :: d in order <==> d == c || d in tail;
    assert forall d :: d in s.convs ==> next.convs[d].created == s.convs[d].created;
    assert forall i :: 0 <= i < |tail| ==> tail[i] == order[i + 1];
  }

  /** Coming online takes over min(queue, room) conversations, none created after one left behind. */
  ghost predicate TookOldest(s: State, a: string, got: set<string>)
    requires a in s.agents
  {
    && got <= Queue(s)
    && |got| == (if |Queue(s)| <= Room(s.agents[a]) then |Queue(s)| else Room(s.agents[a]))
    && forall c, d :: c in got && d in Queue(s) - got ==> s.convs[c].created <= s.convs[d].created
  }

  lemma {:induction false} PickUpTakesOldest(s: State, a: string, order: seq<string>) returns (got: set<string>)
    requires a in s.agents && CoversQueue(order, s)
    ensures TookOver(s, PickUp(s, a, order), a, got) && TookOldest(s, a, got)
    decreases |order|
  {
    if order == [] || s.agents[a].cur >= s.agents[a].max {
      got := {};
      assert order == [] ==> Queue(s) == {};
      NothingTaken(s, a);
    } else {
      hide TookOver, TookOldest, CoversQueue;
      var c := order[0];
      TailCovers(order, s, a);
      if Queued(s.convs[c]) {
        var next := Take(s, c, a);
        var rest := PickUpTakesOldest(next, a, order[1..]);
        got := rest + {c};
        HeadIsOldest(order, s);
        TakeThenTookOver(s, c, a, PickUp(next, a, order[1..]), rest);
        TakeThenTookOldest(s, c, a, rest);
      } else {
        got := PickUpTakesOldest(s, a, order[1..]);
      }
    }
  }

  /** The whole operation, from the state before it. */
  lemma OnlineTakesOldest(s: State, a: string, order: seq<string>) returns (got: set<string>)
    requires a in s.agents && !s.agents[a].disabled && OldestFirst(order, s)
    ensures TookOldest(s, a, got)
    ensures TookOver(PutAgent(s, a, s.agents[a].(status := Online)), SetAgentStatus(s, a, Online, order).0, a, got)
  {
    hide PickUp, PickedUp;
    got := PickUpTakesOldest(PutAgent(s, a, s.agents[a].(status := Online)), a, order);
    assert Queue(PutAgent(s, a, s.agents[a].(status := Online))) == Queue(s);
  }

  lemma NothingTaken(s: State, a: string)
    requires a in s.agents
    ensures TookOver(s, s, a, {})
  {
  }

  lemma HeadIsOldest(order: seq<string>, s: State)
    requires CoversQueue(order, s) && order != []
    ensures forall d :: d in Queue(s) ==> s.convs[order[0]].created <= s.convs[d].created
  {
  }

  lemma TakeThenTookOver(s: State, c: string, a: string, t: State, rest: set<string>)
    requires a in s.agents && c in Queue(s) && TookOver(Take(s, c, a), t, a, rest)
    requires Queue(Take(s, c, a)) == Queue(s) - {c}
    ensures TookOver(s, t, a, rest + {c})
  {
    var next := Take(s, c, a);
    assert |rest + {c}| == |rest| + 1;
    assert t.agents == s.agents[a := s.agents[a].(cur := s.agents[a].cur + |rest + {c}|)];
    assert t.convs.Keys == s.convs.Keys;
  }

  lemma TakeThenTookOldest(s: State, c: string, a: string, rest: set<string>)
    requires a in s.agents && c in Queue(s) && s.agents[a].cur < s.agents[a].max
    requires TookOldest(Take(s, c, a), a, rest)
    requires Queue(Take(s, c, a)) == Queue(s) - {c}
    requires forall d :: d in Queue(s) ==> s.convs[c].created <= s.convs[d].created
    ensures TookOldest(s, a, rest + {c})
  {
    var next := Take(s, c, a);
    assert |rest + {c}| == |rest| + 1 && |Queue(next)| == |Queue(s)| - 1;
    assert Queue(s) - (rest + {c}) == Queue(next) - rest;
  }

  // ----- the SQL form: one oldest conversation at a time -----

  predicate Oldest(s: State, c: string) {
    c in Queue(s) && forall d :: d in Queue(s) ==> s.convs[c].created <= s.convs[d].created
  }

  lemma {:induction false} OldestExists(s: State, pool: set<string>) returns (c: string)
    requires pool != {} && pool <= Queue(s)
    ensures c in pool && forall d :: d in pool ==> s.convs[c].created <= s.convs[d].created
  {
    c :| c in pool;
    if pool != {c} {
      var other := OldestExists(s, pool - {c});
      if s.convs[other].created < s.convs[c].created { c := other; }
    }
  }

  /** ORDER BY created_at LIMIT 1 over the queued rows: any one of the oldest. */
  method NextWaiting(s: State) returns (c: string)
    requires Queue(s) != {}
    ensures Oldest(s, c)
  {
    ghost var found := OldestExists(s, Queue(s));
    assert Oldest(s, found);
    c :| c in Queue(s) && Oldest(s, c);
  }

  lemma TakeOneMore(s: State, t: State, a: string, got: set<string>, c: string)
    requires a in s.agents && TookOver(s, t, a, got) && c in Queue(t)
    ensures c in Queue(s) - got && TookOver(s, Take(t, c, a), a, got + {c})
    ensures Queue(Take(t, c, a)) == Queue(s) - (got + {c})
  {
    assert |got + {c}| == |got| + 1;
    assert c !in got;
    TakenOneMore(s, a, got, c);
    hide Take, TakenOver;
    QueueLeft(s, TakenOver(s, a, got + {c}), a, got + {c});
  }

  lemma TakenOneMore(s: State, a: string, got: set<string>, c: string)
    requires a in s.agents && c in s.convs && got <= Queue(s) && c in Queue(s) - got && |got + {c}| == |got| + 1
    ensures Take(TakenOver(s, a, got), c, a) == TakenOver(s, a, got + {c})
  {
    var next, more := Take(TakenOver(s, a, got), c, a), TakenOver(s, a, got + {c});
    hide Queue;
    assert next.agents == more.agents;
    assert next.convs == more.convs;
  }

  lemma QueueLeft(s: State, t: State, a: string, got: set<string>)
    requires a in s.agents && TookOver(s, t, a, got)
    ensures Queue(t) == Queue(s) - got
  {
  }

  /** Part-way through the loop: got has been taken over, none of it younger than what is left. */
  ghost predicate PartWay(s: State, t: State, a: string, got: set<string>)
    requires a in s.agents
  {
    && TookOver(s, t, a, got) && |got| <= Room(s.agents[a])
    && forall c, d :: c in got && d in Queue(s) - got ==> s.convs[c].created <= s.convs[d].created
  }

  lemma PartWayFacts(s: State, t: State, a: string, got: set<string>)
    requires a in s.agents && PartWay(s, t, a, got)
    ensures t.agents.Keys == s.agents.Keys && t.agents[a] == s.agents[a].(cur := s.agents[a].cur + |got|)
    ensures Queue(t) == Queue(s) - got && t.convs.Keys == s.convs.Keys
    ensures forall c :: c in s.convs ==> t.convs[c].created == s.convs[c].created
  {
  }

  lemma PartWayOn(s: State, t: State, a: string, got: set<string>, c: string)
    requires a in s.agents && PartWay(s, t, a, got) && |got| < Room(s.agents[a]) && Oldest(t, c)
    ensures PartWay(s, Take(t, c, a), a, got + {c})
  {
    PartWayFacts(s, t, a, got);
    TakeOneMore(s, t, a, got, c);
    assert |got + {c}| == |got| + 1;
    hide TookOver, Room;
  }

  /** The loop of the SQL store: fetch one oldest queued row, assign it, and go on while there is room. */
  method PickUpOneByOne(s: State, a: string) returns (t: State, got: set<string>)
    requires a in s.agents
    ensures TookOver(s, t, a, got) && TookOldest(s, a, got)
  {
    t, got := s, {};
    NothingTaken(s, a);
    while t.agents[a].cur < t.agents[a].max
      invariant a in t.agents && PartWay(s, t, a, got)
      decreases t.agents[a].max - t.agents[a].cur
    {
      hide PartWay;
      PartWayFacts(s, t, a, got);
      if Queue(t) == {} {
        break;
      }
      var c := NextWaiting(t);
      PartWayOn(s, t, a, got, c);
      t, got := Take(t, c, a), got + {c};
    }
    PartWayFacts(s, t, a, got);
    CountTaken(s, a, got);
  }

  lemma CountTaken(s: State, a: string, got: set<string>)
    requires a in s.agents && got <= Queue(s) && |got| <= Room(s.agents[a])
    requires Queue(s) - got == {} || |got| == Room(s.agents[a])
    ensures |got| == if |Queue(s)| <= Room(s.agents[a]) then |Queue(s)| else Room(s.agents[a])
  {
    assert |Queue(s) - got| == |Queue(s)| - |got|;
  }

  // ----- when the two forms agree -----

  function Older(s: State, c: string): set<string>
    requires c in s.convs
  {
    set d | d in Queue(s) && s.convs[d].created < s.convs[c].created
  }

  function NoYounger(s: State, c: string): set<string>
    requires c in s.convs
  {
    set d | d in Queue(s) && s.convs[d].created <= s.convs[c].created
  }

  /** The agent has room for all that are older than some queued conversation, and for some but not all of
      those created at the same time. */
  ghost predicate TieAtCut(s: State, a: string)
    requires a in s.agents
  {
    exists c :: c in Queue(s) && |Older(s, c)| < Room(s.agents[a]) < |NoYounger(s, c)|
  }

  /** A conversation taken and one left behind were created at the same time. */
  ghost predicate SplitsATie(s: State, got: set<string>) {
    exists c, d :: c in got && c in Queue(s) && d in Queue(s) - got && s.convs[c].created == s.convs[d].created
  }

  lemma TieIsSplit(s: State, a: string, got: set<string>)
    requires a in s.agents && TookOldest(s, a, got)
    ensures TieAtCut(s, a) <==> SplitsATie(s, got)
  {
    if SplitsATie(s, got) {
      var c, d :| c in got && c in Queue(s) && d in Queue(s) - got && s.convs[c].created == s.convs[d].created;
      SplitMeansTie(s, a, got, c, d);
    }
    if TieAtCut(s, a) {
      var c :| c in Queue(s) && |Older(s, c)| < Room(s.agents[a]) < |NoYounger(s, c)|;
      TieMeansSplit(s, a, got, c);
    }
  }

  lemma ProperSubset(a: set<string>, b: set<string>, x: string)
    requires a <= b && x in b - a
    ensures |a| < |b|
  {
    assert |b - a| == |b| - |a| && x in b - a;
  }

  lemma FewerMissSome(a: set<string>, b: set<string>) returns (x: string)
    requires |a| < |b|
    ensures x in b - a
  {
    assert |b - a| == |b| - |a * b| && |a * b| <= |a| by { assert |a - b| == |a| - |a * b|; }
    x :| x in b - a;
  }

  lemma SplitMeansTie(s: State, a: string, got: set<string>, c: string, d: string)
    requires a in s.agents && TookOldest(s, a, got)
    requires c in got && d in Queue(s) - got && s.convs[c].created == s.convs[d].created
    ensures TieAtCut(s, a)
  {
    ProperSubset(got, Queue(s), d);
    ProperSubset(Older(s, c), got, c);
    ProperSubset(got, NoYounger(s, c), d);
  }

  lemma TieMeansSplit(s: State, a: string, got: set<string>, c: string)
    requires a in s.agents && TookOldest(s, a, got)
    requires c in Queue(s) && |Older(s, c)| < Room(s.agents[a]) < |NoYounger(s, c)|
    ensures SplitsATie(s, got)
  {
    SubsetIsNoLarger(NoYounger(s, c), Queue(s));
    var x := FewerMissSome(Older(s, c), got);
    var y := FewerMissSome(got, NoYounger(s, c));
    assert s.convs[x].created == s.convs[y].created;
  }

  lemma SubsetIsNoLarger(a: set<string>, b: set<string>)
    requires a <= b
    ensures |a| <= |b|
  {
    assert |b - a| == |b| - |a|;
  }

  /** Across a tie the last one taken may be exchanged for one left behind. */
  lemma SplitIsExchangeable(s: State, a: string, got: set<string>) returns (other: set<string>)
    requires a in s.agents && TookOldest(s, a, got) && SplitsATie(s, got)
    ensures TookOldest(s, a, other) && other != got
  {
    var c, d :| c in got && c in Queue(s) && d in Queue(s) - got && s.convs[c].created == s.convs[d].created;
    other := got - {c} + {d};
    assert |other| == |got|;
    hide Room;
  }

  lemma UnsplitIsUnique(s: State, a: string, got: set<string>, other: set<string>)
    requires a in s.agents && TookOldest(s, a, got) && TookOldest(s, a, other) && !SplitsATie(s, got)
    ensures other == got
  {
    if other != got {
      var c := MemberOutside(other, got);
      var d := MemberOutside(got, other);
      assert false;
    }
  }

  /** What is taken over is determined by the state exactly when there is no such tie in it. */
  lemma TakenIsDeterminedIff(s: State, a: string, got: set<string>)
    requires a in s.agents && TookOldest(s, a, got)
    ensures (forall other :: TookOldest(s, a, other) ==> other == got) <==> !TieAtCut(s, a)
  {
    TieIsSplit(s, a, got);
    hide TieAtCut, SplitsATie, TookOldest;
    if TieAtCut(s, a) {
      var other := SplitIsExchangeable(s, a, got);
    } else {
      forall other | TookOldest(s, a, other) ensures other == got {
        UnsplitIsUnique(s, a, got, other);
      }
    }
  }

  lemma MemberOutside(a: set<string>, b: set<string>) returns (x: string)
    requires |a| == |b| && a != b
    ensures x in b - a
  {
    assert |a - b| == |a| - |a * b| && |b - a| == |b| - |a * b|;
    assert |b - a| == 0 ==> |a - b| == 0;
    x :| x in b && x !in a;
  }

  lemma DifferentTakings(s: State, a: string, got: set<string>, other: set<string>)
    requires a in s.agents && got <= Queue(s) && other <= Queue(s) && |got| == |other| && got != other
    ensures TakenOver(s, a, got) != TakenOver(s, a, other)
  {
    var c := MemberOutside(other, got);
    assert TakenOver(s, a, got).convs[c].status == Assigned;
    assert TakenOver(s, a, other).convs[c] == s.convs[c];
  }

  /** The sorted pass and every possible one-by-one pass end in the same state exactly when there is no tie. */
  lemma FormsAgreeIff(s: State, a: string, order: seq<string>)
    requires a in s.agents && OldestFirst(order, s)
    ensures (forall t, got :: TookOver(s, t, a, got) && TookOldest(s, a, got) ==> t == PickUp(s, a, order))
            <==> !TieAtCut(s, a)
  {
    hide PickUp, TieAtCut;
    var taken := PickUpTakesOldest(s, a, order);
    hide OldestFirst, CoversQueue;
    TakenIsDeterminedIff(s, a, taken);
    if TieAtCut(s, a) {
      var other :| TookOldest(s, a, other) && other != taken;
      DifferentTakings(s, a, taken, other);
      assert TookOver(s, TakenOver(s, a, other), a, other);
    }
    hide TookOldest;
  }

  /** Distinct creation times leave no room for a tie. */
  lemma DistinctTimesNoTie(s: State, a: string)
    requires a in s.agents
    requires forall c, d :: c in Queue(s) && d in Queue(s) && c != d ==> s.convs[c].created != s.convs[d].created
    ensures !TieAtCut(s, a)
  {
    forall c | c in Queue(s) ensures |NoYounger(s, c)| == |Older(s, c)| + 1 {
      assert NoYounger(s, c) == Older(s, c) + {c};
    }
  }
}
