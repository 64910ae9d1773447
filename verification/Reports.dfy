/** The conversations that a status change reports: those that changed hands, as they were left. */
module Reports {
  import opened Domain
  import opened Selection
  import opened StoreState
  import opened Ownership
  import opened Accounting
  import opened Pickup

  /** The records of the named conversations. */
  function Listed(convs: map<string, Conversation>, ids: seq<string>): seq<Conversation>
    requires forall c :: c in ids ==> c in convs
  {
    seq(|ids|, i requires 0 <= i < |ids| => convs[ids[i]])
  }

  /** The open conversations of a, in the given order. */
  function HeldInOrder(convs: map<string, Conversation>, a: string, order: seq<string>): (ids: seq<string>)
    requires forall c :: c in order ==> c in convs
    ensures forall c :: c in ids <==> c in order && Holds(convs[c], a)
  {
    if order == [] then []
    else
      var last := order[|order| - 1];
      HeldInOrder(convs, a, order[..|order| - 1]) + if Holds(convs[last], a) then [last] else []
  }

  ghost predicate Distinct(ids: seq<string>) { forall i, j :: 0 <= i < j < |ids| ==> ids[i] != ids[j] }

  // ----- going offline -----

  lemma ListedSnoc(convs: map<string, Conversation>, ids: seq<string>, c: string)
    requires (forall d :: d in ids ==> d in convs) && c in convs
    ensures Listed(convs, ids + [c]) == Listed(convs, ids) + [convs[c]]
  {
  }

  lemma ListedAgain(before: map<string, Conversation>, after: map<string, Conversation>, ids: seq<string>)
    requires forall c :: c in ids ==> c in before && c in after && before[c] == after[c]
    ensures Listed(before, ids) == Listed(after, ids)
  {
    assert forall i :: 0 <= i < |ids| ==> ids[i] in ids;
  }

  lemma {:induction false} ReleasedAreListed(s: State, a: string, order: seq<string>)
    requires CoupledBut(s, a) && a in s.agents && !Eligible(s.agents[a], "")
    requires (forall c :: c in order ==> c in s.convs) && Distinct(order)
    ensures Released(s, a, order) == Listed(Release(s, a, order, false).convs, HeldInOrder(s.convs, a, order))
    decreases |order|
  {
    hide ReleaseOne, CoupledBut, Eligible, Listed;
    if order == [] {
      assert Listed(s.convs, []) == [] by { NothingListed(s.convs); }
    } else {
      var init, c := order[..|order| - 1], order[|order| - 1];
      assert order == init + [c] && c !in init;
      ReleasedAreListed(s, a, init);
      ReleaseKeepsCoupled(s, a, init, false);
      var before, ids := Release(s, a, init, false), HeldInOrder(s.convs, a, init);
      ReleaseOneKeepsCoupled(before, a, c, false);
      var after := ReleaseOne(before, a, c, false);
      assert before.convs[c] == s.convs[c];
      ListedAgain(before.convs, after.convs, ids);
      ListedSnoc(after.convs, ids, c);
      assert ids + [] == ids && Released(s, a, init) + [] == Released(s, a, init);
      assert after == Release(s, a, order, false);
    }
  }

  lemma NothingListed(convs: map<string, Conversation>)
    ensures Listed(convs, []) == []
  {
  }

  lemma {:induction false} DistinctCount(ids: seq<string>)
    requires Distinct(ids)
    ensures |set c | c in ids| == |ids|
  {
    if ids != [] {
      var init, last := ids[..|ids| - 1], ids[|ids| - 1];
      DistinctCount(init);
      assert (set c | c in ids) == (set c | c in init) + {last};
    }
  }

  lemma {:induction false} HeldStayDistinct(convs: map<string, Conversation>, a: string, order: seq<string>)
    requires (forall c :: c in order ==> c in convs) && Distinct(order)
    ensures Distinct(HeldInOrder(convs, a, order))
  {
    if order != [] {
      var init, last := order[..|order| - 1], order[|order| - 1];
      HeldStayDistinct(convs, a, init);
      assert last !in HeldInOrder(convs, a, init);
    }
  }

  /** Going offline reports every open conversation the agent had, once each, as it is after the whole
      handover, in the order in which they were handed over. */
  lemma OfflineReports(s: State, a: string, order: seq<string>)
    requires Coupled(s) && a in s.agents && VisitsAll(order, s)
    ensures var (t, r) := SetAgentStatus(s, a, Offline, order); var ids := HeldInOrder(s.convs, a, order);
            && r.Ok? && t.convs.Keys == s.convs.Keys && a in t.agents && r.value.agent == t.agents[a]
            && r.value.changed == Listed(t.convs, ids)
            && Distinct(ids) && |r.value.changed| == Load(s.convs, a)
  {
    hide Release, Released, Listed;
    var set1 := PutAgent(s, a, s.agents[a].(status := Offline));
    var idle := PutAgent(set1, a, set1.agents[a].(cur := 0));
    ReleasedAreListed(idle, a, order);
    HeldStayDistinct(s.convs, a, order);
    var ids := HeldInOrder(s.convs, a, order);
    DistinctCount(ids);
    assert (set c | c in ids) == HeldBy(s.convs, a);
    assert |Listed(SetAgentStatus(s, a, Offline, order).0.convs, ids)| == |ids| by {
      ListedLength(SetAgentStatus(s, a, Offline, order).0.convs, ids);
    }
    hide CoupledBut, Distinct;
  }

  lemma ListedLength(convs: map<string, Conversation>, ids: seq<string>)
    requires forall c :: c in ids ==> c in convs
    ensures |Listed(convs, ids)| == |ids|
  {
  }

  // ----- going online -----

  ghost predicate OlderFirst(s: State, ids: seq<string>) {
    && (forall c :: c in ids ==> c in s.convs)
    && forall i, j :: 0 <= i < j < |ids| ==> ids[i] != ids[j] && s.convs[ids[i]].created <= s.convs[ids[j]].created
  }

  lemma {:induction false} PickUpLeavesOthers(s: State, a: string, order: seq<string>, c: string)
    requires a in s.agents && (forall d :: d in order ==> d in s.convs) && c in s.convs && c !in order
    ensures PickUp(s, a, order).convs[c] == s.convs[c]
    decreases |order|
  {
    if order != [] && s.agents[a].cur < s.agents[a].max {
      PickUpLeavesOthers(if Queued(s.convs[order[0]]) then Take(s, order[0], a) else s, a, order[1..], c);
    }
  }

  /** The pass lists what it takes, in its own order. */
  lemma {:induction false} PickedUpAreListed(s: State, a: string, order: seq<string>) returns (ids: seq<string>)
    requires a in s.agents && OlderFirst(s, order)
    ensures OlderFirst(s, ids) && forall c :: c in ids ==> c in order
    ensures PickedUp(s, a, order) == Listed(PickUp(s, a, order).convs, ids)
    ensures forall c :: c in s.convs ==>
              if c in ids then Queued(s.convs[c]) && PickUp(s, a, order).convs[c].status == Assigned
              else PickUp(s, a, order).convs[c] == s.convs[c]
    decreases |order|
  {
    ids := [];
    if order != [] && s.agents[a].cur < s.agents[a].max {
      var c, tail := order[0], order[1..];
      assert order == [c] + tail && c !in tail;
      if Queued(s.convs[c]) {
        var next := Take(s, c, a);
        assert OlderFirst(next, tail);
        var rest := PickedUpAreListed(next, a, tail);
        ids := [c] + rest;
        PickUpLeavesOthers(next, a, tail, c);
        ListedCons(PickUp(next, a, tail).convs, c, rest);
        HeadIsOlder(s, order, rest);
        hide OlderFirst, Listed;
      } else {
        ids := PickedUpAreListed(s, a, tail);
      }
    }
  }

  lemma HeadIsOlder(s: State, order: seq<string>, rest: seq<string>)
    requires OlderFirst(s, order) && order != [] && order[0] !in order[1..] && forall c :: c in rest ==> c in order[1..]
    requires forall i, j :: 0 <= i < j < |rest| ==>
               rest[i] in s.convs && rest[j] in s.convs
               && rest[i] != rest[j] && s.convs[rest[i]].created <= s.convs[rest[j]].created
    ensures OlderFirst(s, [order[0]] + rest)
  {
    assert forall c :: c in order[1..] ==> c in order;
    forall j | 0 <= j < |rest|
      ensures rest[j] in s.convs && rest[j] != order[0]
      ensures s.convs[order[0]].created <= s.convs[rest[j]].created
    {
      assert rest[j] in order[1..];
    }
  }

  lemma ListedCons(convs: map<string, Conversation>, c: string, ids: seq<string>)
    requires (forall d :: d in ids ==> d in convs) && c in convs
    ensures Listed(convs, [c] + ids) == [convs[c]] + Listed(convs, ids)
  {
  }

  /** Coming online reports the conversations taken over, once each, older ones first, as they are then. */
  lemma OnlineReports(s: State, a: string, order: seq<string>) returns (got: set<string>, ids: seq<string>)
    requires a in s.agents && !s.agents[a].disabled && OldestFirst(order, s)
    ensures TookOldest(s, a, got) && (set c | c in ids) == got && OlderFirst(s, ids)
    ensures var (t, r) := SetAgentStatus(s, a, Online, order);
            && TookOver(PutAgent(s, a, s.agents[a].(status := Online)), t, a, got)
            && r.Ok? && a in t.agents && r.value.agent == t.agents[a] && t.convs.Keys == s.convs.Keys
            && r.value.changed == Listed(t.convs, ids) && |r.value.changed| == |got|
  {
    hide PickUp, PickedUp, Listed, TookOldest;
    got := OnlineTakesOldest(s, a, order);
    var set1 := PutAgent(s, a, s.agents[a].(status := Online));
    assert OlderFirst(set1, order);
    ids := PickedUpAreListed(set1, a, order);
    assert forall c :: c in ids <==> c in got;
    DistinctCount(ids);
    ListedLength(PickUp(set1, a, order).convs, ids);
  }
}
