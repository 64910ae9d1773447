/** Least-loaded selection: the agent a conversation is given to. */
module Selection {
  import opened Results
  import opened Domain
  import opened Text

  /** A blank group admits agents of every group. */
  predicate Eligible(a: Agent, group: string) {
    !a.disabled && (group == "" || a.group == group) && a.status == Online && a.cur < a.max
  }

  predicate Ahead(agents: map<string, Agent>, a: string, b: string)
    requires a in agents && b in agents
  {
    agents[a].cur < agents[b].cur || (agents[a].cur == agents[b].cur && Less(a, b))
  }

  /** a is the unique minimum of the eligible agents by (cur, id). */
  ghost predicate IsLeast(agents: map<string, Agent>, group: string, a: string) {
    && a in agents && Eligible(agents[a], group)
    && forall b :: b in agents && Eligible(agents[b], group) && b != a ==> Ahead(agents, a, b)
  }

  ghost function LeastLoaded(agents: map<string, Agent>, group: string): (r: Option<string>)
    ensures r.Some? ==> IsLeast(agents, group, r.value)
    ensures r.None? <==> forall a :: a in agents ==> !Eligible(agents[a], group)
  {
    if exists a :: IsLeast(agents, group, a) then
      var a :| IsLeast(agents, group, a);
      Some(a)
    else
      LeastExists(agents, group);
      None
  }

  lemma AheadTransitive(agents: map<string, Agent>, a: string, b: string, c: string)
    requires a in agents && b in agents && c in agents && Ahead(agents, a, b) && Ahead(agents, b, c)
    ensures Ahead(agents, a, c)
  {
    if agents[a].cur == agents[b].cur == agents[c].cur { LessTransitive(a, b, c); }
  }

  lemma AheadTotal(agents: map<string, Agent>, a: string, b: string)
    requires a in agents && b in agents && a != b
    ensures Ahead(agents, a, b) != Ahead(agents, b, a)
  {
    LessTotal(a, b);
    if Less(a, b) { LessAsymmetric(a, b); } else { LessAsymmetric(b, a); }
  }

  lemma {:induction false} MinimumExists(agents: map<string, Agent>, pool: set<string>) returns (a: string)
    requires pool != {} && pool <= agents.Keys
    ensures a in pool && forall b :: b in pool && b != a ==> Ahead(agents, a, b)
  {
    var x :| x in pool;
    if pool == {x} {
      a := x;
    } else {
      var y := MinimumExists(agents, pool - {x});
      AheadTotal(agents, x, y);
      a := if Ahead(agents, x, y) then x else y;
      forall b | b in pool && b != a ensures Ahead(agents, a, b) {
        if b != x && b != y && a == x { AheadTransitive(agents, x, y, b); }
      }
    }
  }

  lemma LeastExists(agents: map<string, Agent>, group: string)
    ensures (exists a :: IsLeast(agents, group, a)) || forall a :: a in agents ==> !Eligible(agents[a], group)
  {
    var pool := set a | a in agents && Eligible(agents[a], group);
    if pool != {} {
      var a := MinimumExists(agents, pool);
      assert IsLeast(agents, group, a);
    } else {
      assert forall a :: a in agents && Eligible(agents[a], group) ==> a in pool;
    }
  }

  /** However the agents are visited, there is only one answer. */
  lemma LeastUnique(agents: map<string, Agent>, group: string, a: string)
    requires IsLeast(agents, group, a)
    ensures LeastLoaded(agents, group) == Some(a)
  {
    var b := LeastLoaded(agents, group).value;
    if a != b { AheadTotal(agents, a, b); }
  }

  /** The loop over the agents, in whatever order the map hands them out. */
  method SelectLeastLoaded(agents: map<string, Agent>, group: string) returns (selected: Option<string>)
    ensures selected == LeastLoaded(agents, group)
  {
    selected := None;
    var todo := agents.Keys;
    while todo != {}
      invariant todo <= agents.Keys
      invariant selected.None? ==> forall b :: b in agents.Keys - todo ==> !Eligible(agents[b], group)
      invariant selected.Some? ==>
                  && selected.value in agents.Keys - todo && Eligible(agents[selected.value], group)
                  && forall b :: b in agents.Keys - todo && Eligible(agents[b], group) && b != selected.value ==>
                                   Ahead(agents, selected.value, b)
      decreases todo
    {
      var id :| id in todo;
      todo := todo - {id};
      var agent := agents[id];
      if agent.disabled || (group != "" && agent.group != group) || agent.status != Online || agent.cur >= agent.max {
        continue;
      }
      if selected == None {
        selected := Some(id);
        continue;
      }
      ghost var previous := selected.value;
      AheadTotal(agents, id, previous);
      var best := agents[selected.value];
      if agent.cur < best.cur || (agent.cur == best.cur && Less(id, selected.value)) {
        forall b | b in agents.Keys - todo && Eligible(agents[b], group) && b != id && b != previous
          ensures Ahead(agents, id, b)
        {
          AheadTransitive(agents, id, previous, b);
        }
        selected := Some(id);
      }
    }
    if selected.Some? { LeastUnique(agents, group, selected.value); }
  }

  // ----- the SQL form -----

  /** WHERE eligible ORDER BY current_conversations ASC, id ASC over the agents table. */
  ghost predicate OrderedRows(agents: map<string, Agent>, group: string, rows: seq<string>) {
    && (forall a :: a in rows <==> a in agents && Eligible(agents[a], group))
    && (forall i, j :: 0 <= i < j < |rows| ==> Ahead(agents, rows[i], rows[j]))
  }

  /** LIMIT 1 on the ordered rows picks the same agent, or none in the same cases. */
  lemma FirstRowIsLeastLoaded(agents: map<string, Agent>, group: string, rows: seq<string>)
    requires OrderedRows(agents, group, rows)
    ensures LeastLoaded(agents, group) == if rows == [] then None else Some(rows[0])
  {
    if rows != [] {
      forall b | b in agents && Eligible(agents[b], group) && b != rows[0] ensures Ahead(agents, rows[0], b) {
        assert b in rows;
      }
      assert rows[0] in rows;
      LeastUnique(agents, group, rows[0]);
    }
  }
}
