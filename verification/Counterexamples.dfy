/** Concrete runs and inputs on which properties fail that one might expect. The conditions under which they
    hold are proved elsewhere. */
module Counterexamples {
  import opened Results
  import opened Domain
  import opened Text
  import opened Logs
  import opened Selection
  import opened Paging
  import opened SqlPaging
  import opened StoreState
  import opened StoreRuns
  import opened Ownership
  import opened Accounting
  import opened Capacity
  import opened Refusals

  lemma Words()
    ensures Trim("") == "" && Trim("b") == "b" && Trim("k") == "k" && Trim(" k") == "k" && Trim("hi") == "hi"
    ensures Trim("m") == "m" && Trim("n") == "n" && Trim("o") == "o" && Trim("p") == "p" && Trim("web") == "web"
    ensures |"web"| == 3 && |""| == 0 && |"b"| == 1 && |"hi"| == 2 && |"k"| == 1
  {
  }

  lemma Extend(ticks: seq<Tick>, tick: Tick) returns (more: seq<Tick>)
    requires Runs(Initial(""), ticks) && Enabled(After(Initial(""), ticks), tick.step)
    ensures more == ticks + [tick] && Runs(Initial(""), more)
    ensures After(Initial(""), more) == Apply(After(Initial(""), ticks), tick)
  {
    more := ticks + [tick];
    RunsSnoc(Initial(""), ticks, tick);
  }

  // ----- refused edits -----

  /** The disabled seed agent is renamed by an edit that is refused for its status. */
  lemma RefusedEditRenames() returns (ticks: seq<Tick>, tick: Tick)
    ensures Runs(Initial(""), ticks) && Enabled(After(Initial(""), ticks), tick.step)
    ensures var s := After(Initial(""), ticks); Refused(s, tick) && Apply(s, tick) != s
  {
    Words();
    hide Trim;
    ticks := Extend([], Tick(1, Disable(SEED_AGENT_ID, [])));
    tick := Tick(2, EditAgent(SEED_AGENT_ID, "b", "", 0, Some(Online)));
    hide Runs, After;
    var s := DisableAgent(Initial(""), SEED_AGENT_ID, []).0;
    assert SEED_AGENT.name != "b";
    assert Apply(s, tick).agents[SEED_AGENT_ID].name == "b";
  }

  // ----- overloaded agents and stranded work -----

  /** An edit sets the seed agent offline while two open conversations are the agent's. */
  lemma EditStrandsWork() returns (ticks: seq<Tick>)
    ensures Runs(Initial(""), ticks) && !OfflineIdle(After(Initial(""), ticks))
  {
    Words();
    hide Trim, Runs, After;
    var before := TwoConversations();
    ticks := Extend(before, Tick(4, EditAgent(SEED_AGENT_ID, "", "", 0, Some(Offline))));
    var t := Apply(BusySeed(2, Assigned, []), Tick(4, EditAgent(SEED_AGENT_ID, "", "", 0, Some(Offline))));
    assert t.convs["c1"].owner == SEED_AGENT_ID && t.agents[SEED_AGENT_ID].status == Offline;
  }

  /** What a transfer to another agent by name does. */
  lemma NamedTransfer(s: State, c: string, a: string, id: string, now: int)
    requires c in s.convs && IsOpen(s.convs[c]) && a in s.agents && !s.agents[a].disabled && s.convs[c].owner != a
    requires Trim(a) == a != "" && FreshMessage(s, c, id)
    ensures var tick := Tick(now, Transfers(ADMIN, c, a, "", id)); var t := Apply(s, tick);
            && Enabled(s, tick.step) && t.agents.Keys == s.agents.Keys
            && t.agents[a] == s.agents[a].(cur := s.agents[a].cur + 1)
            && t.convs == s.convs[c := s.convs[c].(owner := a, status := Assigned)]
            && forall d :: d != c ==> Log(t, d) == Log(s, d)
  {
    hide Trim;
  }

  /** A second agent is taken on, with room for one. */
  lemma SecondAgent() returns (ticks: seq<Tick>)
    ensures Runs(Initial(""), ticks)
    ensures After(Initial(""), ticks) == PutAgent(BusySeed(2, Assigned, []), "b",
                                                  Agent("b", DEFAULT_GROUP, Offline, 1, 0, false))
  {
    Words();
    assert SEED_AGENT_ID != "b";
    hide Trim, Runs, After;
    ticks := TwoConversations();
    ticks := Extend(ticks, Tick(4, NewAgent("b", "b", "", 1)));
  }

  /** An agent with room for one is given a second conversation by name. */
  lemma NamedTransferOverloads() returns (ticks: seq<Tick>)
    ensures Runs(Initial(""), ticks) && !Fits(After(Initial(""), ticks))
  {
    Words();
    hide Trim, Runs, After, Apply, Enabled;
    ticks := SecondAgent();
    var s := After(Initial(""), ticks);
    assert SEED_AGENT_ID != "b" && Log(s, "c1") == [] && Log(s, "c2") == [];
    NamedTransfer(s, "c1", "b", "m", 5);
    ticks := Extend(ticks, Tick(5, Transfers(ADMIN, "c1", "b", "", "m")));
    NamedTransfer(After(Initial(""), ticks), "c2", "b", "n", 6);
    ticks := Extend(ticks, Tick(6, Transfers(ADMIN, "c2", "b", "", "n")));
    assert After(Initial(""), ticks).agents["b"].cur == 2 && After(Initial(""), ticks).agents["b"].max == 1;
  }

  // ----- a retry by an agent -----

  const FIRST := Message("m", "k", FromAgent, SEED_AGENT_ID, PlainText, "hi", 4, None)
  const ANSWER := Message("n", "", FromVisitor, "v1", PlainText, "hi", 5, None)

  ghost predicate Served(s: State, status: ConversationStatus, log: seq<Message>) {
    && "c1" in s.convs && s.convs["c1"].status == status && s.convs["c1"].owner == SEED_AGENT_ID
    && s.convs["c1"].visitor == "v1" && Log(s, "c1") == log && FallsBackToAI(s.settings)
  }

  function AgentSaysHi(id: string, now: int): Tick {
    Tick(now, AgentSends(SEED_AGENT_ID, "c1", "k", "hi", PlainText, true, id))
  }

  lemma HiIsStored(s: State)
    requires Served(s, Assigned, [])
    ensures Enabled(s, AgentSaysHi("m", 4).step) && Served(Apply(s, AgentSaysHi("m", 4)), Assigned, [FIRST])
  {
    Words();
    hide Trim;
    assert [] + [FIRST] == [FIRST];
  }

  lemma VisitorAnswers(s: State)
    requires Served(s, Assigned, [FIRST])
    ensures var tick := Tick(5, VisitorSends("c1", "", "hi", PlainText, true, NoRule, false, "n", "o"));
            && Enabled(s, tick.step) && Served(Apply(s, tick), Assigned, [FIRST] + [ANSWER])
            && Apply(s, tick).convs["c1"].lastAt == 5
  {
    Words();
    hide Trim;
  }

  lemma HiIsRecognised(s: State)
    requires Served(s, AIServing, [FIRST] + [ANSWER])
    ensures Enabled(s, AgentSaysHi("p", 7).step) && Apply(s, AgentSaysHi("p", 7)) == s
    ensures AddAgentMessage(s, SEED_AGENT_ID, "c1", "k", "hi", PlainText, true, "p", 7).1.Ok?
  {
    Words();
    hide Trim;
    assert FirstWith([FIRST] + [ANSWER], FromAgent, SEED_AGENT_ID, "k") == Some(FIRST);
  }

  /** The no-reply timer has handed the conversation to the AI; the agent's retry is accepted and leaves it so. */
  lemma RetryLeavesAIServing() returns (ticks: seq<Tick>)
    ensures Runs(Initial(""), ticks) && Enabled(After(Initial(""), ticks), AgentSaysHi("p", 7).step)
    ensures var s := After(Initial(""), ticks);
            && AddAgentMessage(s, SEED_AGENT_ID, "c1", "k", "hi", PlainText, true, "p", 7).1.Ok?
            && Served(Apply(s, AgentSaysHi("p", 7)), AIServing, [FIRST] + [ANSWER])
  {
    ticks := TwoConversations();
    hide Runs, After, BusySeed;
    assert Served(BusySeed(2, Assigned, []), Assigned, []) by { BusySeedIsServed(); }
    hide Apply, AddAgentMessage;
    HiIsStored(After(Initial(""), ticks));
    ticks := Extend(ticks, AgentSaysHi("m", 4));
    VisitorAnswers(After(Initial(""), ticks));
    ticks := Extend(ticks, Tick(5, VisitorSends("c1", "", "hi", PlainText, true, NoRule, false, "n", "o")));
    TimerHandsOver(After(Initial(""), ticks), [FIRST] + [ANSWER]);
    ticks := Extend(ticks, Tick(6, TimerFires("c1", 5)));
    HiIsRecognised(After(Initial(""), ticks));
  }

  lemma BusySeedIsServed()
    ensures Served(BusySeed(2, Assigned, []), Assigned, [])
  {
  }

  lemma TimerHandsOver(s: State, log: seq<Message>)
    requires Served(s, Assigned, log) && s.convs["c1"].lastAt == 5
    ensures Served(Apply(s, Tick(6, TimerFires("c1", 5))), AIServing, log)
  {
  }

  // ----- a blank agent id -----

  /** A conversation that the AI serves and nobody owns takes a message from the blank agent id, and is then
      assigned to nobody. */
  lemma BlankAgentIsAssigned() returns (ticks: seq<Tick>)
    ensures Runs(Initial(""), ticks)
    ensures !Coupled(AddAgentMessage(After(Initial(""), ticks), NOBODY, "c1", "k", "hi", PlainText, true, "n", 2).0)
  {
    Words();
    hide Trim;
    assert Log(Initial(""), "c1") == [];
    var tick := Tick(1, NewConversation("web", "v1", "c1", "m", false));
    ticks := Extend([], tick);
    var s := Apply(Initial(""), tick);
    assert s.convs["c1"] == Conversation("v1", AIServing, NOBODY, 1, 0, 0, 1) && Log(s, "c1") == [];
    hide Runs, After, Apply;
    var t := AddAgentMessage(s, NOBODY, "c1", "k", "hi", PlainText, true, "n", 2).0;
    assert t.convs["c1"].status == Assigned && t.convs["c1"].owner == NOBODY;
    assert !Owned(t.agents, t.convs["c1"]);
  }

  // ----- retries with a padded client id -----

  function Padded(id: string, replyId: string, now: int): Tick {
    Tick(now, VisitorSends("c1", " k", "hi", PlainText, true, NoRule, false, id, replyId))
  }

  function PaddedMessage(id: string, now: int): Message {
    Message(id, " k", FromVisitor, "v1", PlainText, "hi", now, None)
  }

  lemma PaddedIsStored(s: State, log: seq<Message>, id: string, replyId: string, now: int)
    requires Served(s, Assigned, log) && FreshMessage(s, "c1", id) && FreshMessage(s, "c1", replyId) && id != replyId
    requires forall m :: m in log ==> m.clientId == " k"
    ensures var tick := Padded(id, replyId, now);
            Enabled(s, tick.step) && Served(Apply(s, tick), Assigned, log + [PaddedMessage(id, now)])
  {
    Words();
    hide Trim, FirstWith;
  }

  /** A visitor's message with a padded client id is sent again and stored twice. */
  lemma PaddedIdIsStoredTwice() returns (ticks: seq<Tick>)
    ensures Runs(Initial(""), ticks)
    ensures Log(After(Initial(""), ticks), "c1") == [PaddedMessage("m", 4), PaddedMessage("o", 5)]
  {
    Words();
    ticks := TwoConversations();
    hide Runs, After, BusySeed, Apply, Trim;
    assert Served(BusySeed(2, Assigned, []), Assigned, []) by { BusySeedIsServed(); }
    PaddedIsStored(After(Initial(""), ticks), [], "m", "n", 4);
    ticks := Extend(ticks, Padded("m", "n", 4));
    assert [] + [PaddedMessage("m", 4)] == [PaddedMessage("m", 4)];
    PaddedIsStored(After(Initial(""), ticks), [PaddedMessage("m", 4)], "o", "p", 5);
    ticks := Extend(ticks, Padded("o", "p", 5));
    assert [PaddedMessage("m", 4)] + [PaddedMessage("o", 5)] == [PaddedMessage("m", 4), PaddedMessage("o", 5)];
  }

  // ----- a tie in the queue -----

  /** The seed agent, offline with room for one, and conversations that all began at time one. */
  function Tied(convs: map<string, Conversation>): State {
    State(map[SEED_AGENT_ID := SEED_AGENT.(max := 1)], convs, map[], Initial("").settings)
  }

  function Newcomer(visitor: string): Conversation { Conversation(visitor, Waiting, NOBODY, 1, 0, 0, 1) }

  lemma NewcomerWaits(convs: map<string, Conversation>, visitor: string, c: string)
    requires c != "" && c !in convs
    ensures var tick := Tick(1, NewConversation("web", visitor, c, "m", true));
            Enabled(Tied(convs), tick.step) && Apply(Tied(convs), tick) == Tied(convs[c := Newcomer(visitor)])
  {
    Words();
    hide Trim, Ahead;
    assert Log(Tied(convs), c) == [];
  }

  const BOTH := map["c1" := Newcomer("v1")]["c2" := Newcomer("v2")]

  lemma EitherOrderIsSorted()
    ensures OldestFirst(["c1", "c2"], Tied(BOTH)) && OldestFirst(["c2", "c1"], Tied(BOTH))
  {
    assert "c1" != "c2";
  }

  lemma FirstIsTaken(order: seq<string>)
    requires order == ["c1", "c2"] || order == ["c2", "c1"]
    ensures var t := SetAgentStatus(Tied(BOTH), SEED_AGENT_ID, Online, order).0;
            t.convs[order[0]].owner == SEED_AGENT_ID && t.convs[order[1]].owner == NOBODY
  {
    assert "c1" != "c2";
    var s := PutAgent(Tied(BOTH), SEED_AGENT_ID, SEED_AGENT.(max := 1, status := Online));
    var next := Take(s, order[0], SEED_AGENT_ID);
    assert PickUp(next, SEED_AGENT_ID, order[1..]) == next;
    assert PickUp(s, SEED_AGENT_ID, order) == next;
  }

  lemma RoomForOne() returns (ticks: seq<Tick>)
    ensures Runs(Initial(""), ticks) && After(Initial(""), ticks) == Tied(map[])
  {
    Words();
    hide Trim;
    var small := Tick(0, EditAgent(SEED_AGENT_ID, "", "", 1, None));
    ticks := Extend([], small);
    hide Runs, After;
  }

  lemma TiedRun() returns (ticks: seq<Tick>)
    ensures Runs(Initial(""), ticks) && After(Initial(""), ticks) == Tied(BOTH)
  {
    ticks := RoomForOne();
    hide Runs, After, Tied, Apply, Enabled;
    NewcomerWaits(map[], "v1", "c1");
    ticks := Extend(ticks, Tick(1, NewConversation("web", "v1", "c1", "m", true)));
    NewcomerWaits(map["c1" := Newcomer("v1")], "v2", "c2");
    ticks := Extend(ticks, Tick(1, NewConversation("web", "v2", "c2", "m", true)));
  }

  /** Two conversations begun at the same time wait for an agent with room for one; the order in which a sort
      leaves them decides which one is taken. */
  lemma TieMakesADifference() returns (ticks: seq<Tick>)
    ensures Runs(Initial(""), ticks)
    ensures var s := After(Initial(""), ticks); var left, right := ["c1", "c2"], ["c2", "c1"];
            && SEED_AGENT_ID in s.agents && OldestFirst(left, s) && OldestFirst(right, s)
            && SetAgentStatus(s, SEED_AGENT_ID, Online, left).0 != SetAgentStatus(s, SEED_AGENT_ID, Online, right).0
  {
    ticks := TiedRun();
    EitherOrderIsSorted();
    FirstIsTaken(["c1", "c2"]);
    FirstIsTaken(["c2", "c1"]);
    hide Runs, After, SetAgentStatus;
  }

  // ----- an unknown cursor -----

  /** For a log of one message and an unknown cursor the SQL page is empty and the in-memory page is not. */
  lemma UnknownCursorDiffers(limit: int)
    ensures var log := [FIRST];
            && Ascending(log) && Addressable(log) && QueryResult([], Rows(log), limit, "k")
            && PageMadeFrom([], PageSize(limit)).messages == [] && PageOf(log, limit, "k").messages == log
  {
    Words();
    NothingBelow();
    assert Position([FIRST], "k") == 1;
    hide Trim, Candidates;
  }

  lemma NothingBelow()
    ensures Candidates(Rows([FIRST]), "k") == {}
  {
  }
}
