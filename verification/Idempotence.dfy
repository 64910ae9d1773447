/** Retried sends: a client id identifies a message of its sender within a conversation. The in-memory
    store searches by the trimmed id but stores the id as it came; the SQL store trims it for both. */
module Idempotence {
  import opened Results
  import opened Domain
  import opened Text
  import opened StoreState
  import opened StoreRuns
  import opened Ownership
  import opened Local
  import opened LogHistory

  predicate Trimmed(id: string) { id != "" && Trim(id) == id }

  /** No two messages of one sender share a client id that is trimmed. */
  ghost predicate SentOnce(log: seq<Message>) {
    forall i, j :: 0 <= i < j < |log| && Trimmed(log[i].clientId) ==>
                     !Carries(log[j], log[i].sender, log[i].senderId, log[i].clientId)
  }

  lemma SnocSentOnce(log: seq<Message>, m: Message)
    requires SentOnce(log)
    requires Trimmed(m.clientId) ==> FindByClientId(log, m.sender, m.senderId, m.clientId).None?
    ensures SentOnce(log + [m])
  {
    hide Trim;
    forall i | 0 <= i < |log| && Trimmed(log[i].clientId)
      ensures !Carries(m, log[i].sender, log[i].senderId, log[i].clientId)
    {
      assert log[i] in log;
    }
  }

  lemma EventKeepsSentOnce(v: View, e: Event, now: int)
    requires Sound(v, e, now) && React(v, e).View? && (v.View? ==> SentOnce(v.log))
    ensures SentOnce(React(v, e).log)
  {
    hide Trim, FindByClientId;
    match e
    case VisitorMessage(m, replies) =>
      if v.View? {
        SnocSentOnce(v.log, m);
        if replies == [] {
          assert v.log + [m] + replies == v.log + [m];
        } else {
          assert replies == [replies[0]] && Automatic(replies[0]);
          SnocSentOnce(v.log + [m], replies[0]);
        }
      }
    case AIReply(m) => SnocSentOnce(v.log, m);
    case AgentMessage(m) => SnocSentOnce(v.log, m);
    case Note(m) => SnocSentOnce(v.log, m);
    case Ending(m) => SnocSentOnce(v.log, m);
    case _ =>
  }

  /** Over all runs of the in-memory store, a trimmed client id is stored at most once per sender. */
  lemma {:induction false} RunsSendOnce(s: State, ticks: seq<Tick>, c: string)
    requires Coupled(s) && Runs(s, ticks) && SentOnce(Log(s, c))
    ensures SentOnce(Log(After(s, ticks), c))
  {
    if ticks != [] {
      var init, last := ticks[..|ticks| - 1], ticks[|ticks| - 1];
      var mid := After(s, init);
      RunsSendOnce(s, init, c);
      RunsKeepCoupled(s, init);
      RunsKeepCoupled(s, ticks);
      StepReacts(mid, last, c);
      EventIsSound(mid, last, c);
      var v, e := ViewOf(mid, c), EventOf(mid, last, c);
      hide Apply, EventOf, React, Sound;
      assert ViewOf(After(s, ticks), c) == React(v, e);
      if React(v, e).View? { EventKeepsSentOnce(v, e, last.now); }
    }
  }

  // ----- retries -----

  lemma {:induction false} FirstWithConcat(a: seq<Message>, b: seq<Message>, sender: SenderType, senderId: string,
                                           id: string)
    ensures FirstWith(a + b, sender, senderId, id) ==
            if FirstWith(a, sender, senderId, id).Some? then FirstWith(a, sender, senderId, id)
            else FirstWith(b, sender, senderId, id)
  {
    if a == [] {
      assert a + b == b;
    } else {
      FirstWithConcat(a[1..], b, sender, senderId, id);
      assert (a + b)[1..] == a[1..] + b;
    }
  }

  /** The one message that carries a trimmed id is the one a search finds. */
  lemma FindsTheStored(log: seq<Message>, p: nat, rawId: string)
    requires SentOnce(log) && p < |log| && Trimmed(log[p].clientId) && Trim(rawId) == log[p].clientId
    ensures FindByClientId(log, log[p].sender, log[p].senderId, rawId) == Some(log[p])
  {
    hide Trim;
    var m := log[p];
    assert log == log[..p] + ([m] + log[p + 1..]);
    FirstWithConcat(log[..p], [m] + log[p + 1..], m.sender, m.senderId, m.clientId);
    assert FirstWith(log[..p], m.sender, m.senderId, m.clientId).None?;
  }

  /** However much later it comes, a retry on an open conversation returns the stored message and changes
      nothing. */
  lemma VisitorRetryReturnsStored(s: State, c: string, p: nat, rawId: string, content: string, kind: MessageType,
      urlSafe: bool, matched: Matched, business: bool, id: string, replyId: string, now: int)
    requires c in s.convs && IsOpen(s.convs[c]) && SentOnce(Log(s, c)) && p < |Log(s, c)|
    requires Log(s, c)[p].sender == FromVisitor && Log(s, c)[p].senderId == s.convs[c].visitor
    requires Trimmed(Log(s, c)[p].clientId) && Trim(rawId) == Log(s, c)[p].clientId && |Trim(rawId)| <= CLIENT_ID_LIMIT
    ensures AddVisitorMessage(s, c, rawId, content, kind, urlSafe, matched, business, id, replyId, now)
            == (s, Ok(Sent(Log(s, c)[p], [], s.convs[c], false, ZERO_TIME)))
  {
    hide AutoReply, ValidUserMessage, Trim;
    FindsTheStored(Log(s, c), p, rawId);
  }

  lemma AgentRetryReturnsStored(s: State, a: string, c: string, p: nat, rawId: string, content: string,
                                kind: MessageType, urlSafe: bool, id: string, now: int)
    requires c in s.convs && s.convs[c].owner == a && IsOpen(s.convs[c]) && SentOnce(Log(s, c)) && p < |Log(s, c)|
    requires Log(s, c)[p].sender == FromAgent && Log(s, c)[p].senderId == a
    requires Trimmed(Log(s, c)[p].clientId) && Trim(rawId) == Log(s, c)[p].clientId && |Trim(rawId)| <= CLIENT_ID_LIMIT
    ensures AddAgentMessage(s, a, c, rawId, content, kind, urlSafe, id, now)
            == (s, Ok(Sent(Log(s, c)[p], [], s.convs[c], false, ZERO_TIME)))
  {
    hide ValidUserMessage, Trim;
    FindsTheStored(Log(s, c), p, rawId);
  }

  /** After storing m the search for the same raw id finds m exactly when the id came trimmed. */
  lemma SearchAfterStoreIff(log: seq<Message>, m: Message, rest: seq<Message>)
    requires FindByClientId(log, m.sender, m.senderId, m.clientId).None?
    requires forall r :: r in rest ==> Automatic(r)
    ensures FindByClientId(log + [m] + rest, m.sender, m.senderId, m.clientId)
            == if Trimmed(m.clientId) then Some(m) else None
  {
    hide Trim;
    var wanted := Trim(m.clientId);
    if wanted != "" {
      FirstWithConcat(log + [m], rest, m.sender, m.senderId, wanted);
      FirstWithConcat(log, [m], m.sender, m.senderId, wanted);
      assert [m][1..] == [];
      assert FirstWith(rest, m.sender, m.senderId, wanted).None?;
    }
  }

  /** Sending the same again at once is idempotent exactly when the client id is trimmed: a blank or padded
      id escapes the search and is stored twice. */
  lemma VisitorRetryIff(s: State, c: string, clientId: string, content: string, kind: MessageType, urlSafe: bool,
      matched: Matched, business: bool, id: string, replyId: string, now: int,
      matched': Matched, business': bool, id': string, replyId': string, now': int)
    requires c in s.convs && IsOpen(s.convs[c]) && |Trim(clientId)| <= CLIENT_ID_LIMIT
    requires FindByClientId(Log(s, c), FromVisitor, s.convs[c].visitor, clientId).None?
    requires ValidUserMessage(kind, content, urlSafe)
    ensures var (t, r) := AddVisitorMessage(s, c, clientId, content, kind, urlSafe, matched, business, id, replyId,
            now);
            var (u, r') := AddVisitorMessage(t, c, clientId, content, kind, urlSafe, matched', business', id',
                replyId', now');
            r.Ok? && r'.Ok? && (u == t && r'.value.input == r.value.input <==> Trimmed(clientId))
  {
    hide FindByClientId, ValidUserMessage, Trim, AutoReply;
    var (t, r) := AddVisitorMessage(s, c, clientId, content, kind, urlSafe, matched, business, id, replyId, now);
    var m := r.value.input;
    var stored := PutConv(Append(s, c, m), c, Touched(s.convs[c], true, now));
    AutoReplyKeepsView(stored, c, content, matched, business, replyId, now, c);
    RepliesAreAutomatic(stored, c, content, matched, business, replyId, now);
    assert Log(stored, c) == Log(s, c) + [m];
    SearchAfterStoreIff(Log(s, c), m, r.value.generated);
    if !Trimmed(clientId) {
      var m' := NewMessage(id', clientId, FromVisitor, t.convs[c].visitor, kind, content, now');
      var stored' := PutConv(Append(t, c, m'), c, Touched(t.convs[c], true, now'));
      AutoReplyKeepsView(stored', c, content, matched', business', replyId', now', c);
      var u := AddVisitorMessage(t, c, clientId, content, kind, urlSafe, matched', business', id', replyId', now').0;
      assert |Log(u, c)| > |Log(t, c)|;
    }
  }

  /** The same for agents: a message that is stored and sent again at once. */
  lemma AgentRetryIff(s: State, a: string, c: string, clientId: string, content: string, kind: MessageType,
                      urlSafe: bool, id: string, now: int, id': string, now': int)
    requires Stores(s, a, c, clientId, content, kind, urlSafe)
    ensures var (t, r) := AddAgentMessage(s, a, c, clientId, content, kind, urlSafe, id, now);
            var (u, r') := AddAgentMessage(t, a, c, clientId, content, kind, urlSafe, id', now');
            r.Ok? && r'.Ok? && (u == t && r'.value.input == r.value.input <==> Trimmed(clientId))
  {
    hide FindByClientId, ValidUserMessage, Trim;
    var (t, r) := AddAgentMessage(s, a, c, clientId, content, kind, urlSafe, id, now);
    SearchAfterStoreIff(Log(s, c), r.value.input, []);
    assert Log(t, c) == Log(s, c) + [r.value.input] + [];
    if !Trimmed(clientId) {
      var u := AddAgentMessage(t, a, c, clientId, content, kind, urlSafe, id', now').0;
      assert |Log(u, c)| > |Log(t, c)|;
    }
  }

  lemma RepliesAreAutomatic(s: State, c: string, content: string, matched: Matched, business: bool, id: string,
                            now: int)
    requires c in s.convs
    ensures forall r :: r in AutoReply(s, c, content, matched, business, id, now).1 ==> Automatic(r)
  {
  }

  // ----- the SQL form -----

  /** createMessageTx after findMessageByClientIDTx: the id is trimmed both for the search and on storing. */
  function SqlSend(log: seq<Message>, sender: SenderType, senderId: string, rawId: string, id: string,
                   kind: MessageType, content: string, now: int): seq<Message> {
    if FindByClientId(log, sender, senderId, rawId).Some? then log
    else log + [NewMessage(id, Trim(rawId), sender, senderId, kind, content, now)]
  }

  /** No two messages of one sender share a client id, unless it is blank. */
  ghost predicate SqlSentOnce(log: seq<Message>) {
    forall i, j :: 0 <= i < j < |log| && log[i].clientId != "" ==>
                     !Carries(log[j], log[i].sender, log[i].senderId, log[i].clientId)
  }

  datatype Send = Send(sender: SenderType, senderId: string, rawId: string, id: string,
                       kind: MessageType, content: string, now: int)

  function SqlRun(sends: seq<Send>): seq<Message> {
    if sends == [] then []
    else
      var x := sends[|sends| - 1];
      SqlSend(SqlRun(sends[..|sends| - 1]), x.sender, x.senderId, x.rawId, x.id, x.kind, x.content, x.now)
  }

  /** Over all runs of sends to one conversation of the SQL store, padded ids included. */
  lemma {:induction false} SqlRunSendsOnce(sends: seq<Send>)
    ensures SqlSentOnce(SqlRun(sends))
  {
    hide Trim;
    if sends != [] {
      var init, x := sends[..|sends| - 1], sends[|sends| - 1];
      SqlRunSendsOnce(init);
      var log := SqlRun(init);
      forall i | 0 <= i < |log| && log[i].clientId == Trim(x.rawId) != ""
        ensures FindByClientId(log, x.sender, x.senderId, x.rawId).None? ==>
                  !Carries(log[i], x.sender, x.senderId, Trim(x.rawId))
      {
        assert log[i] in log;
      }
    }
  }

  /** In the SQL store every id that is not blank after trimming makes a retry idempotent. */
  lemma SqlRetryIff(log: seq<Message>, x: Send, id': string, now': int)
    requires FindByClientId(log, x.sender, x.senderId, x.rawId).None?
    ensures var once := SqlSend(log, x.sender, x.senderId, x.rawId, x.id, x.kind, x.content, x.now);
            SqlSend(once, x.sender, x.senderId, x.rawId, id', x.kind, x.content, now') == once
            <==> Trim(x.rawId) != ""
  {
    hide Trim;
    var m := NewMessage(x.id, Trim(x.rawId), x.sender, x.senderId, x.kind, x.content, x.now);
    FirstWithConcat(log, [m], x.sender, x.senderId, Trim(x.rawId));
  }
}
