/** The application service: store operations followed by hub sends, and the goroutines they leave behind.
    A started timer or AI request stays pending until the environment lets it go on. */
module Services {
  import opened Results
  import opened Domain
  import opened Realtime
  import opened StoreState
  import opened MemoryStores

  /** What a pending timer or AI request goes back to: the visitor message stored at a time, or a retry
      with the zero time. */
  datatype Cause = Cause(c: string, id: string, at: int)

  /** The store, what is pending, and for reasoning the messages stored and the causes answered so far. */
  datatype World = World(store: State, timers: multiset<Cause>, thinking: multiset<Cause>,
                         asked: set<Cause>, answered: multiset<Cause>)

  function With(pending: multiset<Cause>, x: Cause, started: bool): multiset<Cause> {
    if started then pending + multiset{x} else pending
  }

  /** A send has left the store in t with result r. */
  function AfterSend(w: World, c: string, t: State, r: Result<Sent>): World {
    match r
    case Err(_) => w.(store := t)
    case Ok(sent) =>
      var x := Cause(c, sent.input.id, sent.sentAt);
      World(t,
            With(w.timers, x, sent.conv.status == Assigned && sent.conv.owner != NOBODY && t.settings.noReply > 0),
            With(w.thinking, x, sent.needAI),
            if sent.sentAt == ZERO_TIME then w.asked else w.asked + {x},
            w.answered)
  }

  /** The timer of x has fired. */
  function AfterTimer(w: World, x: Cause): World {
    var (t, escalated) := EscalateNoReply(w.store, x.c, x.at);
    w.(store := t, timers := w.timers - multiset{x}, thinking := With(w.thinking, x, escalated.Some?))
  }

  /** The AI's reply for x has come. */
  function AfterReply(w: World, x: Cause, text: string, id: string, now: int): World {
    var (t, saved) := AddAIMessage(w.store, x.c, text, id, now);
    w.(store := t, thinking := w.thinking - multiset{x}, answered := With(w.answered, x, saved.Ok?))
  }

  // ----- what the parties are told -----

  datatype Payload = OfMessage(m: Message) | OfConversation(conv: Conversation)

  datatype Notice = Notice(name: string, payload: Payload)

  datatype Outgoing = Outgoing(target: Target, key: string, notice: Notice)

  function Received(m: Message): Notice { Notice("message.receive", OfMessage(m)) }

  function Changed(conv: Conversation): Notice { Notice("conversation.status_changed", OfConversation(conv)) }

  /** To the owner, if there is one. */
  function ToOwner(conv: Conversation, notice: Notice): seq<Outgoing> {
    if conv.owner != NOBODY then [Outgoing(ToAgent, conv.owner, notice)] else []
  }

  function Relays(c: string, conv: Conversation, messages: seq<Message>): seq<Outgoing> {
    if messages == [] then []
    else
      var m := messages[|messages| - 1];
      Relays(c, conv, messages[..|messages| - 1]) + ([Outgoing(ToVisitor, c, Received(m))] + ToOwner(conv, Received(m)))
  }

  lemma RelaysSnoc(c: string, conv: Conversation, messages: seq<Message>, i: nat)
    requires i < |messages|
    ensures Relays(c, conv, messages[..i + 1]) ==
            Relays(c, conv, messages[..i])
            + ([Outgoing(ToVisitor, c, Received(messages[i]))] + ToOwner(conv, Received(messages[i])))
  {
    assert messages[..i + 1][..i] == messages[..i];
  }

  function SendNotices(c: string, sent: Sent): seq<Outgoing> {
    [Outgoing(ToVisitor, c, Notice("message.ack", OfMessage(sent.input)))]
    + (ToOwner(sent.conv, Received(sent.input)) + ToOwner(sent.conv, Changed(sent.conv)))
    + Relays(c, sent.conv, sent.generated)
    + [Outgoing(ToVisitor, c, Changed(sent.conv)), Outgoing(ToAdmins, "", Changed(sent.conv))]
  }

  function EscalationNotices(c: string, conv: Conversation): seq<Outgoing> {
    [Outgoing(ToVisitor, c, Changed(conv))] + ToOwner(conv, Changed(conv)) + [Outgoing(ToAdmins, "", Changed(conv))]
  }

  function ReplyNotices(c: string, m: Message, conv: Conversation): seq<Outgoing> {
    [Outgoing(ToVisitor, c, Received(m))] + ToOwner(conv, Received(m))
    + [Outgoing(ToVisitor, c, Changed(conv)), Outgoing(ToAdmins, "", Changed(conv))]
  }

  // ----- what one party hears -----

  /** Everything sent to one address, in order. */
  function Stream(outbox: seq<Outgoing>, target: Target, key: string): seq<Notice> {
    if outbox == [] then []
    else
      var last := outbox[|outbox| - 1];
      Stream(outbox[..|outbox| - 1], target, key)
      + if last.target == target && last.key == key then [last.notice] else []
  }

  function AllReceived(messages: seq<Message>): seq<Notice> {
    if messages == [] then [] else AllReceived(messages[..|messages| - 1]) + [Received(messages[|messages| - 1])]
  }

  lemma {:induction false} StreamConcat(a: seq<Outgoing>, b: seq<Outgoing>, target: Target, key: string)
    ensures Stream(a + b, target, key) == Stream(a, target, key) + Stream(b, target, key)
  {
    if b == [] {
      assert a + b == a;
    } else {
      StreamConcat(a, b[..|b| - 1], target, key);
      assert (a + b)[..|a + b| - 1] == a + b[..|b| - 1];
    }
  }

  lemma StreamNone(target: Target, key: string)
    ensures Stream([], target, key) == []
  {
  }

  lemma StreamOne(o: Outgoing, target: Target, key: string)
    ensures Stream([o], target, key) == if o.target == target && o.key == key then [o.notice] else []
  {
  }

  lemma StreamOwner(conv: Conversation, notice: Notice, target: Target, key: string)
    ensures Stream(ToOwner(conv, notice), target, key) == if HearsAsOwner(conv, target, key) then [notice] else []
  {
  }

  predicate HearsAsOwner(conv: Conversation, target: Target, key: string) {
    target == ToAgent && conv.owner != NOBODY && key == conv.owner
  }

  lemma {:induction false} RelaysReachBoth(c: string, conv: Conversation, messages: seq<Message>, target: Target,
                                           key: string)
    ensures Stream(Relays(c, conv, messages), target, key) ==
            if (target == ToVisitor && key == c) || HearsAsOwner(conv, target, key) then AllReceived(messages) else []
  {
    hide Stream;
    if messages == [] {
      StreamNone(target, key);
    } else {
      var init, m := messages[..|messages| - 1], messages[|messages| - 1];
      var head := [Outgoing(ToVisitor, c, Received(m))];
      RelaysReachBoth(c, conv, init, target, key);
      StreamConcat(Relays(c, conv, init), head + ToOwner(conv, Received(m)), target, key);
      StreamConcat(head, ToOwner(conv, Received(m)), target, key);
      StreamOne(head[0], target, key);
      StreamOwner(conv, Received(m), target, key);
    }
  }

  /** Of a visitor's message the visitor gets an acknowledgement and the replies, the owner the message and
      the replies, the admins the new status: each party every item once, in order, and nobody else any. */
  lemma SendTellsEachParty(c: string, sent: Sent, target: Target, key: string)
    ensures Stream(SendNotices(c, sent), target, key) ==
            match target
            case ToVisitor =>
              if key == c
              then [Notice("message.ack", OfMessage(sent.input))] + AllReceived(sent.generated)
                   + [Notice("conversation.status_changed", OfConversation(sent.conv))]
              else []
            case ToAgent =>
              if sent.conv.owner != NOBODY && key == sent.conv.owner
              then [Notice("message.receive", OfMessage(sent.input)),
                    Notice("conversation.status_changed", OfConversation(sent.conv))] + AllReceived(sent.generated)
              else []
            case ToAdmins =>
              if key == "" then [Notice("conversation.status_changed", OfConversation(sent.conv))] else []
            case ToAdmin => []
  {
    hide Stream, AllReceived, Relays, ToOwner, SendNotices;
    StreamOfSend(c, sent, target, key);
    if target != ToVisitor || key != c {
      assert forall x: seq<Notice> :: [] + x == x && x + [] == x;
    }
    StreamOne(Outgoing(ToVisitor, c, Notice("message.ack", OfMessage(sent.input))), target, key);
    StreamOne(Outgoing(ToVisitor, c, Changed(sent.conv)), target, key);
    StreamOne(Outgoing(ToAdmins, "", Changed(sent.conv)), target, key);
    StreamOwner(sent.conv, Received(sent.input), target, key);
    StreamOwner(sent.conv, Changed(sent.conv), target, key);
    RelaysReachBoth(c, sent.conv, sent.generated, target, key);
  }

  /** The stream of a send, part by part. */
  lemma StreamOfSend(c: string, sent: Sent, target: Target, key: string)
    ensures Stream(SendNotices(c, sent), target, key) ==
            Stream([Outgoing(ToVisitor, c, Notice("message.ack", OfMessage(sent.input)))], target, key)
            + (Stream(ToOwner(sent.conv, Received(sent.input)), target, key)
               + Stream(ToOwner(sent.conv, Changed(sent.conv)), target, key))
            + Stream(Relays(c, sent.conv, sent.generated), target, key)
            + (Stream([Outgoing(ToVisitor, c, Changed(sent.conv))], target, key)
               + Stream([Outgoing(ToAdmins, "", Changed(sent.conv))], target, key))
  {
    hide Stream, Relays, ToOwner;
    var ack := [Outgoing(ToVisitor, c, Notice("message.ack", OfMessage(sent.input)))];
    var own := ToOwner(sent.conv, Received(sent.input)) + ToOwner(sent.conv, Changed(sent.conv));
    var relays := Relays(c, sent.conv, sent.generated);
    var last := [Outgoing(ToVisitor, c, Changed(sent.conv))] + [Outgoing(ToAdmins, "", Changed(sent.conv))];
    assert SendNotices(c, sent) == ack + own + relays + last;
    StreamConcat(ack + own + relays, last, target, key);
    StreamConcat(ack + own, relays, target, key);
    StreamConcat(ack, own, target, key);
    StreamConcat(ToOwner(sent.conv, Received(sent.input)), ToOwner(sent.conv, Changed(sent.conv)), target, key);
    StreamConcat([last[0]], [last[1]], target, key);
  }

  /** Of an AI reply the visitor gets the message and the new status, the owner the message, the admins the
      status, and nobody else anything. */
  lemma ReplyTellsEachParty(c: string, m: Message, conv: Conversation, target: Target, key: string)
    ensures Stream(ReplyNotices(c, m, conv), target, key) ==
            match target
            case ToVisitor =>
              if key == c
              then [Notice("message.receive", OfMessage(m)),
                    Notice("conversation.status_changed", OfConversation(conv))]
              else []
            case ToAgent =>
              if conv.owner != "" && key == conv.owner then [Notice("message.receive", OfMessage(m))] else []
            case ToAdmins => if key == "" then [Notice("conversation.status_changed", OfConversation(conv))] else []
            case ToAdmin => []
  {
    hide Stream, ToOwner;
    var first, own := [Outgoing(ToVisitor, c, Received(m))], ToOwner(conv, Received(m));
    var status, admins := [Outgoing(ToVisitor, c, Changed(conv))], [Outgoing(ToAdmins, "", Changed(conv))];
    assert ReplyNotices(c, m, conv) == first + own + (status + admins);
    StreamConcat(first + own, status + admins, target, key);
    StreamConcat(first, own, target, key);
    StreamConcat(status, admins, target, key);
    StreamOne(first[0], target, key);
    StreamOne(status[0], target, key);
    StreamOne(admins[0], target, key);
    StreamOwner(conv, Received(m), target, key);
  }

  /** Of an escalation the visitor, the owner and the admins get the new status. */
  lemma EscalationTellsEachParty(c: string, conv: Conversation, target: Target, key: string)
    ensures Stream(EscalationNotices(c, conv), target, key) ==
            if (target == ToVisitor && key == c) || (target == ToAgent && conv.owner != "" && key == conv.owner)
               || (target == ToAdmins && key == "")
            then [Notice("conversation.status_changed", OfConversation(conv))] else []
  {
    hide Stream, ToOwner;
    var visitor, own := [Outgoing(ToVisitor, c, Changed(conv))], ToOwner(conv, Changed(conv));
    var admins := [Outgoing(ToAdmins, "", Changed(conv))];
    StreamConcat(visitor + own, admins, target, key);
    StreamConcat(visitor, own, target, key);
    StreamOne(visitor[0], target, key);
    StreamOne(admins[0], target, key);
    StreamOwner(conv, Changed(conv), target, key);
  }

  /** The notices of a list of messages, one each. */
  lemma {:induction false} AllReceivedAt(messages: seq<Message>, i: nat)
    requires i < |messages|
    ensures |AllReceived(messages)| == |messages|
    ensures AllReceived(messages)[i] == Notice("message.receive", OfMessage(messages[i]))
  {
    var init := messages[..|messages| - 1];
    if init != [] {
      AllReceivedAt(init, if i < |init| then i else 0);
    }
  }

  class Service {
    const store: MemoryStore
    var timers: multiset<Cause>
    var thinking: multiset<Cause>
    /** What the hub has been asked to send. */
    var outbox: seq<Outgoing>
    ghost var asked: set<Cause>
    ghost var answered: multiset<Cause>

    constructor (store: MemoryStore)
      ensures this.store == store && outbox == []
      ensures Model() == World(store.Model(), multiset{}, multiset{}, {}, multiset{})
    {
      this.store := store;
      timers, thinking, outbox := multiset{}, multiset{}, [];
      asked, answered := {}, multiset{};
    }

    ghost function Model(): World reads this, store { World(store.Model(), timers, thinking, asked, answered) }

    method Send(target: Target, key: string, notice: Notice)
      modifies this`outbox
      ensures outbox == old(outbox) + [Outgoing(target, key, notice)]
    {
      outbox := outbox + [Outgoing(target, key, notice)];
    }

    method AddVisitorMessage(c: string, clientId: string, content: string, kind: MessageType, urlSafe: bool,
                             matched: Matched, businessTime: bool, id: string, replyId: string, now: int)
      returns (r: Result<Sent>)
      modifies this, store
      ensures var (t, result) := StoreState.AddVisitorMessage(old(store.Model()), c, clientId, content, kind, urlSafe,
                                                             matched, businessTime, id, replyId, now);
              r == result && Model() == AfterSend(old(Model()), c, t, r)
      ensures outbox == old(outbox) + if r.Ok? then SendNotices(c, r.value) else []
    {
      hide StoreState.AddVisitorMessage, SendNotices;
      r := store.AddVisitorMessage(c, clientId, content, kind, urlSafe, matched, businessTime, id, replyId, now);
      if r.Err? {
        return;
      }
      var sent := r.value;
      Announce(c, sent);
      FollowUp(Cause(c, sent.input.id, sent.sentAt), sent);
    }

    /** The goroutines that a send leaves behind. */
    method FollowUp(x: Cause, sent: Sent)
      modifies this`asked, this`thinking, this`timers
      ensures asked == if sent.sentAt == ZERO_TIME then old(asked) else old(asked) + {x}
      ensures thinking == With(old(thinking), x, sent.needAI)
      ensures timers == With(old(timers), x, sent.conv.status == Assigned && sent.conv.owner != NOBODY
                                             && store.settings.noReply > 0)
    {
      if sent.sentAt != ZERO_TIME {
        asked := asked + {x};
      }
      if sent.needAI {
        thinking := thinking + multiset{x};
      }
      if sent.conv.status == Assigned && sent.conv.owner != "" {
        ScheduleNoReplyAI(x);
      }
    }

    method Announce(c: string, sent: Sent)
      modifies this`outbox
      ensures outbox == old(outbox) + SendNotices(c, sent)
    {
      hide Relays;
      var owner := sent.conv.owner;
      Send(ToVisitor, c, Notice("message.ack", OfMessage(sent.input)));
      if owner != "" {
        Send(ToAgent, owner, Received(sent.input));
        Send(ToAgent, owner, Changed(sent.conv));
      }
      RelayGenerated(c, sent.conv, sent.generated);
      Send(ToVisitor, c, Changed(sent.conv));
      Send(ToAdmins, "", Changed(sent.conv));
    }

    method RelayGenerated(c: string, conv: Conversation, generated: seq<Message>)
      modifies this`outbox
      ensures outbox == old(outbox) + Relays(c, conv, generated)
    {
      var i := 0;
      while i < |generated|
        invariant 0 <= i <= |generated|
        invariant outbox == old(outbox) + Relays(c, conv, generated[..i])
      {
        RelaysSnoc(c, conv, generated, i);
        Send(ToVisitor, c, Received(generated[i]));
        if conv.owner != "" {
          Send(ToAgent, conv.owner, Received(generated[i]));
        }
        i := i + 1;
      }
      assert generated[..i] == generated;
    }

    method ScheduleNoReplyAI(x: Cause)
      modifies this`timers
      ensures timers == With(old(timers), x, store.settings.noReply > 0)
    {
      if store.settings.noReply <= 0 {
        return;
      }
      timers := timers + multiset{x};
    }

    /** The timer goroutine wakes up. */
    method NoReplyTimer(x: Cause)
      requires x in timers
      modifies this, store`conversations
      ensures Model() == AfterTimer(old(Model()), x)
      ensures var escalated := EscalateNoReply(old(store.Model()), x.c, x.at).1;
              outbox == old(outbox) + if escalated.Some? then EscalationNotices(x.c, escalated.value) else []
    {
      timers := timers - multiset{x};
      var escalated := store.EscalateNoReplyToAI(x.c, x.at);
      if escalated.None? {
        return;
      }
      AnnounceEscalation(x.c, escalated.value);
      thinking := thinking + multiset{x};
    }

    /** The AI, or the fallback text when it fails, has produced a reply. */
    method SaveAIReply(x: Cause, reply: string, id: string, now: int)
      requires x in thinking
      modifies this, store
      ensures Model() == AfterReply(old(Model()), x, reply, id, now)
      ensures var saved := StoreState.AddAIMessage(old(store.Model()), x.c, reply, id, now).1;
              outbox == old(outbox) + if saved.Ok? then ReplyNotices(x.c, saved.value.0, saved.value.1) else []
    {
      hide StoreState.AddAIMessage, ReplyNotices;
      thinking := thinking - multiset{x};
      var saved := store.AddAIMessage(x.c, reply, id, now);
      if saved.Err? {
        return;
      }
      answered := answered + multiset{x};
      AnnounceReply(x.c, saved.value.0, saved.value.1);
    }

    method AnnounceEscalation(c: string, conv: Conversation)
      modifies this`outbox
      ensures outbox == old(outbox) + EscalationNotices(c, conv)
    {
      Send(ToVisitor, c, Changed(conv));
      if conv.owner != "" {
        Send(ToAgent, conv.owner, Changed(conv));
      }
      Send(ToAdmins, "", Changed(conv));
    }

    method AnnounceReply(c: string, m: Message, conv: Conversation)
      modifies this`outbox
      ensures outbox == old(outbox) + ReplyNotices(c, m, conv)
    {
      Send(ToVisitor, c, Received(m));
      if conv.owner != "" {
        Send(ToAgent, conv.owner, Received(m));
      }
      Send(ToVisitor, c, Changed(conv));
      Send(ToAdmins, "", Changed(conv));
    }
  }
}
