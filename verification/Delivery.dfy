/** From the service's outbox to the clients of every node: each notice is a broadcast of the cluster. */
module Delivery {
  import opened Domain
  import opened SendQueue
  import opened Realtime
  import opened StoreState
  import opened Cluster
  import opened Services

  /** Handing a notice to the hub of a node; encode is how payloads become text. */
  function BroadcastOf(node: string, o: Outgoing, encode: Payload -> string): Step {
    Broadcast(node, o.target, o.key, Event(o.notice.name, encode(o.notice.payload)))
  }

  // ----- runs in two parts -----

  lemma {:induction false} RunSplits(s: Cluster, steps: seq<Step>, k: nat)
    requires Runs(s, steps) && k <= |steps|
    ensures Runs(s, steps[..k]) && Runs(After(s, steps[..k]), steps[k..])
    ensures After(After(s, steps[..k]), steps[k..]) == After(s, steps)
    decreases |steps|
  {
    hide Apply, Enabled;
    if k == |steps| {
      assert steps[..k] == steps && steps[k..] == [];
    } else {
      var init, last := steps[..|steps| - 1], steps[|steps| - 1];
      RunSplits(s, init, k);
      assert init[..k] == steps[..k];
      assert steps[k..][..|steps| - k - 1] == init[k..] && steps[k..][|steps| - k - 1] == last;
    }
  }

  lemma {:induction false} RunsKeepValid(s: Cluster, steps: seq<Step>)
    requires Valid(s) && Runs(s, steps)
    ensures Valid(After(s, steps))
  {
    hide Valid, Apply;
    if steps != [] {
      var init := steps[..|steps| - 1];
      RunsKeepValid(s, init);
      StepKeepsValid(After(s, init), steps[|steps| - 1]);
    }
  }

  /** c is connected to node m and to no other from moment i of the run to its end. */
  ghost predicate StaysConnected(s: Cluster, steps: seq<Step>, i: nat, m: string, c: Client) {
    forall j: nat :: i <= j <= |steps| && Runs(s, steps[..j]) ==> ConnectedAt(After(s, steps[..j]), m, c)
  }

  /** Broadcast i of the run has left the bus by the end of it. */
  ghost predicate OffTheBus(s: Cluster, steps: seq<Step>, i: nat)
    requires Runs(s, steps) && i <= |steps|
  {
    Runs(s, steps[..i]) && forall x :: x in After(s, steps).bus ==> x.1.serial != After(s, steps[..i]).next
  }

  lemma StretchOfRun(s: Cluster, steps: seq<Step>, i: nat, j: nat)
    requires Runs(s, steps) && i + j <= |steps|
    ensures Runs(s, steps[..i]) && Runs(s, steps[..i + j]) && Runs(After(s, steps[..i]), steps[i..][..j])
    ensures After(After(s, steps[..i]), steps[i..][..j]) == After(s, steps[..i + j])
  {
    RunSplits(s, steps, i + j);
    RunSplits(s, steps[..i + j], i);
    hide Runs, After;
    SliceOfSlice(steps, i, j);
  }

  lemma SliceOfSlice(steps: seq<Step>, i: nat, j: nat)
    requires i + j <= |steps|
    ensures steps[..i + j][..i] == steps[..i] && steps[..i + j][i..] == steps[i..][..j]
  {
  }

  /** The moments after broadcast i, as moments of the rest of the run. */
  lemma RestOfRun(s: Cluster, steps: seq<Step>, i: nat, m: string, c: Client)
    requires Runs(s, steps) && i < |steps| && StaysConnected(s, steps, i, m, c)
    ensures Runs(s, steps[..i])
    ensures var t, rest := After(s, steps[..i]), steps[i + 1..];
            && Enabled(t, steps[i]) && Runs(Apply(t, steps[i]), rest)
            && After(Apply(t, steps[i]), rest) == After(s, steps) && ConnectedAt(t, m, c)
            && forall j :: 0 <= j < |rest| && Runs(Apply(t, steps[i]), rest[..j]) ==>
                             ConnectedAt(After(Apply(t, steps[i]), rest[..j]), m, c)
  {
    hide ConnectedAt, Apply, Enabled;
    RunSplits(s, steps, i);
    RunSplits(s, steps, i + 1);
    assert steps[..i + 1][..i] == steps[..i];
    assert Runs(s, steps[..i + 1]) && After(s, steps[..i + 1]) == Apply(After(s, steps[..i]), steps[i]);
    hide Runs, After;
    var rest := steps[i + 1..];
    forall j | 0 <= j < |rest|
      ensures Runs(After(s, steps[..i + 1]), rest[..j])
      ensures ConnectedAt(After(After(s, steps[..i + 1]), rest[..j]), m, c)
    {
      StretchOfRun(s, steps, i + 1, j);
    }
  }

  /** A notice broadcast at step i is offered exactly once to a client that it addresses and never to another. */
  lemma NoticeIsOffered(s: Cluster, steps: seq<Step>, i: nat, node: string, o: Outgoing, encode: Payload -> string,
                        m: string, c: Client)
    requires Valid(s) && Runs(s, steps) && i < |steps| && steps[i] == BroadcastOf(node, o, encode)
    requires StaysConnected(s, steps, i, m, c) && OffTheBus(s, steps, i)
    ensures After(s, steps).offers[(After(s, steps[..i]).next, c)] == if Addressed(c, o.target, o.key) then 1 else 0
  {
    RestOfRun(s, steps, i, m, c);
    RunsKeepValid(s, steps[..i]);
    hide StaysConnected, ConnectedAt, Apply, Valid, Runs, After, Enabled, Addressed;
    if Addressed(c, o.target, o.key) {
      OfferedExactlyOnce(After(s, steps[..i]), steps[i], steps[i + 1..], m, c);
    } else {
      OfferedOnlyToTheAddressed(After(s, steps[..i]), steps[i], steps[i + 1..], c);
    }
  }

  // ----- a whole outbox -----

  /** The service writes to single admins never, and to all admins under the blank key. */
  ghost predicate WellAddressed(outbox: seq<Outgoing>) {
    forall o :: o in outbox ==> o.target != ToAdmin && (o.target == ToAdmins ==> o.key == "")
  }

  /** The notices addressed to a client, in order. */
  function ForClient(outbox: seq<Outgoing>, c: Client): seq<Notice> {
    if outbox == [] then []
    else
      var last := outbox[|outbox| - 1];
      ForClient(outbox[..|outbox| - 1], c) + if Addressed(c, last.target, last.key) then [last.notice] else []
  }

  /** The stream of the address that a client listens to. */
  function StreamFor(outbox: seq<Outgoing>, c: Client): seq<Notice> {
    match c.role
    case VisitorRole => Stream(outbox, ToVisitor, c.conversationId)
    case AgentRole => Stream(outbox, ToAgent, c.accountId)
    case AdminRole => Stream(outbox, ToAdmins, "")
  }

  lemma {:induction false} ForClientIsStream(outbox: seq<Outgoing>, c: Client)
    requires WellAddressed(outbox)
    ensures ForClient(outbox, c) == StreamFor(outbox, c)
  {
    if outbox != [] {
      assert outbox[|outbox| - 1] in outbox;
      ForClientIsStream(outbox[..|outbox| - 1], c);
    }
  }

  /** Step at[k] of the run hands entry k of the outbox to the node's hub. */
  ghost predicate HandedOut(steps: seq<Step>, at: seq<nat>, node: string, outbox: seq<Outgoing>,
                            encode: Payload -> string)
  {
    && |at| == |outbox|
    && (forall k :: 0 <= k < |at| ==> at[k] < |steps| && steps[at[k]] == BroadcastOf(node, outbox[k], encode))
    && (forall j, k :: 0 <= j < k < |at| ==> at[j] < at[k])
  }

  /** Once an outbox has been handed out and the bus is empty, a client that stayed connected to any node has
      been offered exactly the notices of its own address, each of them once. */
  lemma OutboxIsOffered(s: Cluster, steps: seq<Step>, at: seq<nat>, node: string, outbox: seq<Outgoing>,
                        encode: Payload -> string, m: string, c: Client)
    requires Valid(s) && Runs(s, steps) && WellAddressed(outbox) && HandedOut(steps, at, node, outbox, encode)
    requires StaysConnected(s, steps, 0, m, c) && After(s, steps).bus == multiset{}
    ensures ForClient(outbox, c) == StreamFor(outbox, c)
    ensures forall k :: 0 <= k < |outbox| ==>
              && Runs(s, steps[..at[k]])
              && After(s, steps).offers[(After(s, steps[..at[k]]).next, c)]
                 == if Addressed(c, outbox[k].target, outbox[k].key) then 1 else 0
  {
    ForClientIsStream(outbox, c);
    forall k | 0 <= k < |outbox|
      ensures Runs(s, steps[..at[k]])
      ensures After(s, steps).offers[(After(s, steps[..at[k]]).next, c)]
              == if Addressed(c, outbox[k].target, outbox[k].key) then 1 else 0
    {
      hide Runs, After, Valid, Addressed;
      RunSplits(s, steps, at[k]);
      NoticeIsOffered(s, steps, at[k], node, outbox[k], encode, m, c);
    }
  }

  lemma SendIsWellAddressed(c: string, sent: Sent)
    ensures WellAddressed(SendNotices(c, sent))
  {
    RelaysAreWellAddressed(c, sent.conv, sent.generated);
    hide Relays;
  }

  lemma {:induction false} RelaysAreWellAddressed(c: string, conv: Conversation, messages: seq<Message>)
    ensures WellAddressed(Relays(c, conv, messages))
  {
    if messages != [] { RelaysAreWellAddressed(c, conv, messages[..|messages| - 1]); }
  }

  /** So of a visitor's message a connected visitor is offered the acknowledgement, the replies and the new
      status, a connected owner the message, the status and the replies, and an admin the status. */
  lemma SendIsHeard(conv: string, sent: Sent, c: Client)
    ensures ForClient(SendNotices(conv, sent), c) ==
            match c.role
            case VisitorRole =>
              if c.conversationId != conv then []
              else [Notice("message.ack", OfMessage(sent.input))] + AllReceived(sent.generated) + [Changed(sent.conv)]
            case AgentRole =>
              if sent.conv.owner == "" || c.accountId != sent.conv.owner then []
              else [Received(sent.input), Changed(sent.conv)] + AllReceived(sent.generated)
            case AdminRole => [Changed(sent.conv)]
  {
    hide SendNotices, Stream, ForClient;
    SendIsWellAddressed(conv, sent);
    ForClientIsStream(SendNotices(conv, sent), c);
    SendTellsEachParty(conv, sent, ToVisitor, c.conversationId);
    SendTellsEachParty(conv, sent, ToAgent, c.accountId);
    SendTellsEachParty(conv, sent, ToAdmins, "");
  }
}
