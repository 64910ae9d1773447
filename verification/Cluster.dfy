/** Several hubs joined by a bus: who is offered an event, over every interleaving of broadcasts,
    deliveries, joins and leaves. The bus hands each published event once to every node, in any order. */
module Cluster {
  import opened SendQueue
  import opened Realtime

  /** An event on the bus; serial tells apart two broadcasts of equal content. */
  datatype Parcel = Parcel(serial: nat, wire: WireEvent)

  /** bus holds what each node still has to consume, offers who was offered which broadcast. */
  datatype Cluster = Cluster(
    nodes: map<string, Registry>,
    bus: multiset<(string, Parcel)>,
    offers: multiset<(nat, Client)>,
    next: nat)

  datatype Step =
    | Broadcast(node: string, target: Target, key: string, event: Event)
    | Consume(node: string, parcel: Parcel)
    | Enter(node: string, client: Client)
    | Exit(node: string, client: Client)

  /** An event for a single admin is published only as a revocation. */
  ghost predicate Enabled(s: Cluster, step: Step) {
    && step.node in s.nodes
    && (step.Broadcast? && step.target == ToAdmin ==> step.event.name == SESSION_REVOKED)
    && (step.Consume? ==> (step.node, step.parcel) in s.bus)
  }

  ghost function Apply(s: Cluster, step: Step): Cluster
    requires Enabled(s, step)
  {
    match step
    case Broadcast(n, target, key, event) =>
      var parcel := Parcel(s.next, WireEvent(n, target, key, event));
      s.(offers := s.offers + multiset(set c | c in Recipients(s.nodes[n], target, key) :: (s.next, c)),
         bus := s.bus + multiset(set m | m in s.nodes :: (m, parcel)),
         next := s.next + 1)
    case Consume(n, p) =>
      s.(offers := s.offers + multiset(set c | c in Reached(s.nodes[n], n, p.wire) :: (p.serial, c)),
         bus := s.bus - multiset{(n, p)})
    case Enter(n, c) => s.(nodes := s.nodes[n := Registered(s.nodes[n], c)])
    case Exit(n, c) => s.(nodes := s.nodes[n := Unregistered(s.nodes[n], c)])
  }

  /** Node ids are distinct (the keys of a map) and not empty; serials on record have been issued. */
  ghost predicate Valid(s: Cluster) {
    && "" !in s.nodes
    && (forall n :: n in s.nodes ==> WellFiled(s.nodes[n]))
    && (forall x :: x in s.bus ==> x.1.serial < s.next)
    && (forall x :: x in s.offers ==> x.0 < s.next)
  }

  ghost predicate Runs(s: Cluster, steps: seq<Step>)
    decreases |steps|, 0
  {
    steps == [] || (Runs(s, steps[..|steps| - 1])
                    && Enabled(After(s, steps[..|steps| - 1]), steps[|steps| - 1]))
  }

  ghost function After(s: Cluster, steps: seq<Step>): Cluster
    requires Runs(s, steps)
    decreases |steps|, 1
  {
    if steps == [] then s else Apply(After(s, steps[..|steps| - 1]), steps[|steps| - 1])
  }

  lemma StepKeepsValid(s: Cluster, step: Step)
    requires Valid(s) && Enabled(s, step)
    ensures Valid(Apply(s, step)) && Apply(s, step).nodes.Keys == s.nodes.Keys
  {
    match step
    case Enter(n, c) => RegisterFiles(s.nodes[n], c);
    case Exit(n, c) => UnregisterDrops(s.nodes[n], c);
    case _ =>
  }

  // ----- who is addressed -----

  /** The client's own role and key match the address. */
  predicate Addressed(c: Client, target: Target, key: string) {
    match target
    case ToVisitor => c.role == VisitorRole && c.conversationId == key
    case ToAgent => c.role == AgentRole && c.accountId == key
    case ToAdmin => c.role == AdminRole && c.accountId == key
    case ToAdmins => c.role == AdminRole
  }

  /** A hub finds exactly the registered clients that an address describes. */
  lemma RecipientsAreAddressed(r: Registry, target: Target, key: string, c: Client)
    requires WellFiled(r)
    ensures c in Recipients(r, target, key) <==> c in Members(r) && Addressed(c, target, key)
  {
  }

  /** c is connected to node m and to no other. */
  ghost predicate ConnectedAt(s: Cluster, m: string, c: Client) {
    m in s.nodes && forall n :: n in s.nodes ==> (c in Members(s.nodes[n]) <==> n == m)
  }

  // ----- exactly once -----

  /** Broadcast k with wire event w has reached c or is still on its way to c's node, never both. */
  ghost predicate OnceOrPending(s: Cluster, k: nat, w: WireEvent, m: string, c: Client) {
    && k < s.next
    && (forall x :: x in s.bus && x.1.serial == k ==> x.1.wire == w)
    && s.offers[(k, c)] + (if m == w.node then 0 else s.bus[(m, Parcel(k, w))]) == 1
  }

  lemma BroadcastStarts(s: Cluster, b: Step, m: string, c: Client)
    requires Valid(s) && b.Broadcast? && Enabled(s, b)
    requires ConnectedAt(s, m, c) && Addressed(c, b.target, b.key)
    ensures OnceOrPending(Apply(s, b), s.next, WireEvent(b.node, b.target, b.key, b.event), m, c)
  {
    RecipientsAreAddressed(s.nodes[b.node], b.target, b.key, c);
    var parcel := Parcel(s.next, WireEvent(b.node, b.target, b.key, b.event));
    var copies := set n | n in s.nodes :: (n, parcel);
    var local := set d | d in Recipients(s.nodes[b.node], b.target, b.key) :: (s.next, d);
    assert (m, parcel) in copies;
    assert (m, parcel) !in s.bus && (s.next, c) !in s.offers;
    assert (s.next, c) in local <==> c in Recipients(s.nodes[b.node], b.target, b.key);
  }

  /** Consuming reaches a connected client that is addressed on its own node, unless the event began there. */
  lemma ReachedElsewhere(s: Cluster, n: string, w: WireEvent, m: string, c: Client)
    requires Valid(s) && n in s.nodes && ConnectedAt(s, m, c) && w.node in s.nodes && Addressed(c, w.target, w.key)
    requires w.target == ToAdmin ==> w.event.name == SESSION_REVOKED
    ensures c in Reached(s.nodes[n], n, w) <==> n == m && m != w.node
  {
    RecipientsAreAddressed(s.nodes[n], w.target, w.key, c);
    hide Recipients, Addressed, WellFiled;
  }

  lemma ConsumeKeepsOnce(s: Cluster, n: string, p: Parcel, k: nat, w: WireEvent, m: string, c: Client)
    requires Valid(s) && Enabled(s, Consume(n, p)) && ConnectedAt(s, m, c) && OnceOrPending(s, k, w, m, c)
    requires w.node in s.nodes && Addressed(c, w.target, w.key)
    requires w.target == ToAdmin ==> w.event.name == SESSION_REVOKED
    ensures OnceOrPending(Apply(s, Consume(n, p)), k, w, m, c)
  {
    hide Reached, Addressed, WellFiled;
    var reached := Reached(s.nodes[n], n, p.wire);
    var offered := set d | d in reached :: (p.serial, d);
    var t := Apply(s, Consume(n, p));
    assert (k, c) in offered <==> p.serial == k && c in reached;
    assert t.offers[(k, c)] == s.offers[(k, c)] + if p.serial == k && c in reached then 1 else 0;
    if p.serial == k {
      assert p == Parcel(k, w);
      ReachedElsewhere(s, n, w, m, c);
    }
    assert t.bus[(m, Parcel(k, w))] == s.bus[(m, Parcel(k, w))] - if n == m && p == Parcel(k, w) then 1 else 0;
  }

  lemma StepKeepsOnce(s: Cluster, step: Step, k: nat, w: WireEvent, m: string, c: Client)
    requires Valid(s) && Enabled(s, step) && ConnectedAt(s, m, c) && OnceOrPending(s, k, w, m, c)
    requires w.node in s.nodes && Addressed(c, w.target, w.key)
    requires w.target == ToAdmin ==> w.event.name == SESSION_REVOKED
    ensures OnceOrPending(Apply(s, step), k, w, m, c)
  {
    match step
    case Consume(n, p) => ConsumeKeepsOnce(s, n, p, k, w, m, c);
    case Broadcast(n, target, key, event) =>
      var local := set d | d in Recipients(s.nodes[n], target, key) :: (s.next, d);
      assert (k, c) !in local;
    case _ =>
  }

  /** Along any run that keeps c connected to m, c has been offered the broadcast or it is pending. */
  lemma {:induction false} OnceOrPendingThroughout(
      s: Cluster, steps: seq<Step>, k: nat, w: WireEvent, m: string, c: Client)
    requires Valid(s) && Runs(s, steps) && OnceOrPending(s, k, w, m, c)
    requires w.node in s.nodes && Addressed(c, w.target, w.key)
    requires w.target == ToAdmin ==> w.event.name == SESSION_REVOKED
    requires forall i :: 0 <= i < |steps| && Runs(s, steps[..i]) ==> ConnectedAt(After(s, steps[..i]), m, c)
    ensures Valid(After(s, steps)) && OnceOrPending(After(s, steps), k, w, m, c)
    ensures w.node in After(s, steps).nodes
  {
    if steps != [] {
      var init := steps[..|steps| - 1];
      forall i | 0 <= i < |init| && Runs(s, init[..i]) ensures ConnectedAt(After(s, init[..i]), m, c) {
        assert init[..i] == steps[..i];
      }
      OnceOrPendingThroughout(s, init, k, w, m, c);
      StepKeepsValid(After(s, init), steps[|steps| - 1]);
      StepKeepsOnce(After(s, init), steps[|steps| - 1], k, w, m, c);
    }
  }

  /** Once the bus holds no more copies of a broadcast, every client that was addressed and stayed
      connected to one node has been offered it exactly once, on whichever node it was sent. */
  lemma OfferedExactlyOnce(s: Cluster, b: Step, steps: seq<Step>, m: string, c: Client)
    requires Valid(s) && b.Broadcast? && Enabled(s, b) && Runs(Apply(s, b), steps)
    requires Addressed(c, b.target, b.key) && ConnectedAt(s, m, c)
    requires forall i :: 0 <= i < |steps| && Runs(Apply(s, b), steps[..i]) ==>
                           ConnectedAt(After(Apply(s, b), steps[..i]), m, c)
    requires forall x :: x in After(Apply(s, b), steps).bus ==> x.1.serial != s.next
    ensures After(Apply(s, b), steps).offers[(s.next, c)] == 1
  {
    var w := WireEvent(b.node, b.target, b.key, b.event);
    BroadcastStarts(s, b, m, c);
    StepKeepsValid(s, b);
    OnceOrPendingThroughout(Apply(s, b), steps, s.next, w, m, c);
    assert (m, Parcel(s.next, w)) !in After(Apply(s, b), steps).bus;
  }

  /** Broadcast k with wire event w has been offered to c on no occasion. */
  ghost predicate NeverOffered(s: Cluster, k: nat, w: WireEvent, c: Client) {
    k < s.next && (k, c) !in s.offers && forall x :: x in s.bus && x.1.serial == k ==> x.1.wire == w
  }

  lemma StepKeepsNeverOffered(s: Cluster, step: Step, k: nat, w: WireEvent, c: Client)
    requires Valid(s) && Enabled(s, step) && !Addressed(c, w.target, w.key) && NeverOffered(s, k, w, c)
    ensures NeverOffered(Apply(s, step), k, w, c)
  {
    hide WellFiled, Members, Addressed;
    match step
    case Consume(n, p) =>
      assert p.serial == k ==> p.wire == w;
      assert p.serial == k ==> c !in Recipients(s.nodes[n], w.target, w.key) by {
        RecipientsAreAddressed(s.nodes[n], w.target, w.key, c);
      }
      hide Recipients;
    case _ => hide Recipients;
  }

  lemma {:induction false} NeverOfferedThroughout(
      s: Cluster, steps: seq<Step>, k: nat, w: WireEvent, c: Client)
    requires Valid(s) && Runs(s, steps) && !Addressed(c, w.target, w.key) && NeverOffered(s, k, w, c)
    ensures Valid(After(s, steps)) && NeverOffered(After(s, steps), k, w, c)
  {
    hide Valid, Apply, NeverOffered, Addressed;
    if steps != [] {
      var init, last := steps[..|steps| - 1], steps[|steps| - 1];
      NeverOfferedThroughout(s, init, k, w, c);
      StepKeepsValid(After(s, init), last);
      StepKeepsNeverOffered(After(s, init), last, k, w, c);
    }
  }

  /** A client that a broadcast does not address is never offered it, on any node, at any time. */
  lemma OfferedOnlyToTheAddressed(s: Cluster, b: Step, steps: seq<Step>, c: Client)
    requires Valid(s) && b.Broadcast? && Enabled(s, b) && Runs(Apply(s, b), steps)
    requires !Addressed(c, b.target, b.key)
    ensures After(Apply(s, b), steps).offers[(s.next, c)] == 0
  {
    var w := WireEvent(b.node, b.target, b.key, b.event);
    RecipientsAreAddressed(s.nodes[b.node], b.target, b.key, c);
    StepKeepsValid(s, b);
    hide Valid, Recipients, Addressed;
    NeverOfferedThroughout(Apply(s, b), steps, s.next, w, c);
  }

  // ----- draining -----

  /** Consuming publishes nothing: with no new broadcast, each step takes one copy off the bus. */
  lemma {:induction false} ConsumingDrains(s: Cluster, steps: seq<Step>)
    requires Runs(s, steps) && forall i :: 0 <= i < |steps| ==> !steps[i].Broadcast?
    ensures |After(s, steps).bus| == |s.bus| - Consumed(steps)
  {
    if steps != [] {
      ConsumingDrains(s, steps[..|steps| - 1]);
    }
  }

  function Consumed(steps: seq<Step>): nat {
    if steps == [] then 0
    else Consumed(steps[..|steps| - 1]) + if steps[|steps| - 1].Consume? then 1 else 0
  }

  /** Nobody joins or leaves throughout the run. */
  ghost predicate NodesKept(s: Cluster, steps: seq<Step>) {
    forall i :: 0 <= i <= |steps| ==> Runs(s, steps[..i]) && After(s, steps[..i]).nodes == s.nodes
  }

  /** Every copy on the bus is for a node of the cluster. */
  ghost predicate Deliverable(s: Cluster) { forall x :: x in s.bus ==> x.0 in s.nodes }

  lemma ConsumeAny(s: Cluster) returns (step: Step)
    requires Valid(s) && Deliverable(s) && s.bus != multiset{}
    ensures Enabled(s, step) && |Apply(s, step).bus| == |s.bus| - 1 && Apply(s, step).nodes == s.nodes
    ensures Valid(Apply(s, step)) && Deliverable(Apply(s, step))
  {
    var x :| x in s.bus;
    step := Consume(x.0, x.1);
    assert (x.0, x.1) == x;
    StepKeepsValid(s, step);
    hide Valid, Reached;
  }

  lemma DrainOne(s: Cluster, steps: seq<Step>) returns (more: seq<Step>)
    requires Runs(s, steps) && Valid(After(s, steps)) && After(s, steps).bus != multiset{}
             && Deliverable(After(s, steps))
    requires NodesKept(s, steps)
    ensures Runs(s, more) && |more| == |steps| + 1 && |After(s, more).bus| == |After(s, steps).bus| - 1
    ensures Valid(After(s, more)) && Deliverable(After(s, more)) && NodesKept(s, more)
  {
    hide Valid, Apply, Enabled, Deliverable;
    var step := ConsumeAny(After(s, steps));
    assert steps[..|steps|] == steps;
    more := steps + [step];
    assert more[..|steps|] == steps;
    forall i | 0 <= i <= |more| ensures Runs(s, more[..i]) && After(s, more[..i]).nodes == s.nodes {
      assert more[..i] == if i <= |steps| then steps[..i] else more;
    }
  }

  /** So the bus can always be drained, in exactly as many steps as it holds copies. */
  lemma DrainExists(s: Cluster) returns (steps: seq<Step>)
    requires Valid(s) && Deliverable(s)
    ensures Runs(s, steps) && |steps| == |s.bus| && After(s, steps).bus == multiset{} && NodesKept(s, steps)
  {
    hide Valid, Apply;
    steps := [];
    while After(s, steps).bus != multiset{}
      invariant Runs(s, steps) && Valid(After(s, steps)) && Deliverable(After(s, steps)) && NodesKept(s, steps)
      invariant |steps| + |After(s, steps).bus| == |s.bus|
      decreases |After(s, steps).bus|
    {
      hide NodesKept, Deliverable, Runs, After;
      steps := DrainOne(s, steps);
    }
  }

  lemma BroadcastIsDeliverable(s: Cluster, b: Step)
    requires b.Broadcast? && Enabled(s, b) && Deliverable(s)
    ensures Deliverable(Apply(s, b)) && Apply(s, b).nodes == s.nodes
  {
    hide Recipients;
  }

  /** Every broadcast can be completed: some schedule of deliveries empties the bus, and by then a client
      that it addresses, connected to one node, has been offered it exactly once. */
  lemma BroadcastCanComplete(s: Cluster, b: Step, m: string, c: Client) returns (steps: seq<Step>)
    requires Valid(s) && b.Broadcast? && Enabled(s, b) && Deliverable(s)
    requires Addressed(c, b.target, b.key) && ConnectedAt(s, m, c)
    ensures Runs(Apply(s, b), steps) && After(Apply(s, b), steps).bus == multiset{}
    ensures After(Apply(s, b), steps).offers[(s.next, c)] == 1
  {
    StepKeepsValid(s, b);
    BroadcastIsDeliverable(s, b);
    hide Valid, Apply, Addressed, Runs, After, Deliverable, Members;
    steps := DrainExists(Apply(s, b));
    OfferedExactlyOnce(s, b, steps, m, c);
  }
}
