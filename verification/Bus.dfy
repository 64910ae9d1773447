/** The bus that joins the hubs: what a node puts on the channel, and what it does with what arrives. */
module Bus {
  import opened Results
  import opened SendQueue
  import opened Realtime

  /** One client's queue after its hub has handled what arrived; an unreadable payload is skipped. */
  ghost function Heard(q: Queue, c: Client, r: Registry, node: string, arrived: seq<Option<WireEvent>>): Queue {
    if arrived == [] then q
    else
      var before := Heard(q, c, r, node, arrived[..|arrived| - 1]);
      match arrived[|arrived| - 1]
      case Some(wire) => if c in Reached(r, node, wire) then Delivered(before, wire) else before
      case None => before
  }

  function Delivered(q: Queue, wire: WireEvent): Queue {
    if Disconnects(wire) then Close(Offer(q, wire.event)) else Offer(q, wire.event)
  }

  /** What is left of the arrivals without a node's own echoes and the unreadable payloads. */
  function Foreign(node: string, arrived: seq<Option<WireEvent>>): seq<Option<WireEvent>> {
    if arrived == [] then []
    else
      var last := arrived[|arrived| - 1];
      Foreign(node, arrived[..|arrived| - 1]) +
      if last.Some? && (last.value.node == "" || last.value.node != node) then [last] else []
  }

  lemma HeardSnoc(q: Queue, c: Client, r: Registry, node: string, arrived: seq<Option<WireEvent>>,
                  last: Option<WireEvent>)
    ensures var before := Heard(q, c, r, node, arrived);
            Heard(q, c, r, node, arrived + [last]) ==
            if last.Some? && c in Reached(r, node, last.value) then Delivered(before, last.value) else before
  {
  }

  /** A node hears the other nodes' events only: erasing its own echoes changes no client's queue. */
  lemma {:induction false} OwnEchoesAreSilent(q: Queue, c: Client, r: Registry, node: string,
                                              arrived: seq<Option<WireEvent>>)
    ensures Heard(q, c, r, node, Foreign(node, arrived)) == Heard(q, c, r, node, arrived)
  {
    hide Heard, Recipients, Delivered;
    if arrived == [] {
      assert Foreign(node, arrived) == arrived;
    } else {
      var init, last := arrived[..|arrived| - 1], arrived[|arrived| - 1];
      assert arrived == init + [last];
      OwnEchoesAreSilent(q, c, r, node, init);
      HeardSnoc(q, c, r, node, init, last);
      HeardSnoc(q, c, r, node, Foreign(node, init), last);
      assert Foreign(node, init) + [] == Foreign(node, init);
    }
  }

  /** A revocation from another node closes the queue of every client it addresses, for good. */
  lemma {:induction false} RevocationClosesForGood(q: Queue, c: Client, r: Registry, node: string,
                                                  arrived: seq<Option<WireEvent>>, i: nat)
    requires i < |arrived| && arrived[i].Some? && Disconnects(arrived[i].value)
             && c in Reached(r, node, arrived[i].value)
    ensures Heard(q, c, r, node, arrived).closed
    ensures Heard(q, c, r, node, arrived) == Heard(q, c, r, node, arrived[..i + 1])
  {
    if i == |arrived| - 1 {
      assert arrived[..i + 1] == arrived;
    } else {
      var init := arrived[..|arrived| - 1];
      RevocationClosesForGood(q, c, r, node, init, i);
      assert init[..i + 1] == arrived[..i + 1];
    }
  }

  /** The events among the arrivals that reach a client, in order. */
  ghost function EventsFor(c: Client, r: Registry, node: string, arrived: seq<Option<WireEvent>>): seq<Event> {
    if arrived == [] then []
    else
      var last := arrived[|arrived| - 1];
      EventsFor(c, r, node, arrived[..|arrived| - 1]) +
      if last.Some? && c in Reached(r, node, last.value) then [last.value.event] else []
  }

  /** An open queue with room hears every event that reaches its client, in order, while no revocation does. */
  lemma {:induction false} ArrivalsAreHeard(q: Queue, c: Client, r: Registry, node: string,
                                            arrived: seq<Option<WireEvent>>)
    requires !q.closed && |q.pending| + |EventsFor(c, r, node, arrived)| <= 64
    requires forall e :: e in EventsFor(c, r, node, arrived) ==> e.name != "session.revoked"
    ensures Heard(q, c, r, node, arrived) == Queue(q.pending + EventsFor(c, r, node, arrived), false)
  {
    hide Reached;
    if arrived != [] {
      var init, last := arrived[..|arrived| - 1], arrived[|arrived| - 1];
      ArrivalsAreHeard(q, c, r, node, init);
      var events := EventsFor(c, r, node, init);
      if last.Some? && c in Reached(r, node, last.value) {
        var e := last.value.event;
        assert e in events + [e];
        assert q.pending + (events + [e]) == (q.pending + events) + [e];
      } else {
        assert events + [] == events;
      }
    }
  }

  lemma ReachedAreMembers(r: Registry, node: string, wire: WireEvent)
    ensures Reached(r, node, wire) <= Members(r)
  {
  }

  class RedisBus {
    const nodeId: string
    /** What the broker has accepted from this node. */
    var channel: seq<WireEvent>

    constructor (nodeId: string)
      ensures this.nodeId == nodeId && channel == []
    {
      this.nodeId, channel := nodeId, [];
    }

    /** An event without a node id is stamped with the bus's own; a refused one is dropped. */
    method Publish(event: WireEvent, accepted: bool)
      modifies this
      ensures channel == old(channel) +
                         if accepted then [if event.node == "" then event.(node := nodeId) else event] else []
    {
      var wire := event;
      if wire.node == "" {
        wire := wire.(node := nodeId);
      }
      if accepted {
        channel := channel + [wire];
      }
    }

    /** The receive loop: clients of the hub change as heard, and the frame keeps the channel and everything
        the hub has published untouched. */
    method Consume(arrived: seq<Option<WireEvent>>, hub: Hub)
      requires hub.Valid()
      modifies Members(hub.State())
      ensures hub.Valid()
      ensures forall c :: c in Members(hub.State()) ==>
                            c.State() == Heard(old(c.State()), c, hub.State(), hub.nodeId, arrived)
    {
      hide Reached, WellFiled, Offer, Close, Disconnects;
      var i := 0;
      while i < |arrived|
        invariant 0 <= i <= |arrived| && hub.Valid()
        invariant forall c :: c in Members(hub.State()) ==>
                                c.State() == Heard(old(c.State()), c, hub.State(), hub.nodeId, arrived[..i])
      {
        assert arrived[..i + 1][..i] == arrived[..i];
        if arrived[i].Some? {
          ReachedAreMembers(hub.State(), hub.nodeId, arrived[i].value);
          hub.Deliver(arrived[i].value);
        }
        i := i + 1;
      }
      assert arrived[..i] == arrived;
    }
  }
}
