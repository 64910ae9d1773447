/** The realtime hub of one node: its registry of socket clients, local delivery and publishing. */
module Realtime {
  import opened SendQueue

  datatype Role = VisitorRole | AgentRole | AdminRole

  datatype Target = ToVisitor | ToAgent | ToAdmin | ToAdmins

  datatype WireEvent = WireEvent(node: string, target: Target, key: string, event: Event)

  /** The event name that makes the receiving hub disconnect instead of send. */
  const SESSION_REVOKED := "session.revoked"

  class Client {
    const role: Role
    const accountId: string
    const conversationId: string
    var pending: seq<Event>
    var closed: bool
    var channelClosed: bool

    constructor (role: Role, accountId: string, conversationId: string)
      ensures this.role == role && this.accountId == accountId && this.conversationId == conversationId
      ensures Valid() && State() == FRESH
    {
      this.role, this.accountId, this.conversationId := role, accountId, conversationId;
      pending, closed, channelClosed := [], false, false;
    }

    /** The flag that guards the channel never lags behind it. */
    predicate Valid() reads this { closed == channelClosed && |pending| <= CAPACITY }

    function State(): Queue reads this { Queue(pending, closed) }

    method Send(event: Event)
      requires Valid()
      modifies this
      ensures Valid() && State() == Offer(old(State()), event)
      ensures closed == old(closed)
      ensures !closed && |old(pending)| < 64 ==> pending == old(pending) + [event]
      ensures closed || |old(pending)| >= 64 ==> pending == old(pending)
    {
      if closed {
        return;
      }
      if |pending| < CAPACITY {
        assert !channelClosed;  // sending on a closed channel would panic
        pending := pending + [event];
      }
    }

    method CloseSend()
      requires Valid()
      modifies this
      ensures Valid() && State() == Close(old(State()))
      ensures closed && pending == old(pending)
    {
      if closed {
        return;
      }
      closed := true;
      assert !channelClosed;  // closing a closed channel would panic
      channelClosed := true;
    }

    method Disconnect(event: Event)
      requires Valid()
      modifies this
      ensures Valid() && State() == Close(Offer(old(State()), event))
      ensures closed
      ensures pending == old(pending) + if !old(closed) && |old(pending)| < 64 then [event] else []
    {
      Send(event);
      CloseSend();
    }
  }

  // ----- the registry -----

  datatype Registry = Registry(
    visitors: map<string, set<Client>>, agents: map<string, set<Client>>, admins: set<Client>)

  const NO_CLIENTS := Registry(map[], map[], {})

  function Bucket(buckets: map<string, set<Client>>, key: string): set<Client> {
    if key in buckets then buckets[key] else {}
  }

  function Insert(buckets: map<string, set<Client>>, key: string, client: Client): map<string, set<Client>> {
    buckets[key := Bucket(buckets, key) + {client}]
  }

  /** Removing the last client of a bucket removes the bucket. */
  function Remove(buckets: map<string, set<Client>>, key: string, client: Client): map<string, set<Client>> {
    var rest := Bucket(buckets, key) - {client};
    if rest == {} then buckets - {key} else buckets[key := rest]
  }

  function Registered(r: Registry, client: Client): Registry {
    match client.role
    case VisitorRole => r.(visitors := Insert(r.visitors, client.conversationId, client))
    case AgentRole => r.(agents := Insert(r.agents, client.accountId, client))
    case AdminRole => r.(admins := r.admins + {client})
  }

  function Unregistered(r: Registry, client: Client): Registry {
    match client.role
    case VisitorRole => r.(visitors := Remove(r.visitors, client.conversationId, client))
    case AgentRole => r.(agents := Remove(r.agents, client.accountId, client))
    case AdminRole => r.(admins := r.admins - {client})
  }

  function Clients(buckets: map<string, set<Client>>): set<Client> {
    set k, c | k in buckets && c in buckets[k] :: c
  }

  function Members(r: Registry): set<Client> { Clients(r.visitors) + Clients(r.agents) + r.admins }

  /** The key a client is filed under. */
  function KeyOf(c: Client): string { if c.role == VisitorRole then c.conversationId else c.accountId }

  /** No bucket is empty, and every client sits under its own role and key. */
  ghost predicate Filed(buckets: map<string, set<Client>>, role: Role) {
    && (forall k :: k in buckets ==> buckets[k] != {})
    && (forall k, c :: k in buckets && c in buckets[k] ==> c.role == role && KeyOf(c) == k)
  }

  ghost predicate WellFiled(r: Registry) {
    && Filed(r.visitors, VisitorRole)
    && Filed(r.agents, AgentRole)
    && (forall c :: c in r.admins ==> c.role == AdminRole)
  }

  lemma InsertAdds(buckets: map<string, set<Client>>, key: string, client: Client)
    ensures Clients(Insert(buckets, key, client)) == Clients(buckets) + {client}
    ensures Filed(buckets, client.role) && KeyOf(client) == key ==> Filed(Insert(buckets, key, client), client.role)
  {
    var next := Insert(buckets, key, client);
    forall c ensures c in Clients(next) <==> c in Clients(buckets) || c == client {
      InsertAddsOne(buckets, key, client, c);
    }
  }

  lemma InsertAddsOne(buckets: map<string, set<Client>>, key: string, client: Client, c: Client)
    ensures c in Clients(Insert(buckets, key, client)) <==> c in Clients(buckets) || c == client
  {
    var next := Insert(buckets, key, client);
    if c == client {
      assert c in next[key];
    } else if c in Clients(buckets) {
      var k :| k in buckets && c in buckets[k];
      assert c in next[k];
    }
  }

  lemma RemoveDrops(buckets: map<string, set<Client>>, key: string, client: Client)
    requires forall k :: k in buckets && client in buckets[k] ==> k == key
    ensures Clients(Remove(buckets, key, client)) == Clients(buckets) - {client}
    ensures forall role :: Filed(buckets, role) ==> Filed(Remove(buckets, key, client), role)
  {
    var next := Remove(buckets, key, client);
    forall c ensures c in Clients(next) <==> c in Clients(buckets) && c != client {
      if c in Clients(buckets) && c != client {
        var k :| k in buckets && c in buckets[k];
        assert k == key ==> c in Bucket(buckets, key) - {client};
        assert c in next[k];
      }
    }
  }

  lemma RegisterFiles(r: Registry, client: Client)
    requires WellFiled(r)
    ensures WellFiled(Registered(r, client)) && Members(Registered(r, client)) == Members(r) + {client}
  {
    hide Clients, Insert, Filed;
    match client.role
    case VisitorRole => InsertAdds(r.visitors, client.conversationId, client);
    case AgentRole => InsertAdds(r.agents, client.accountId, client);
    case AdminRole =>
  }

  lemma UnregisterDrops(r: Registry, client: Client)
    requires WellFiled(r)
    ensures WellFiled(Unregistered(r, client)) && Members(Unregistered(r, client)) == Members(r) - {client}
  {
    hide Remove;
    match client.role
    case VisitorRole => RemoveDrops(r.visitors, client.conversationId, client);
    case AgentRole => RemoveDrops(r.agents, client.accountId, client);
    case AdminRole =>
  }

  datatype Change = Join(client: Client) | Leave(client: Client)

  function RegistryAfter(changes: seq<Change>): Registry {
    if changes == [] then NO_CLIENTS
    else
      var before := RegistryAfter(changes[..|changes| - 1]);
      match changes[|changes| - 1]
      case Join(c) => Registered(before, c)
      case Leave(c) => Unregistered(before, c)
  }

  /** The clients that have joined and not left since. */
  function LiveAfter(changes: seq<Change>): set<Client> {
    if changes == [] then {}
    else
      var before := LiveAfter(changes[..|changes| - 1]);
      match changes[|changes| - 1]
      case Join(c) => before + {c}
      case Leave(c) => before - {c}
  }

  /** Over every interleaving of joins and leaves (repeated ones too) the registry holds exactly the
      live clients, each under its own key, with no empty bucket. */
  lemma {:induction false} RegistryHoldsTheLive(changes: seq<Change>)
    ensures WellFiled(RegistryAfter(changes)) && Members(RegistryAfter(changes)) == LiveAfter(changes)
  {
    if changes != [] {
      var init, last := changes[..|changes| - 1], changes[|changes| - 1];
      RegistryHoldsTheLive(init);
      RegisterFiles(RegistryAfter(init), last.client);
      UnregisterDrops(RegistryAfter(init), last.client);
    }
  }

  /** Bucket sizes add up to the number of clients, since no client is filed twice. */
  lemma BucketsAreDisjoint(buckets: map<string, set<Client>>, done: set<string>, key: string, role: Role)
    requires Filed(buckets, role) && done <= buckets.Keys && key in buckets && key !in done
    ensures |Clients(Only(buckets, done + {key}))| == |Clients(Only(buckets, done))| + |buckets[key]|
  {
    var less, more := Only(buckets, done), Only(buckets, done + {key});
    forall c ensures c in Clients(more) <==> c in Clients(less) || c in buckets[key] {
      if c in buckets[key] { assert c in more[key]; }
      if c in Clients(less) {
        var k :| k in less && c in less[k];
        assert c in more[k];
      }
    }
    assert Clients(more) == Clients(less) + buckets[key];
    forall c | c in Clients(less) ensures c !in buckets[key] {
      assert KeyOf(c) in done;
    }
    assert Clients(less) !! buckets[key];
  }

  lemma MembersByRole(r: Registry)
    requires WellFiled(r)
    ensures Clients(r.visitors) == set c | c in Members(r) && c.role == VisitorRole
    ensures Clients(r.agents) == set c | c in Members(r) && c.role == AgentRole
    ensures r.admins == set c | c in Members(r) && c.role == AdminRole
  {
  }

  function Only(buckets: map<string, set<Client>>, keys: set<string>): map<string, set<Client>> {
    map k | k in buckets && k in keys :: buckets[k]
  }

  // ----- delivery -----

  /** The local clients that an event is addressed to. */
  function Recipients(r: Registry, target: Target, key: string): set<Client> {
    match target
    case ToVisitor => Bucket(r.visitors, key)
    case ToAgent => Bucket(r.agents, key)
    case ToAdmin => set c | c in r.admins && c.accountId == key
    case ToAdmins => r.admins
  }

  /** Who receives an event from the bus: nobody on the node that published it, and nobody for an event
      to a single admin that is not a revocation. */
  function Reached(r: Registry, node: string, wire: WireEvent): set<Client> {
    if wire.node != "" && wire.node == node then {}
    else if wire.target == ToAdmin && wire.event.name != SESSION_REVOKED then {}
    else Recipients(r, wire.target, wire.key)
  }

  predicate Disconnects(wire: WireEvent) {
    (wire.target == ToAgent || wire.target == ToAdmin) && wire.event.name == SESSION_REVOKED
  }

  class Hub {
    const nodeId: string
    var visitors: map<string, set<Client>>
    var agents: map<string, set<Client>>
    var admins: set<Client>
    var hasPublisher: bool
    /** What the publisher has been handed so far. */
    var published: seq<WireEvent>

    constructor (nodeId: string)
      ensures this.nodeId == nodeId && State() == NO_CLIENTS && !hasPublisher && published == []
      ensures Valid()
    {
      this.nodeId := nodeId;
      visitors, agents, admins := map[], map[], {};
      hasPublisher, published := false, [];
    }

    function State(): Registry reads this { Registry(visitors, agents, admins) }

    ghost predicate Valid() reads this, Members(State()) {
      WellFiled(State()) && forall c :: c in Members(State()) ==> c.Valid()
    }

    method SetPublisher(present: bool)
      requires Valid()
      modifies this`hasPublisher
      ensures Valid() && hasPublisher == present
    {
      hasPublisher := present;
    }

    method Register(client: Client)
      requires Valid() && client.Valid()
      modifies this`visitors, this`agents, this`admins
      ensures Valid() && State() == Registered(old(State()), client)
    {
      hide Clients, Filed;
      RegisterFiles(State(), client);
      match client.role
      case VisitorRole =>
        if client.conversationId !in visitors {
          visitors := visitors[client.conversationId := {}];
        }
        visitors := visitors[client.conversationId := visitors[client.conversationId] + {client}];
        assert visitors == Insert(old(visitors), client.conversationId, client);
      case AgentRole =>
        if client.accountId !in agents {
          agents := agents[client.accountId := {}];
        }
        agents := agents[client.accountId := agents[client.accountId] + {client}];
        assert agents == Insert(old(agents), client.accountId, client);
      case AdminRole =>
        admins := admins + {client};
    }

    /** Leaving always closes the client's queue, registered or not. */
    method Unregister(client: Client)
      requires Valid() && client.Valid()
      modifies this`visitors, this`agents, this`admins, client
      ensures Valid() && State() == Unregistered(old(State()), client)
      ensures client.Valid() && client.State() == Close(old(client.State()))
    {
      ghost var members := Members(State());
      assert forall c :: c in members ==> c.Valid();
      hide Clients, Filed;
      UnregisterDrops(State(), client);
      RemoveFromRegistry(client);
      assert Members(State()) == members - {client};
      client.CloseSend();
      assert forall c :: c in members ==> c.Valid();
    }

    method RemoveFromRegistry(client: Client)
      modifies this`visitors, this`agents, this`admins
      ensures State() == Unregistered(old(State()), client)
    {
      match client.role {
        case VisitorRole =>
          if client.conversationId in visitors {
            visitors := visitors[client.conversationId := visitors[client.conversationId] - {client}];
            if visitors[client.conversationId] == {} {
              visitors := visitors - {client.conversationId};
            }
          }
          assert visitors == Remove(old(visitors), client.conversationId, client);
        case AgentRole =>
          if client.accountId in agents {
            agents := agents[client.accountId := agents[client.accountId] - {client}];
            if agents[client.accountId] == {} {
              agents := agents - {client.accountId};
            }
          }
          assert agents == Remove(old(agents), client.accountId, client);
        case AdminRole =>
          admins := admins - {client};
      }
    }

    method CountClients(buckets: map<string, set<Client>>, ghost role: Role) returns (total: nat)
      requires Filed(buckets, role)
      ensures total == |Clients(buckets)|
    {
      total := 0;
      var todo := buckets.Keys;
      assert Only(buckets, todo - todo) == map[];
      while todo != {}
        invariant todo <= buckets.Keys
        invariant total == |Clients(Only(buckets, buckets.Keys - todo))|
        decreases todo
      {
        var k :| k in todo;
        BucketsAreDisjoint(buckets, buckets.Keys - todo, k, role);
        assert buckets.Keys - (todo - {k}) == buckets.Keys - todo + {k};
        todo := todo - {k};
        total := total + |buckets[k]|;
      }
      assert Only(buckets, buckets.Keys - todo) == buckets;
    }

    /** The totals count every registered client once. */
    method Stats() returns (visitorCount: nat, agentCount: nat, adminCount: nat)
      requires Valid()
      ensures visitorCount == |set c | c in Members(State()) && c.role == VisitorRole|
      ensures agentCount == |set c | c in Members(State()) && c.role == AgentRole|
      ensures adminCount == |set c | c in Members(State()) && c.role == AdminRole|
    {
      adminCount := |admins|;
      visitorCount := CountClients(visitors, VisitorRole);
      agentCount := CountClients(agents, AgentRole);
      MembersByRole(State());
    }

    method SendAll(targets: set<Client>, event: Event)
      requires forall c :: c in targets ==> c.Valid()
      modifies targets
      ensures forall c :: c in targets ==> c.Valid() && c.State() == Offer(old(c.State()), event)
    {
      var todo := targets;
      while todo != {}
        invariant todo <= targets
        invariant forall c :: c in todo ==> c.Valid() && c.State() == old(c.State())
        invariant forall c :: c in targets - todo ==> c.Valid() && c.State() == Offer(old(c.State()), event)
        decreases todo
      {
        var c :| c in todo;
        todo := todo - {c};
        c.Send(event);
      }
    }

    method DisconnectAll(targets: set<Client>, event: Event)
      requires forall c :: c in targets ==> c.Valid()
      modifies targets
      ensures forall c :: c in targets ==> c.Valid() && c.State() == Close(Offer(old(c.State()), event))
    {
      var todo := targets;
      while todo != {}
        invariant todo <= targets
        invariant forall c :: c in todo ==> c.Valid() && c.State() == old(c.State())
        invariant forall c :: c in targets - todo ==> c.Valid() && c.State() == Close(Offer(old(c.State()), event))
        decreases todo
      {
        var c :| c in todo;
        todo := todo - {c};
        c.Disconnect(event);
      }
    }

    method Publish(wire: WireEvent)
      modifies this`published
      ensures published == if hasPublisher then old(published) + [wire] else old(published)
    {
      if hasPublisher {
        published := published + [wire];
      }
    }

    method SendToVisitor(conversationId: string, event: Event)
      requires Valid()
      modifies this`published, Recipients(State(), ToVisitor, conversationId)
      ensures Valid() && State() == old(State())
      ensures forall c :: c in Recipients(State(), ToVisitor, conversationId) ==>
                            c.State() == Offer(old(c.State()), event)
      ensures published == old(published) +
                           if hasPublisher then [WireEvent(nodeId, ToVisitor, conversationId, event)] else []
    {
      SendAll(if conversationId in visitors then visitors[conversationId] else {}, event);
      Publish(WireEvent(nodeId, ToVisitor, conversationId, event));
    }

    method SendToAgent(agentId: string, event: Event)
      requires Valid()
      modifies this`published, Recipients(State(), ToAgent, agentId)
      ensures Valid() && State() == old(State())
      ensures forall c :: c in Recipients(State(), ToAgent, agentId) ==> c.State() == Offer(old(c.State()), event)
      ensures published == old(published) + if hasPublisher then [WireEvent(nodeId, ToAgent, agentId, event)] else []
    {
      SendAll(if agentId in agents then agents[agentId] else {}, event);
      Publish(WireEvent(nodeId, ToAgent, agentId, event));
    }

    method BroadcastAdmins(event: Event)
      requires Valid()
      modifies this`published, Recipients(State(), ToAdmins, "")
      ensures Valid() && State() == old(State())
      ensures forall c :: c in Recipients(State(), ToAdmins, "") ==> c.State() == Offer(old(c.State()), event)
      ensures published == old(published) + if hasPublisher then [WireEvent(nodeId, ToAdmins, "", event)] else []
    {
      SendAll(admins, event);
      Publish(WireEvent(nodeId, ToAdmins, "", event));
    }

    method DisconnectAgent(agentId: string, reason: string)
      requires Valid()
      modifies this`published, Recipients(State(), ToAgent, agentId)
      ensures Valid() && State() == old(State())
      ensures forall c :: c in Recipients(State(), ToAgent, agentId) ==>
                            c.State() == Close(Offer(old(c.State()), Event(SESSION_REVOKED, reason)))
      ensures published == old(published) +
              if hasPublisher then [WireEvent(nodeId, ToAgent, agentId, Event(SESSION_REVOKED, reason))] else []
    {
      var event := Event(SESSION_REVOKED, reason);
      DisconnectAll(if agentId in agents then agents[agentId] else {}, event);
      Publish(WireEvent(nodeId, ToAgent, agentId, event));
    }

    method DisconnectAdmin(adminId: string, reason: string)
      requires Valid()
      modifies this`published, Recipients(State(), ToAdmin, adminId)
      ensures Valid() && State() == old(State())
      ensures forall c :: c in Recipients(State(), ToAdmin, adminId) ==>
                            c.State() == Close(Offer(old(c.State()), Event(SESSION_REVOKED, reason)))
      ensures published == old(published) +
              if hasPublisher then [WireEvent(nodeId, ToAdmin, adminId, Event(SESSION_REVOKED, reason))] else []
    {
      var event := Event(SESSION_REVOKED, reason);
      DisconnectAll((set c | c in admins && c.accountId == adminId), event);
      Publish(WireEvent(nodeId, ToAdmin, adminId, event));
    }

    /** An event from the bus. The frame says that nothing is published again. */
    method Deliver(wire: WireEvent)
      requires Valid()
      modifies Reached(State(), nodeId, wire)
      ensures Valid()
      ensures forall c :: c in Reached(State(), nodeId, wire) ==>
                c.State() == if Disconnects(wire) then Close(Offer(old(c.State()), wire.event))
                             else Offer(old(c.State()), wire.event)
      ensures forall c :: c in Reached(State(), nodeId, wire) ==>
                && c.closed == (old(c.closed) || (wire.target != ToVisitor && wire.target != ToAdmins
                                                  && wire.event.name == "session.revoked"))
                && c.pending == old(c.pending) +
                   if !old(c.closed) && |old(c.pending)| < 64 then [wire.event] else []
    {
      if wire.node != "" && wire.node == nodeId {
        return;
      }
      match wire.target
      case ToVisitor =>
        SendAll(if wire.key in visitors then visitors[wire.key] else {}, wire.event);
      case ToAgent =>
        if wire.event.name == SESSION_REVOKED {
          DisconnectAll(if wire.key in agents then agents[wire.key] else {}, wire.event);
          return;
        }
        SendAll(if wire.key in agents then agents[wire.key] else {}, wire.event);
      case ToAdmin =>
        if wire.event.name == SESSION_REVOKED {
          DisconnectAll((set c | c in admins && c.accountId == wire.key), wire.event);
          return;
        }
      case ToAdmins =>
        SendAll(admins, wire.event);
    }
  }
}
