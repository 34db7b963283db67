/** Any number of servers electing a coordinator over a network that reorders and repeats datagrams. */
module ElectionNetwork {
  import opened MachineInts
  import opened Wrappers
  import opened Election
  import opened ElectionHistory

  datatype Datagram = Datagram(source: Addr, dest: Addr, message: Message)

  datatype Network = Network(nodes: map<Addr, Node>, flight: multiset<Datagram>, clock: int)

  /** A delivered datagram may stay under way, to be delivered again. */
  datatype Event =
    | Deliver(datagram: Datagram, again: bool)
    | Silent(server: Addr)
    | Suspect(server: Addr)
    | Drop(datagram: Datagram)

  function ToAll(source: Addr, m: Message, servers: set<Addr>): multiset<Datagram> {
    multiset(set s | s in servers :: Datagram(source, s, m))
  }

  function Routed(source: Addr, sent: seq<Outgoing>, servers: set<Addr>): multiset<Datagram> {
    if sent == [] then multiset{}
    else
      Routed(source, sent[..|sent| - 1], servers) +
      match sent[|sent| - 1]
      case Announced(m) => ToAll(source, m, servers)
      case Answered(dest, m) => multiset{Datagram(source, dest, m)}
      case Snapshot => multiset{}
  }

  /** A broadcast reaches every server, its sender included. */
  lemma {:induction false} RoutedIs(source: Addr, sent: seq<Outgoing>, servers: set<Addr>, d: Datagram)
    ensures d in Routed(source, sent, servers) <==>
            d.source == source &&
            ((Announced(d.message) in sent && d.dest in servers) || Answered(d.dest, d.message) in sent)
    decreases |sent|
  {
    if sent != [] {
      var earlier, last := sent[..|sent| - 1], sent[|sent| - 1];
      RoutedIs(source, earlier, servers, d);
      assert sent == earlier + [last];
      assert forall o :: o in sent <==> o in earlier || o == last;
    }
  }

  function Acted(net: Network, server: Addr, r: Reaction, used: multiset<Datagram>, now: int): Network {
    Network(net.nodes[server := r.node], net.flight - used + Routed(server, r.sent, net.nodes.Keys), now)
  }

  ghost predicate Enabled(net: Network, e: Event, now: int) {
    && now >= net.clock
    && match e
       case Deliver(d, _) => d in net.flight && d.dest in net.nodes
       case Silent(server) => server in net.nodes
       case Suspect(server) => server in net.nodes
       case Drop(d) => d in net.flight
  }

  /** Which server an event concerns, and what happens to it. */
  function Concerns(e: Event): Addr {
    match e
    case Deliver(d, _) => d.dest
    case Silent(server) => server
    case Suspect(server) => server
    case Drop(d) => d.dest
  }

  function Happens(e: Event, now: int): NodeEvent {
    match e
    case Deliver(d, _) => Turn(Reading.Heard(d.source, Some(d.message)), now)
    case Silent(_) => Turn(Silence, now)
    case Suspect(_) => HeartbeatLost
    case Drop(_) => HeartbeatLost
  }

  function Used(e: Event): multiset<Datagram> {
    match e
    case Deliver(d, again) => if again then multiset{} else multiset{d}
    case Drop(d) => multiset{d}
    case _ => multiset{}
  }

  function Step(net: Network, e: Event, now: int): Network
    requires Enabled(net, e, now)
  {
    if e.Drop? then net.(flight := net.flight - Used(e), clock := now)
    else Acted(net, Concerns(e), NodeStep(net.nodes[Concerns(e)], Happens(e, now)), Used(e), now)
  }

  ghost predicate Initial(net: Network) {
    && net.flight == multiset{}
    && (forall s :: s in net.nodes ==> net.nodes[s] == StartNode(net.nodes[s].id, net.nodes[s].startTime))
    && DistinctIds(net)
  }

  ghost predicate DistinctIds(net: Network) {
    forall s, t :: s in net.nodes && t in net.nodes && s != t ==> net.nodes[s].id != net.nodes[t].id
  }

  // ---------------------------------------------------------------------------
  // What every event keeps, lost datagrams included
  // ---------------------------------------------------------------------------

  ghost predicate Genuine(net: Network, d: Datagram) {
    d.source in net.nodes && d.message.id == net.nodes[d.source].id
  }

  ghost predicate Sane(net: Network) {
    && DistinctIds(net)
    && (forall d :: d in net.flight ==> Genuine(net, d))
    && (forall s :: s in net.nodes && net.nodes[s].state == INIT ==> !net.nodes[s].isCoordinator)
  }

  ghost predicate SameServers(net: Network, net': Network) {
    net'.nodes.Keys == net.nodes.Keys && forall s :: s in net.nodes ==> net'.nodes[s].id == net.nodes[s].id
  }

  /** Nobody signs with another's id. */
  lemma SignsOwn(n: Node, e: NodeEvent)
    ensures var r := NodeStep(n, e);
            && r.node.id == n.id && r.node.startTime == n.startTime && r.node.state != INIT
            && forall o :: o in r.sent && !o.Snapshot? ==> o.message.id == n.id
  {
  }

  lemma StepServers(net: Network, e: Event, now: int)
    requires Enabled(net, e, now)
    ensures SameServers(net, Step(net, e, now))
    ensures forall s :: s in net.nodes && Step(net, e, now).nodes[s].state == INIT ==>
              Step(net, e, now).nodes[s] == net.nodes[s]
  {
    if !e.Drop? {
      SignsOwn(net.nodes[Concerns(e)], Happens(e, now));
    }
  }

  lemma StepGenuine(net: Network, e: Event, now: int, d: Datagram)
    requires Enabled(net, e, now) && d in Step(net, e, now).flight && (d in net.flight ==> Genuine(net, d))
    ensures Genuine(net, d)
  {
    if d !in net.flight {
      var s := Concerns(e);
      SignsOwn(net.nodes[s], Happens(e, now));
      RoutedIs(s, NodeStep(net.nodes[s], Happens(e, now)).sent, net.nodes.Keys, d);
    }
  }

  lemma StepKeepsSane(net: Network, e: Event, now: int)
    requires Sane(net) && Enabled(net, e, now)
    ensures Sane(Step(net, e, now)) && SameServers(net, Step(net, e, now))
  {
    var net' := Step(net, e, now);
    StepServers(net, e, now);
    forall d | d in net'.flight ensures Genuine(net', d) {
      StepGenuine(net, e, now, d);
    }
  }

  ghost predicate Top(net: Network, m: Addr) {
    m in net.nodes && forall s :: s in net.nodes && s != m ==> net.nodes[s].id < net.nodes[m].id
  }

  /** The highest server never waits for another, even when datagrams are lost. */
  lemma TopNeverWaits(net: Network, e: Event, now: int, m: Addr)
    requires Sane(net) && Enabled(net, e, now) && Top(net, m) && net.nodes[m].state != WAITING_FOR_COORD
    ensures Top(Step(net, e, now), m) && Step(net, e, now).nodes[m].state != WAITING_FOR_COORD
  {
    StepKeepsSane(net, e, now);
    if !e.Drop? && Concerns(e) == m {
      WaitsForHigher(net.nodes[m], Happens(e, now));
      if e.Deliver? {
        assert Genuine(net, e.datagram);
      }
    }
  }

  // ---------------------------------------------------------------------------
  // Two coordinators
  // ---------------------------------------------------------------------------

  ghost predicate Announcing(net: Network, a: Addr, b: Addr)
    requires a in net.nodes
  {
    Datagram(a, b, Message(CRD, net.nodes[a].id)) in net.flight
  }

  ghost predicate Leads(net: Network, s: Addr) {
    s in net.nodes && net.nodes[s].isCoordinator
  }

  ghost predicate Rivals(net: Network) {
    forall a, b :: Leads(net, a) && Leads(net, b) && a != b ==> Announcing(net, a, b) || Announcing(net, b, a)
  }

  /** What is under way to others stays under way. */
  lemma StillUnderWay(net: Network, e: Event, now: int, d: Datagram)
    requires Enabled(net, e, now) && !e.Drop? && d in net.flight
    requires e.Deliver? ==> d != e.datagram
    ensures d in Step(net, e, now).flight
  {
  }

  lemma NewlyUnderWay(net: Network, e: Event, now: int, d: Datagram)
    requires Enabled(net, e, now) && !e.Drop? && d.source == Concerns(e) && d.dest in net.nodes
    requires Announced(d.message) in NodeStep(net.nodes[Concerns(e)], Happens(e, now)).sent
    ensures d in Step(net, e, now).flight
  {
    RoutedIs(Concerns(e), NodeStep(net.nodes[Concerns(e)], Happens(e, now)).sent, net.nodes.Keys, d);
  }

  /** A server leads after an event because it has just said so, or because it led and did not hear of another. */
  lemma WhyLeads(n: Node, e: NodeEvent)
    requires NodeStep(n, e).node.isCoordinator
    ensures Announced(Message(CRD, n.id)) in NodeStep(n, e).sent
            || (n.isCoordinator && (e.Turn? ==> !Foreign(e.reading, CRD, n.id)))
  {
  }

  lemma RivalsOfActor(net: Network, e: Event, now: int, b: Addr)
    requires Sane(net) && Rivals(net) && Enabled(net, e, now) && !e.Drop?
    requires var net' := Step(net, e, now); Leads(net', Concerns(e)) && Leads(net', b) && b != Concerns(e)
    ensures var net' := Step(net, e, now); Announcing(net', Concerns(e), b) || Announcing(net', b, Concerns(e))
  {
    var a := Concerns(e);
    StepKeepsSane(net, e, now);
    WhyLeads(net.nodes[a], Happens(e, now));
    if Announced(Message(CRD, net.nodes[a].id)) in NodeStep(net.nodes[a], Happens(e, now)).sent {
      NewlyUnderWay(net, e, now, Datagram(a, b, Message(CRD, net.nodes[a].id)));
    } else if Announcing(net, a, b) {
      StillUnderWay(net, e, now, Datagram(a, b, Message(CRD, net.nodes[a].id)));
    } else {
      assert Announcing(net, b, a);
      StillUnderWay(net, e, now, Datagram(b, a, Message(CRD, net.nodes[b].id)));
    }
  }

  lemma StepKeepsRivals(net: Network, e: Event, now: int)
    requires Sane(net) && Rivals(net) && Enabled(net, e, now) && !e.Drop?
    ensures Rivals(Step(net, e, now))
  {
    StepKeepsSane(net, e, now);
    var net' := Step(net, e, now);
    var s := Concerns(e);
    forall a, b | Leads(net', a) && Leads(net', b) && a != b ensures Announcing(net', a, b) || Announcing(net', b, a) {
      if a == s {
        RivalsOfActor(net, e, now, b);
      } else if b == s {
        RivalsOfActor(net, e, now, a);
      } else if Announcing(net, a, b) {
        StillUnderWay(net, e, now, Datagram(a, b, Message(CRD, net.nodes[a].id)));
      } else {
        assert Leads(net, a) && Leads(net, b);
        StillUnderWay(net, e, now, Datagram(b, a, Message(CRD, net.nodes[b].id)));
      }
    }
  }

  datatype Timed = Timed(event: Event, now: int)

  ghost predicate Run(states: seq<Network>, events: seq<Timed>) {
    && |states| == |events| + 1 && Initial(states[0])
    && forall i :: 0 <= i < |events| ==>
         Enabled(states[i], events[i].event, events[i].now) &&
         states[i + 1] == Step(states[i], events[i].event, events[i].now)
  }

  ghost predicate Lossless(events: seq<Timed>) {
    forall e :: e in events ==> !e.event.Drop?
  }

  lemma {:induction false} RunSane(states: seq<Network>, events: seq<Timed>)
    requires Run(states, events)
    ensures Sane(states[|events|]) && SameServers(states[0], states[|events|])
    ensures Lossless(events) ==> Rivals(states[|events|])
    decreases |events|
  {
    var n := |events|;
    if n > 0 {
      RunSane(states[..n], events[..n - 1]);
      var net, e := states[n - 1], events[n - 1];
      StepKeepsSane(net, e.event, e.now);
      if Lossless(events) {
        assert e in events;
        StepKeepsRivals(net, e.event, e.now);
      }
    }
  }

  /** When no datagram is lost, two coordinators never go unnoticed: the announcement of one is on its way to the
      other.  So when no announcement is under way there is at most one. */
  lemma TwoCoordinators(states: seq<Network>, events: seq<Timed>, a: Addr, b: Addr)
    requires Run(states, events) && Lossless(events)
    requires Leads(states[|events|], a) && Leads(states[|events|], b) && a != b
    ensures Announcing(states[|events|], a, b) || Announcing(states[|events|], b, a)
    ensures exists d :: d in states[|events|].flight && d.message.kind == CRD
  {
    RunSane(states, events);
    var net := states[|events|];
    if Announcing(net, a, b) {
      assert Datagram(a, b, Message(CRD, net.nodes[a].id)) in net.flight;
    } else {
      assert Datagram(b, a, Message(CRD, net.nodes[b].id)) in net.flight;
    }
  }

  lemma {:induction false} TopNeverWaitsInRun(states: seq<Network>, events: seq<Timed>, m: Addr)
    requires Run(states, events) && Top(states[0], m)
    ensures Top(states[|events|], m) && states[|events|].nodes[m].state != WAITING_FOR_COORD
    decreases |events|
  {
    var n := |events|;
    if n > 0 {
      TopNeverWaitsInRun(states[..n], events[..n - 1], m);
      RunSane(states[..n], events[..n - 1]);
      TopNeverWaits(states[n - 1], events[n - 1].event, events[n - 1].now, m);
    }
  }
}
