/** An undisturbed election: everybody is up before the first call is read, and nobody gives up waiting while a call
    is still under way.  Then the highest server wins, whatever the order of deliveries. */
module CleanElection {
  import opened MachineInts
  import opened Election
  import opened ElectionHistory
  import opened ElectionNetwork

  ghost predicate AllUp(net: Network) {
    forall s :: s in net.nodes ==> net.nodes[s].state != INIT
  }

  ghost predicate NoneUnderWay(net: Network, kind: Kind) {
    forall d :: d in net.flight ==> d.message.kind != kind
  }

  /** The assumptions: nothing is lost, no heartbeat fails, nothing is read before all are up, and a server is
      silent for long only when no call is under way. */
  ghost predicate Undisturbed(net: Network, e: Event, now: int) {
    match e
    case Deliver(_, _) => AllUp(net)
    case Silent(s) =>
      s in net.nodes && net.nodes[s].state == IN_PROGRESS && now - net.nodes[s].startTime >= ANSWER_MAX_WAIT_TIME ==>
        NoneUnderWay(net, ELE)
    case Suspect(_) => false
    case Drop(_) => false
  }

  ghost predicate Calling(net: Network, a: Addr, b: Addr)
    requires a in net.nodes
  {
    Datagram(a, b, Message(ELE, net.nodes[a].id)) in net.flight
  }

  /** Before anybody has won: whoever is below the top and has not resigned still has the top's call coming. */
  ghost predicate Undecided(net: Network, m: Addr) {
    && m in net.nodes && NoneUnderWay(net, CRD)
    && (net.nodes[m].state == INIT || net.nodes[m].state == IN_PROGRESS)
    && forall s :: s in net.nodes ==> UndecidedAt(net, m, s)
  }

  ghost predicate UndecidedAt(net: Network, m: Addr, s: Addr)
    requires m in net.nodes && s in net.nodes
  {
    && !net.nodes[s].isCoordinator && net.nodes[s].state != NOT_IN_PROGRESS
    && (s != m && net.nodes[m].state != INIT && net.nodes[s].state != WAITING_FOR_COORD ==> Calling(net, m, s))
    && (net.nodes[s].state != INIT && !AllUp(net) ==> Calling(net, s, s))
  }

  /** After the top has won: everybody else follows it, or has its announcement coming. */
  ghost predicate Decided(net: Network, m: Addr) {
    && m in net.nodes && NoneUnderWay(net, ELE) && AllUp(net)
    && net.nodes[m].isCoordinator && net.nodes[m].state == NOT_IN_PROGRESS
    && (forall d :: d in net.flight && d.message.kind == CRD ==> d.source == m)
    && forall s :: s in net.nodes && s != m ==> DecidedAt(net, m, s)
  }

  ghost predicate DecidedAt(net: Network, m: Addr, s: Addr)
    requires m in net.nodes && s in net.nodes
  {
    && !net.nodes[s].isCoordinator
    && ((net.nodes[s].state == WAITING_FOR_COORD && Announcing(net, m, s)) ||
        (net.nodes[s].state == NOT_IN_PROGRESS && net.nodes[s].coordinatorIp == m))
  }

  // ---------------------------------------------------------------------------
  // Before
  // ---------------------------------------------------------------------------

  /** Whether the event is the moment at which a server makes itself coordinator. */
  ghost predicate Wins(net: Network, e: Event, now: int) {
    e.Silent? && e.server in net.nodes && net.nodes[e.server].state == IN_PROGRESS
    && now - net.nodes[e.server].startTime >= ANSWER_MAX_WAIT_TIME
  }

  /** What an undisturbed event does to the server it concerns, short of winning. */
  lemma UndecidedNode(net: Network, e: Event, now: int, m: Addr)
    requires Sane(net) && Undecided(net, m) && Enabled(net, e, now) && Undisturbed(net, e, now) && !Wins(net, e, now)
    ensures var n, r := net.nodes[Concerns(e)], NodeStep(net.nodes[Concerns(e)], Happens(e, now));
            && !r.node.isCoordinator
            && (forall o :: o in r.sent ==> !o.Snapshot? && o.message.kind != CRD)
            && (n.state == INIT ==> r.node.state == IN_PROGRESS && Announced(Message(ELE, n.id)) in r.sent)
            && (n.state == IN_PROGRESS ==> r.node.state == IN_PROGRESS || r.node.state == WAITING_FOR_COORD)
            && (n.state == IN_PROGRESS && !e.Deliver? ==> r.node.state == IN_PROGRESS)
            && (n.state == WAITING_FOR_COORD ==> r.node.state == WAITING_FOR_COORD)
            && (e.Deliver? ==> n.state != INIT)
  {
    assert UndecidedAt(net, m, Concerns(e));
    if e.Deliver? {
      assert e.datagram in net.flight;
    }
  }

  lemma NoAnnouncement(net: Network, e: Event, now: int, m: Addr)
    requires Sane(net) && Undecided(net, m) && Enabled(net, e, now) && Undisturbed(net, e, now) && !Wins(net, e, now)
    ensures NoneUnderWay(Step(net, e, now), CRD)
  {
    UndecidedNode(net, e, now, m);
    var sent := NodeStep(net.nodes[Concerns(e)], Happens(e, now)).sent;
    forall d | d in Step(net, e, now).flight ensures d.message.kind != CRD {
      RoutedIs(Concerns(e), sent, net.nodes.Keys, d);
    }
  }

  /** The top's call turns whoever reads it into one who waits. */
  lemma CallHeard(net: Network, e: Event, now: int, m: Addr)
    requires Sane(net) && Undecided(net, m) && Top(net, m) && Enabled(net, e, now) && Undisturbed(net, e, now)
    requires e.Deliver? && e.datagram.dest != m
    requires e.datagram == Datagram(m, e.datagram.dest, Message(ELE, net.nodes[m].id))
    ensures Step(net, e, now).nodes[e.datagram.dest].state == WAITING_FOR_COORD
  {
    assert UndecidedAt(net, m, e.datagram.dest);
  }

  lemma CallsRemain(net: Network, e: Event, now: int, m: Addr, s: Addr)
    requires Sane(net) && Undecided(net, m) && Top(net, m) && Enabled(net, e, now) && Undisturbed(net, e, now)
    requires !Wins(net, e, now) && s in net.nodes && s != m
    requires var net' := Step(net, e, now);
             m in net'.nodes && s in net'.nodes && net'.nodes[m].state != INIT &&
             net'.nodes[s].state != WAITING_FOR_COORD
    ensures Calling(Step(net, e, now), m, s)
  {
    StepServers(net, e, now);
    UndecidedNode(net, e, now, m);
    assert UndecidedAt(net, m, s);
    var call := Datagram(m, s, Message(ELE, net.nodes[m].id));
    if net.nodes[m].state == INIT {
      NewlyUnderWay(net, e, now, call);
    } else {
      if e.Deliver? && e.datagram == call {
        CallHeard(net, e, now, m);
      }
      StillUnderWay(net, e, now, call);
    }
  }

  lemma OwnCallsRemain(net: Network, e: Event, now: int, m: Addr, s: Addr)
    requires Sane(net) && Undecided(net, m) && Enabled(net, e, now) && Undisturbed(net, e, now) && !Wins(net, e, now)
    requires s in net.nodes
    requires var net' := Step(net, e, now); s in net'.nodes && net'.nodes[s].state != INIT && !AllUp(net')
    ensures Calling(Step(net, e, now), s, s)
  {
    StepServers(net, e, now);
    UndecidedNode(net, e, now, m);
    assert UndecidedAt(net, m, s);
    NotYetUp(net, e, now);
    var call := Datagram(s, s, Message(ELE, net.nodes[s].id));
    if net.nodes[s].state == INIT {
      NewlyUnderWay(net, e, now, call);
    } else {
      StillUnderWay(net, e, now, call);
    }
  }

  lemma NotYetUp(net: Network, e: Event, now: int)
    requires Enabled(net, e, now) && !AllUp(Step(net, e, now))
    ensures !AllUp(net)
  {
    StepServers(net, e, now);
    var net' := Step(net, e, now);
    var s :| s in net'.nodes && net'.nodes[s].state == INIT;
    assert net.nodes[s].state == INIT;
  }

  lemma UndecidedKept(net: Network, e: Event, now: int, m: Addr)
    requires Sane(net) && Undecided(net, m) && Top(net, m) && Enabled(net, e, now) && Undisturbed(net, e, now)
    requires !Wins(net, e, now)
    ensures Undecided(Step(net, e, now), m)
  {
    var net' := Step(net, e, now);
    StepServers(net, e, now);
    UndecidedNode(net, e, now, m);
    NoAnnouncement(net, e, now, m);
    TopNeverWaits(net, e, now, m);
    forall s | s in net'.nodes ensures UndecidedAt(net', m, s) {
      assert UndecidedAt(net, m, s);
      if s != m && net'.nodes[m].state != INIT && net'.nodes[s].state != WAITING_FOR_COORD {
        CallsRemain(net, e, now, m, s);
      }
      if net'.nodes[s].state != INIT && !AllUp(net') {
        OwnCallsRemain(net, e, now, m, s);
      }
    }
  }

  // ---------------------------------------------------------------------------
  // The moment of decision
  // ---------------------------------------------------------------------------

  lemma NoCalls(net: Network, a: Addr, b: Addr)
    requires NoneUnderWay(net, ELE) && a in net.nodes
    ensures !Calling(net, a, b)
  {
  }

  /** Only the top ever wins; then all others wait for its word. */
  lemma OnlyTheTopWins(net: Network, e: Event, now: int, m: Addr)
    requires Undecided(net, m) && Undisturbed(net, e, now) && Wins(net, e, now)
    ensures e.server == m && AllUp(net) && NoneUnderWay(net, ELE)
    ensures forall s :: s in net.nodes && s != m ==> net.nodes[s].state == WAITING_FOR_COORD
  {
    var w := e.server;
    assert UndecidedAt(net, m, w);
    NoCalls(net, w, w);
    NoCalls(net, m, w);
    forall s | s in net.nodes && s != m ensures net.nodes[s].state == WAITING_FOR_COORD {
      assert UndecidedAt(net, m, s);
      NoCalls(net, m, s);
    }
  }

  lemma WinnersWord(net: Network, e: Event, now: int, m: Addr)
    requires Undecided(net, m) && NoneUnderWay(net, ELE)
    requires Enabled(net, e, now) && e == Silent(m) && Wins(net, e, now)
    ensures NodeStep(net.nodes[m], Happens(e, now)).sent == [Announced(Message(CRD, net.nodes[m].id))]
    ensures var net' := Step(net, e, now);
            forall d :: d in net'.flight ==> d.message.kind != ELE && (d.message.kind == CRD ==> d.source == m)
    ensures Step(net, e, now).nodes[m].isCoordinator && Step(net, e, now).nodes[m].state == NOT_IN_PROGRESS
  {
    var sent := NodeStep(net.nodes[m], Happens(e, now)).sent;
    assert sent == [Announced(Message(CRD, net.nodes[m].id))];
    forall d | d in Step(net, e, now).flight
      ensures d.message.kind != ELE && (d.message.kind == CRD ==> d.source == m)
    {
      RoutedIs(m, sent, net.nodes.Keys, d);
    }
  }

  lemma LoserDecided(net: Network, e: Event, now: int, m: Addr, s: Addr)
    requires Undecided(net, m) && s in net.nodes && s != m && net.nodes[s].state == WAITING_FOR_COORD
    requires Enabled(net, e, now) && e == Silent(m)
    requires NodeStep(net.nodes[m], Happens(e, now)).sent == [Announced(Message(CRD, net.nodes[m].id))]
    ensures m in Step(net, e, now).nodes && s in Step(net, e, now).nodes
    ensures DecidedAt(Step(net, e, now), m, s)
  {
    StepServers(net, e, now);
    assert UndecidedAt(net, m, s);
    NewlyUnderWay(net, e, now, Datagram(m, s, Message(CRD, net.nodes[m].id)));
  }

  lemma WinningDecides(net: Network, e: Event, now: int, m: Addr)
    requires Undecided(net, m) && Enabled(net, e, now) && Undisturbed(net, e, now) && Wins(net, e, now)
    ensures Decided(Step(net, e, now), m)
  {
    OnlyTheTopWins(net, e, now, m);
    StepServers(net, e, now);
    WinnersWord(net, e, now, m);
    var net' := Step(net, e, now);
    forall s | s in net'.nodes && s != m ensures DecidedAt(net', m, s) {
      LoserDecided(net, e, now, m, s);
    }
  }

  // ---------------------------------------------------------------------------
  // After
  // ---------------------------------------------------------------------------

  /** Once decided, nobody has anything more to say. */
  lemma DecidedNode(net: Network, e: Event, now: int, m: Addr)
    requires Sane(net) && Decided(net, m) && Enabled(net, e, now) && Undisturbed(net, e, now)
    ensures var n, r := net.nodes[Concerns(e)], NodeStep(net.nodes[Concerns(e)], Happens(e, now));
            && r.sent == []
            && (Concerns(e) == m ==> r.node.state == NOT_IN_PROGRESS && r.node.isCoordinator)
            && (Concerns(e) != m ==>
                 if e.Deliver? && e.datagram.message == Message(CRD, net.nodes[m].id)
                 then r.node.state == NOT_IN_PROGRESS && r.node.coordinatorIp == m && !r.node.isCoordinator
                 else r.node.state == n.state && r.node.coordinatorIp == n.coordinatorIp && !r.node.isCoordinator)
  {
    var s := Concerns(e);
    assert s != m ==> DecidedAt(net, m, s);
    if e.Deliver? {
      assert e.datagram in net.flight && Genuine(net, e.datagram);
    }
  }

  lemma DecidedAtKept(net: Network, e: Event, now: int, m: Addr, s: Addr)
    requires Sane(net) && Decided(net, m) && Enabled(net, e, now) && Undisturbed(net, e, now)
    requires s in net.nodes && s != m
    ensures m in Step(net, e, now).nodes && s in Step(net, e, now).nodes
    ensures DecidedAt(Step(net, e, now), m, s)
  {
    StepServers(net, e, now);
    assert DecidedAt(net, m, s);
    if Concerns(e) == s {
      DecidedNode(net, e, now, m);
    }
    if Announcing(net, m, s) && Step(net, e, now).nodes[s].state == WAITING_FOR_COORD {
      WordRemains(net, e, now, m, s);
    }
  }

  lemma WordRemains(net: Network, e: Event, now: int, m: Addr, s: Addr)
    requires Sane(net) && Decided(net, m) && Enabled(net, e, now) && Undisturbed(net, e, now)
    requires s in net.nodes && s != m && Announcing(net, m, s)
    requires Step(net, e, now).nodes[s].state == WAITING_FOR_COORD
    ensures Datagram(m, s, Message(CRD, net.nodes[m].id)) in Step(net, e, now).flight
  {
    DecidedNode(net, e, now, m);
    StillUnderWay(net, e, now, Datagram(m, s, Message(CRD, net.nodes[m].id)));
  }

  lemma DecidedFlight(net: Network, e: Event, now: int, m: Addr)
    requires Sane(net) && Decided(net, m) && Enabled(net, e, now) && Undisturbed(net, e, now)
    ensures Step(net, e, now).flight <= net.flight
  {
    DecidedNode(net, e, now, m);
  }

  lemma DecidedKept(net: Network, e: Event, now: int, m: Addr)
    requires Sane(net) && Decided(net, m) && Enabled(net, e, now) && Undisturbed(net, e, now)
    ensures Decided(Step(net, e, now), m)
  {
    var net' := Step(net, e, now);
    StepServers(net, e, now);
    DecidedNode(net, e, now, m);
    DecidedFlight(net, e, now, m);
    forall s | s in net'.nodes && s != m ensures DecidedAt(net', m, s) {
      DecidedAtKept(net, e, now, m, s);
    }
  }

  // ---------------------------------------------------------------------------
  // Whole elections
  // ---------------------------------------------------------------------------

  ghost predicate UndisturbedRun(states: seq<Network>, events: seq<Timed>) {
    && Run(states, events)
    && forall i :: 0 <= i < |events| ==> Undisturbed(states[i], events[i].event, events[i].now)
  }

  lemma {:induction false} ElectionCourse(states: seq<Network>, events: seq<Timed>, m: Addr)
    requires UndisturbedRun(states, events) && Top(states[0], m)
    ensures var net := states[|events|];
            Sane(net) && Top(net, m) && (Undecided(net, m) || Decided(net, m))
    decreases |events|
  {
    var n := |events|;
    if n > 0 {
      ElectionCourse(states[..n], events[..n - 1], m);
      var net, e := states[n - 1], events[n - 1];
      StepKeepsSane(net, e.event, e.now);
      if Decided(net, m) {
        DecidedKept(net, e.event, e.now, m);
      } else if Wins(net, e.event, e.now) {
        WinningDecides(net, e.event, e.now, m);
      } else {
        UndecidedKept(net, e.event, e.now, m);
      }
    }
  }

  /** At any moment of an undisturbed election only the highest server may be coordinator, and once it is, every other
      server either has its announcement still to read or has settled on it. */
  lemma HighestWins(states: seq<Network>, events: seq<Timed>, m: Addr, s: Addr)
    requires UndisturbedRun(states, events) && Top(states[0], m) && s in states[|events|].nodes && s != m
    ensures var net := states[|events|];
            && !net.nodes[s].isCoordinator && m in net.nodes
            && (net.nodes[m].isCoordinator ==>
                 Announcing(net, m, s) ||
                 (net.nodes[s].state == NOT_IN_PROGRESS && net.nodes[s].coordinatorIp == m))
            && (!net.nodes[m].isCoordinator ==> net.nodes[s].state != NOT_IN_PROGRESS)
  {
    ElectionCourse(states, events, m);
    var net := states[|events|];
    assert Undecided(net, m) ==> UndecidedAt(net, m, s) && UndecidedAt(net, m, m);
    assert Decided(net, m) ==> DecidedAt(net, m, s);
  }

  /** And the election comes to its end: when all are up and every datagram has been read, the next long silence of the
      highest server makes it coordinator, if it is not one already. */
  lemma ElectionEnds(states: seq<Network>, events: seq<Timed>, m: Addr, now: int)
    requires UndisturbedRun(states, events) && Top(states[0], m)
    requires var net := states[|events|];
             && m in net.nodes && AllUp(net) && net.flight == multiset{}
             && now >= net.clock && now - net.nodes[m].startTime >= ANSWER_MAX_WAIT_TIME
    ensures var net := states[|events|];
            && Enabled(net, Silent(m), now) && Undisturbed(net, Silent(m), now)
            && Decided(Step(net, Silent(m), now), m)
  {
    ElectionCourse(states, events, m);
    var net := states[|events|];
    if Decided(net, m) {
      DecidedKept(net, Silent(m), now, m);
    } else {
      WinningDecides(net, Silent(m), now, m);
    }
  }
}
