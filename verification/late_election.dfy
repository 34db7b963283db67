/** What an election that begins late does when nothing is lost: whoever begins it and is silent once takes the lead,
    and so a lower server can take it from a higher one that is alive. */
module LateElection {
  import opened MachineInts
  import opened Wrappers
  import opened Election
  import opened ElectionHistory
  import opened ElectionNetwork

  /** A lower server and a higher one, and when each was started. */
  datatype Duo = Duo(low: Addr, high: Addr, lowId: U32, highId: U32, lowStart: int, highStart: int)

  predicate Proper(d: Duo) {
    d.low != d.high && d.lowId < d.highId
  }

  function BothStarted(d: Duo): int {
    if d.lowStart < d.highStart then d.highStart else d.lowStart
  }

  function Up(d: Duo): Network {
    var nodes := map[d.low := StartNode(d.lowId, d.lowStart), d.high := StartNode(d.highId, d.highStart)];
    Network(nodes, multiset{}, BothStarted(d))
  }

  ghost predicate Shows(net: Network, d: Duo, low: ElectionState, high: ElectionState, leads: set<Addr>,
                        flight: multiset<Datagram>)
  {
    && Proper(d) && net.nodes.Keys == {d.low, d.high} && net.flight == flight
    && net.nodes[d.low].id == d.lowId && net.nodes[d.high].id == d.highId
    && net.nodes[d.low].startTime == d.lowStart && net.nodes[d.high].startTime == d.highStart
    && net.nodes[d.low].state == low && net.nodes[d.high].state == high
    && (net.nodes[d.low].isCoordinator <==> d.low in leads)
    && (net.nodes[d.high].isCoordinator <==> d.high in leads)
  }

  ghost predicate Reached(d: Duo, net: Network) {
    exists states, events :: Run(states, events) && Lossless(events) && states[0] == Up(d) && states[|events|] == net
  }

  lemma Begins(d: Duo)
    requires Proper(d)
    ensures Reached(d, Up(d)) && Shows(Up(d), d, INIT, INIT, {}, multiset{})
  {
    assert Initial(Up(d));
    assert Run([Up(d)], []);
  }

  lemma GoesOn(d: Duo, net: Network, e: Event, now: int)
    requires Reached(d, net) && Enabled(net, e, now) && !e.Drop?
    ensures Reached(d, Step(net, e, now))
  {
    var states, events :|
      Run(states, events) && Lossless(events) && states[0] == Up(d) && states[|events|] == net;
    var states', events' := states + [Step(net, e, now)], events + [Timed(e, now)];
    assert states'[0] == states[0];
    forall i | 0 <= i < |events'|
      ensures Enabled(states'[i], events'[i].event, events'[i].now)
      ensures states'[i + 1] == Step(states'[i], events'[i].event, events'[i].now)
    {
      if i < |events| {
        assert states[i + 1] == Step(states[i], events[i].event, events[i].now);
      }
    }
    assert Run(states', events');
  }

  /** What one server broadcasts. */
  function Both(d: Duo, source: Addr, kind: Kind, id: U32): multiset<Datagram> {
    multiset{Datagram(source, d.low, Message(kind, id)), Datagram(source, d.high, Message(kind, id))}
  }

  lemma RoutedBoth(d: Duo, source: Addr, kind: Kind, id: U32)
    requires Proper(d)
    ensures Routed(source, [Announced(Message(kind, id))], {d.low, d.high}) == Both(d, source, kind, id)
  {
    RoutedIsTo(d, source, Message(kind, id));
    assert [Announced(Message(kind, id))][..0] == [];
  }

  lemma RoutedIsTo(d: Duo, source: Addr, m: Message)
    requires Proper(d)
    ensures ToAll(source, m, {d.low, d.high}) == multiset{Datagram(source, d.low, m), Datagram(source, d.high, m)}
  {
    var sent := set s | s in {d.low, d.high} :: Datagram(source, s, m);
    assert sent == {Datagram(source, d.low, m), Datagram(source, d.high, m)};
  }

  // ---------------------------------------------------------------------------
  // The first election, which the higher server wins
  // ---------------------------------------------------------------------------

  lemma LowUp(d: Duo, net: Network, now: int)
    requires Shows(net, d, INIT, INIT, {}, multiset{}) && now >= net.clock
    ensures Enabled(net, Silent(d.low), now)
    ensures Shows(Step(net, Silent(d.low), now), d, IN_PROGRESS, INIT, {}, Both(d, d.low, ELE, d.lowId))
  {
    RoutedBoth(d, d.low, ELE, d.lowId);
  }

  lemma HighUp(d: Duo, net: Network, flight: multiset<Datagram>, now: int)
    requires Shows(net, d, IN_PROGRESS, INIT, {}, flight) && now >= net.clock
    ensures Enabled(net, Silent(d.high), now)
    ensures Shows(Step(net, Silent(d.high), now), d, IN_PROGRESS, IN_PROGRESS, {},
                  flight + Both(d, d.high, ELE, d.highId))
  {
    RoutedBoth(d, d.high, ELE, d.highId);
  }

  /** A server's own broadcast comes back to it and is not looked at. */
  lemma OwnRead(d: Duo, net: Network, low: ElectionState, high: ElectionState, leads: set<Addr>,
                flight: multiset<Datagram>, p: Datagram, now: int)
    requires Shows(net, d, low, high, leads, flight) && p in flight && now >= net.clock
    requires (p.dest == d.low && p.message.id == d.lowId) || (p.dest == d.high && p.message.id == d.highId)
    requires low != INIT && high != INIT
    ensures Enabled(net, Deliver(p, false), now)
    ensures Shows(Step(net, Deliver(p, false), now), d, low, high, leads, flight - multiset{p})
    ensures Step(net, Deliver(p, false), now).nodes[d.high].coordinatorIp == net.nodes[d.high].coordinatorIp
  {
  }

  lemma LowHearsCall(d: Duo, net: Network, high: ElectionState, leads: set<Addr>, flight: multiset<Datagram>, now: int)
    requires Shows(net, d, IN_PROGRESS, high, leads, flight) && now >= net.clock
    requires Datagram(d.high, d.low, Message(ELE, d.highId)) in flight
    ensures var e := Deliver(Datagram(d.high, d.low, Message(ELE, d.highId)), false);
            && Enabled(net, e, now)
            && Shows(Step(net, e, now), d, WAITING_FOR_COORD, high, leads, flight - multiset{e.datagram})
  {
  }

  lemma HighAnswers(d: Duo, net: Network, low: ElectionState, leads: set<Addr>, flight: multiset<Datagram>, now: int)
    requires Shows(net, d, low, IN_PROGRESS, leads, flight) && now >= net.clock
    requires Datagram(d.low, d.high, Message(ELE, d.lowId)) in flight
    ensures var e := Deliver(Datagram(d.low, d.high, Message(ELE, d.lowId)), false);
            && Enabled(net, e, now)
            && Shows(Step(net, e, now), d, low, IN_PROGRESS, leads,
                     flight - multiset{e.datagram} + multiset{Datagram(d.high, d.low, Message(ANS, d.highId))})
  {
    var m := Message(ANS, d.highId);
    assert [Answered(d.low, m)][..0] == [];
    assert Routed(d.high, [Answered(d.low, m)], {d.low, d.high}) == multiset{Datagram(d.high, d.low, m)};
  }

  /** An answer changes nothing for whoever waits, or has nothing to wait for. */
  lemma LowHearsAnswer(d: Duo, net: Network, low: ElectionState, high: ElectionState, leads: set<Addr>,
                       flight: multiset<Datagram>, now: int)
    requires Shows(net, d, low, high, leads, flight) && now >= net.clock && low != INIT
    requires Datagram(d.high, d.low, Message(ANS, d.highId)) in flight
    ensures var e := Deliver(Datagram(d.high, d.low, Message(ANS, d.highId)), false);
            && Enabled(net, e, now)
            && Shows(Step(net, e, now), d, low, high, leads, flight - multiset{e.datagram})
            && Step(net, e, now).nodes[d.high] == net.nodes[d.high]
  {
  }

  lemma HighWins(d: Duo, net: Network, now: int)
    requires Shows(net, d, WAITING_FOR_COORD, IN_PROGRESS, {}, multiset{})
    requires now >= net.clock && now - d.highStart >= ANSWER_MAX_WAIT_TIME
    ensures Enabled(net, Silent(d.high), now)
    ensures Shows(Step(net, Silent(d.high), now), d, WAITING_FOR_COORD, NOT_IN_PROGRESS, {d.high},
                  Both(d, d.high, CRD, d.highId))
  {
    RoutedBoth(d, d.high, CRD, d.highId);
  }

  lemma LowFollows(d: Duo, net: Network, flight: multiset<Datagram>, now: int)
    requires Shows(net, d, WAITING_FOR_COORD, NOT_IN_PROGRESS, {d.high}, flight) && now >= net.clock
    requires Datagram(d.high, d.low, Message(CRD, d.highId)) in flight
    ensures var e := Deliver(Datagram(d.high, d.low, Message(CRD, d.highId)), false);
            && Enabled(net, e, now)
            && Shows(Step(net, e, now), d, NOT_IN_PROGRESS, NOT_IN_PROGRESS, {d.high}, flight - multiset{e.datagram})
            && Step(net, e, now).nodes[d.low].coordinatorIp == d.high
  {
  }

  // The same events as steps of a run; `rest` is what stays under way.

  ghost predicate Now(d: Duo, net: Network, low: ElectionState, high: ElectionState, leads: set<Addr>,
                      flight: multiset<Datagram>, now: int)
  {
    Reached(d, net) && Shows(net, d, low, high, leads, flight) && now >= net.clock
  }

  lemma GoOwnRead(d: Duo, net: Network, low: ElectionState, high: ElectionState, leads: set<Addr>,
                  rest: multiset<Datagram>, p: Datagram, now: int) returns (next: Network)
    requires Now(d, net, low, high, leads, rest + multiset{p}, now) && low != INIT && high != INIT
    requires (p.dest == d.low && p.message.id == d.lowId) || (p.dest == d.high && p.message.id == d.highId)
    ensures Now(d, next, low, high, leads, rest, now)
    ensures d.high in net.nodes && d.high in next.nodes
    ensures next.nodes[d.high].coordinatorIp == net.nodes[d.high].coordinatorIp
  {
    OwnRead(d, net, low, high, leads, rest + multiset{p}, p, now);
    GoesOn(d, net, Deliver(p, false), now);
    next := Step(net, Deliver(p, false), now);
    assert rest + multiset{p} - multiset{p} == rest;
  }

  lemma GoLowHearsAnswer(d: Duo, net: Network, low: ElectionState, high: ElectionState, leads: set<Addr>,
                         rest: multiset<Datagram>, now: int) returns (next: Network)
    requires low != INIT
    requires Now(d, net, low, high, leads, rest + multiset{Datagram(d.high, d.low, Message(ANS, d.highId))}, now)
    ensures Now(d, next, low, high, leads, rest, now)
    ensures d.high in net.nodes && d.high in next.nodes && next.nodes[d.high] == net.nodes[d.high]
  {
    var p := Datagram(d.high, d.low, Message(ANS, d.highId));
    LowHearsAnswer(d, net, low, high, leads, rest + multiset{p}, now);
    GoesOn(d, net, Deliver(p, false), now);
    next := Step(net, Deliver(p, false), now);
    assert rest + multiset{p} - multiset{p} == rest;
  }

  /** Each hears the other's call: the lower one resigns, the higher one answers. */
  lemma CallsHeard(d: Duo, net: Network, now: int) returns (next: Network)
    requires Now(d, net, IN_PROGRESS, IN_PROGRESS, {},
                 multiset{Datagram(d.low, d.high, Message(ELE, d.lowId)),
                          Datagram(d.high, d.low, Message(ELE, d.highId))}, now)
    ensures Now(d, next, WAITING_FOR_COORD, IN_PROGRESS, {},
                multiset{} + multiset{Datagram(d.high, d.low, Message(ANS, d.highId))}, now)
  {
    var lowCall := Datagram(d.low, d.high, Message(ELE, d.lowId));
    var highCall := Datagram(d.high, d.low, Message(ELE, d.highId));
    LowHearsCall(d, net, IN_PROGRESS, {}, multiset{lowCall, highCall}, now);
    GoesOn(d, net, Deliver(highCall, false), now);
    next := Step(net, Deliver(highCall, false), now);
    assert multiset{lowCall, highCall} - multiset{highCall} == multiset{lowCall};
    next := CallAnswered(d, next, now);
  }

  lemma CallAnswered(d: Duo, net: Network, now: int) returns (next: Network)
    requires Now(d, net, WAITING_FOR_COORD, IN_PROGRESS, {},
                 multiset{Datagram(d.low, d.high, Message(ELE, d.lowId))}, now)
    ensures Now(d, next, WAITING_FOR_COORD, IN_PROGRESS, {},
                multiset{} + multiset{Datagram(d.high, d.low, Message(ANS, d.highId))}, now)
  {
    var lowCall := Datagram(d.low, d.high, Message(ELE, d.lowId));
    HighAnswers(d, net, WAITING_FOR_COORD, {}, multiset{lowCall}, now);
    GoesOn(d, net, Deliver(lowCall, false), now);
    next := Step(net, Deliver(lowCall, false), now);
    assert multiset{lowCall} - multiset{lowCall} == multiset{};
  }

  lemma CallsRead(d: Duo, net: Network, now: int) returns (last: Network)
    requires Now(d, net, IN_PROGRESS, IN_PROGRESS, {},
                 Both(d, d.low, ELE, d.lowId) + Both(d, d.high, ELE, d.highId), now)
    ensures Now(d, last, WAITING_FOR_COORD, IN_PROGRESS, {}, multiset{}, now)
  {
    var low, high := Message(ELE, d.lowId), Message(ELE, d.highId);
    var lowOwn, highOwn := Datagram(d.low, d.low, low), Datagram(d.high, d.high, high);
    var lowCall, highCall := Datagram(d.low, d.high, low), Datagram(d.high, d.low, high);
    assert Both(d, d.low, ELE, d.lowId) + Both(d, d.high, ELE, d.highId)
        == multiset{lowCall, highCall} + multiset{highOwn} + multiset{lowOwn};
    last := GoOwnRead(d, net, IN_PROGRESS, IN_PROGRESS, {},
                      multiset{lowCall, highCall} + multiset{highOwn}, lowOwn, now);
    last := GoOwnRead(d, last, IN_PROGRESS, IN_PROGRESS, {}, multiset{lowCall, highCall}, highOwn, now);
    last := CallsHeard(d, last, now);
    last := GoLowHearsAnswer(d, last, WAITING_FOR_COORD, IN_PROGRESS, {}, multiset{}, now);
  }

  /** The first election runs its course: the higher server leads, the lower one follows, nothing is under way. */
  lemma FirstElection(d: Duo, now: int) returns (net: Network)
    requires Proper(d) && now >= BothStarted(d) && now - d.highStart >= ANSWER_MAX_WAIT_TIME
    ensures Reached(d, net) && Shows(net, d, NOT_IN_PROGRESS, NOT_IN_PROGRESS, {d.high}, multiset{}) && now >= net.clock
    ensures net.nodes[d.low].coordinatorIp == d.high
  {
    Begins(d);
    net := Up(d);
    LowUp(d, net, BothStarted(d));
    GoesOn(d, net, Silent(d.low), BothStarted(d));
    net := Step(net, Silent(d.low), BothStarted(d));
    HighUp(d, net, Both(d, d.low, ELE, d.lowId), BothStarted(d));
    GoesOn(d, net, Silent(d.high), BothStarted(d));
    net := Step(net, Silent(d.high), BothStarted(d));
    net := CallsRead(d, net, BothStarted(d));
    HighWins(d, net, now);
    GoesOn(d, net, Silent(d.high), now);
    net := Step(net, Silent(d.high), now);
    net := AnnouncementRead(d, net, now);
  }

  lemma AnnouncementRead(d: Duo, net: Network, now: int) returns (last: Network)
    requires Reached(d, net) && now >= net.clock
    requires Shows(net, d, WAITING_FOR_COORD, NOT_IN_PROGRESS, {d.high}, Both(d, d.high, CRD, d.highId))
    ensures Reached(d, last) && Shows(last, d, NOT_IN_PROGRESS, NOT_IN_PROGRESS, {d.high}, multiset{})
    ensures now >= last.clock
    ensures last.nodes[d.low].coordinatorIp == d.high
  {
    var m := Message(CRD, d.highId);
    var own, word := Datagram(d.high, d.high, m), Datagram(d.high, d.low, m);
    var flight := multiset{word, own};
    OwnRead(d, net, WAITING_FOR_COORD, NOT_IN_PROGRESS, {d.high}, flight, own, now);
    GoesOn(d, net, Deliver(own, false), now);
    last := Step(net, Deliver(own, false), now);
    assert flight - multiset{own} == multiset{word};
    LowFollows(d, last, multiset{word}, now);
    GoesOn(d, last, Deliver(word, false), now);
    last := Step(last, Deliver(word, false), now);
    assert multiset{word} - multiset{word} == multiset{};
  }

  // ---------------------------------------------------------------------------
  // A later one, which it loses
  // ---------------------------------------------------------------------------

  lemma LowSuspects(d: Duo, net: Network, now: int)
    requires Shows(net, d, NOT_IN_PROGRESS, NOT_IN_PROGRESS, {d.high}, multiset{}) && now >= net.clock
    ensures Enabled(net, Suspect(d.low), now)
    ensures Shows(Step(net, Suspect(d.low), now), d, IN_PROGRESS, NOT_IN_PROGRESS, {d.high},
                  Both(d, d.low, ELE, d.lowId))
  {
    RoutedBoth(d, d.low, ELE, d.lowId);
  }

  /** It does not wait: the first silence makes it coordinator. */
  lemma LowWins(d: Duo, net: Network, flight: multiset<Datagram>, now: int)
    requires Shows(net, d, IN_PROGRESS, NOT_IN_PROGRESS, {d.high}, flight)
    requires now >= net.clock && now - d.lowStart >= ANSWER_MAX_WAIT_TIME
    ensures Enabled(net, Silent(d.low), now)
    ensures Shows(Step(net, Silent(d.low), now), d, NOT_IN_PROGRESS, NOT_IN_PROGRESS, {d.low, d.high},
                  flight + Both(d, d.low, CRD, d.lowId))
  {
    RoutedBoth(d, d.low, CRD, d.lowId);
  }

  /** The higher server answers the call and calls an election itself. */
  lemma HighCalls(d: Duo, net: Network, flight: multiset<Datagram>, now: int)
    requires Shows(net, d, NOT_IN_PROGRESS, NOT_IN_PROGRESS, {d.low, d.high}, flight) && now >= net.clock
    requires Datagram(d.low, d.high, Message(ELE, d.lowId)) in flight
    ensures var e := Deliver(Datagram(d.low, d.high, Message(ELE, d.lowId)), false);
            && Enabled(net, e, now)
            && Shows(Step(net, e, now), d, NOT_IN_PROGRESS, IN_PROGRESS, {d.low, d.high},
                     flight - multiset{e.datagram}
                     + (multiset{Datagram(d.high, d.low, Message(ANS, d.highId))} + Both(d, d.high, ELE, d.highId)))
  {
    var answer, call := Answered(d.low, Message(ANS, d.highId)), Announced(Message(ELE, d.highId));
    RoutedIsTo(d, d.high, Message(ELE, d.highId));
    var r := React(net.nodes[d.high], Reading.Heard(d.low, Some(Message(ELE, d.lowId))), now);
    assert r.sent == [Snapshot] + [answer, call];
    RoutedThree(d.high, answer.dest, answer.message, call.message, {d.low, d.high});
  }

  lemma RoutedThree(source: Addr, dest: Addr, m: Message, n: Message, servers: set<Addr>)
    ensures Routed(source, [Snapshot] + [Answered(dest, m), Announced(n)], servers) ==
            multiset{Datagram(source, dest, m)} + ToAll(source, n, servers)
  {
    var sent := [Snapshot] + [Answered(dest, m), Announced(n)];
    assert sent[..2] == [Snapshot, Answered(dest, m)] && [Snapshot, Answered(dest, m)][..1] == [Snapshot];
    assert [Snapshot][..0] == [];
    assert Routed(source, [Snapshot], servers) == multiset{};
  }

  lemma HighFollows(d: Duo, net: Network, flight: multiset<Datagram>, now: int)
    requires Shows(net, d, NOT_IN_PROGRESS, IN_PROGRESS, {d.low, d.high}, flight) && now >= net.clock
    requires Datagram(d.low, d.high, Message(CRD, d.lowId)) in flight
    ensures var e := Deliver(Datagram(d.low, d.high, Message(CRD, d.lowId)), false);
            && Enabled(net, e, now)
            && Shows(Step(net, e, now), d, NOT_IN_PROGRESS, NOT_IN_PROGRESS, {d.low}, flight - multiset{e.datagram})
            && Step(net, e, now).nodes[d.high].coordinatorIp == d.low
  {
  }

  /** The new coordinator hears the higher server's call too late; it waits for a word, but it leads. */
  lemma LowHearsLate(d: Duo, net: Network, flight: multiset<Datagram>, now: int)
    requires Shows(net, d, NOT_IN_PROGRESS, NOT_IN_PROGRESS, {d.low}, flight) && now >= net.clock
    requires Datagram(d.high, d.low, Message(ELE, d.highId)) in flight
    ensures var e := Deliver(Datagram(d.high, d.low, Message(ELE, d.highId)), false);
            && Enabled(net, e, now)
            && Shows(Step(net, e, now), d, WAITING_FOR_COORD, NOT_IN_PROGRESS, {d.low}, flight - multiset{e.datagram})
            && Step(net, e, now).nodes[d.high] == net.nodes[d.high]
  {
    assert [Snapshot][..0] == [];
    assert Routed(d.low, [Snapshot], {d.low, d.high}) == multiset{};
  }

  /** What the higher server sends when it hears of the late election. */
  function HighSends(d: Duo): multiset<Datagram> {
    multiset{Datagram(d.high, d.low, Message(ANS, d.highId))} + Both(d, d.high, ELE, d.highId)
  }

  /** What the lower one sends to itself. */
  function LowKeeps(d: Duo): multiset<Datagram> {
    multiset{Datagram(d.low, d.low, Message(ELE, d.lowId))} + multiset{Datagram(d.low, d.low, Message(CRD, d.lowId))}
  }

  lemma LowTakesLead(d: Duo, net: Network, now: int) returns (last: Network)
    requires Now(d, net, NOT_IN_PROGRESS, NOT_IN_PROGRESS, {d.high}, multiset{}, now)
    requires now - d.lowStart >= ANSWER_MAX_WAIT_TIME
    ensures Now(d, last, NOT_IN_PROGRESS, NOT_IN_PROGRESS, {d.low, d.high},
                LowKeeps(d) + multiset{Datagram(d.low, d.high, Message(CRD, d.lowId))}
                + multiset{Datagram(d.low, d.high, Message(ELE, d.lowId))}, now)
  {
    LowSuspects(d, net, now);
    GoesOn(d, net, Suspect(d.low), now);
    last := Step(net, Suspect(d.low), now);
    last := GoLowWins(d, last, Both(d, d.low, ELE, d.lowId), now);
    LowSends(d);
  }

  lemma GoLowWins(d: Duo, net: Network, flight: multiset<Datagram>, now: int) returns (next: Network)
    requires Now(d, net, IN_PROGRESS, NOT_IN_PROGRESS, {d.high}, flight, now)
    requires now - d.lowStart >= ANSWER_MAX_WAIT_TIME
    ensures Now(d, next, NOT_IN_PROGRESS, NOT_IN_PROGRESS, {d.low, d.high}, flight + Both(d, d.low, CRD, d.lowId), now)
  {
    LowWins(d, net, flight, now);
    GoesOn(d, net, Silent(d.low), now);
    next := Step(net, Silent(d.low), now);
  }

  lemma LowSends(d: Duo)
    ensures Both(d, d.low, ELE, d.lowId) + Both(d, d.low, CRD, d.lowId) ==
            LowKeeps(d) + multiset{Datagram(d.low, d.high, Message(CRD, d.lowId))}
            + multiset{Datagram(d.low, d.high, Message(ELE, d.lowId))}
  {
  }

  lemma GoHighCalls(d: Duo, net: Network, rest: multiset<Datagram>, now: int) returns (next: Network)
    requires Now(d, net, NOT_IN_PROGRESS, NOT_IN_PROGRESS, {d.low, d.high},
                 rest + multiset{Datagram(d.low, d.high, Message(ELE, d.lowId))}, now)
    ensures Now(d, next, NOT_IN_PROGRESS, IN_PROGRESS, {d.low, d.high}, rest + HighSends(d), now)
  {
    var p := Datagram(d.low, d.high, Message(ELE, d.lowId));
    HighCalls(d, net, rest + multiset{p}, now);
    GoesOn(d, net, Deliver(p, false), now);
    next := Step(net, Deliver(p, false), now);
    assert rest + multiset{p} - multiset{p} == rest;
  }

  lemma GoHighFollows(d: Duo, net: Network, rest: multiset<Datagram>, now: int) returns (next: Network)
    requires Now(d, net, NOT_IN_PROGRESS, IN_PROGRESS, {d.low, d.high},
                 rest + multiset{Datagram(d.low, d.high, Message(CRD, d.lowId))}, now)
    ensures Now(d, next, NOT_IN_PROGRESS, NOT_IN_PROGRESS, {d.low}, rest, now)
    ensures d.high in next.nodes && next.nodes[d.high].coordinatorIp == d.low
  {
    var p := Datagram(d.low, d.high, Message(CRD, d.lowId));
    HighFollows(d, net, rest + multiset{p}, now);
    GoesOn(d, net, Deliver(p, false), now);
    next := Step(net, Deliver(p, false), now);
    assert rest + multiset{p} - multiset{p} == rest;
  }

  lemma GoLowHearsLate(d: Duo, net: Network, rest: multiset<Datagram>, now: int) returns (next: Network)
    requires Now(d, net, NOT_IN_PROGRESS, NOT_IN_PROGRESS, {d.low},
                 rest + multiset{Datagram(d.high, d.low, Message(ELE, d.highId))}, now)
    ensures Now(d, next, WAITING_FOR_COORD, NOT_IN_PROGRESS, {d.low}, rest, now)
    ensures d.high in net.nodes && d.high in next.nodes && next.nodes[d.high] == net.nodes[d.high]
  {
    var p := Datagram(d.high, d.low, Message(ELE, d.highId));
    LowHearsLate(d, net, rest + multiset{p}, now);
    GoesOn(d, net, Deliver(p, false), now);
    next := Step(net, Deliver(p, false), now);
    assert rest + multiset{p} - multiset{p} == rest;
  }

  lemma LeadChanges(d: Duo, net: Network, now: int) returns (last: Network)
    requires Now(d, net, NOT_IN_PROGRESS, NOT_IN_PROGRESS, {d.high}, multiset{}, now)
    requires now - d.lowStart >= ANSWER_MAX_WAIT_TIME
    ensures Now(d, last, NOT_IN_PROGRESS, NOT_IN_PROGRESS, {d.low}, LowKeeps(d) + HighSends(d), now)
    ensures d.high in last.nodes && last.nodes[d.high].coordinatorIp == d.low
  {
    var word := multiset{Datagram(d.low, d.high, Message(CRD, d.lowId))};
    last := LowTakesLead(d, net, now);
    last := GoHighCalls(d, last, LowKeeps(d) + word, now);
    assert LowKeeps(d) + word + HighSends(d) == LowKeeps(d) + HighSends(d) + word;
    last := GoHighFollows(d, last, LowKeeps(d) + HighSends(d), now);
  }

  /** What a server sent to itself comes to nothing. */
  lemma OwnCopiesRead(d: Duo, net: Network, now: int) returns (last: Network)
    requires Now(d, net, NOT_IN_PROGRESS, NOT_IN_PROGRESS, {d.low}, LowKeeps(d) + HighSends(d), now)
    requires d.high in net.nodes && net.nodes[d.high].coordinatorIp == d.low
    ensures Now(d, last, NOT_IN_PROGRESS, NOT_IN_PROGRESS, {d.low},
                multiset{Datagram(d.high, d.low, Message(ELE, d.highId))}
                + multiset{Datagram(d.high, d.low, Message(ANS, d.highId))}, now)
    ensures d.high in last.nodes && last.nodes[d.high].coordinatorIp == d.low
  {
    var call := multiset{Datagram(d.high, d.low, Message(ELE, d.highId))};
    var answer := multiset{Datagram(d.high, d.low, Message(ANS, d.highId))};
    var own, word := Datagram(d.low, d.low, Message(ELE, d.lowId)), Datagram(d.low, d.low, Message(CRD, d.lowId));
    var highOwn := Datagram(d.high, d.high, Message(ELE, d.highId));
    assert LowKeeps(d) + HighSends(d) == call + answer + multiset{highOwn} + multiset{word} + multiset{own};
    last := GoOwnRead(d, net, NOT_IN_PROGRESS, NOT_IN_PROGRESS, {d.low},
                      call + answer + multiset{highOwn} + multiset{word}, own, now);
    last := GoOwnRead(d, last, NOT_IN_PROGRESS, NOT_IN_PROGRESS, {d.low}, call + answer + multiset{highOwn}, word, now);
    last := GoOwnRead(d, last, NOT_IN_PROGRESS, NOT_IN_PROGRESS, {d.low}, call + answer, highOwn, now);
  }

  lemma RestRead(d: Duo, net: Network, now: int) returns (last: Network)
    requires Now(d, net, NOT_IN_PROGRESS, NOT_IN_PROGRESS, {d.low}, LowKeeps(d) + HighSends(d), now)
    requires d.high in net.nodes && net.nodes[d.high].coordinatorIp == d.low
    ensures Now(d, last, WAITING_FOR_COORD, NOT_IN_PROGRESS, {d.low}, multiset{}, now)
    ensures d.high in last.nodes && last.nodes[d.high].coordinatorIp == d.low
  {
    var call := multiset{Datagram(d.high, d.low, Message(ELE, d.highId))};
    last := OwnCopiesRead(d, net, now);
    last := GoLowHearsAnswer(d, last, NOT_IN_PROGRESS, NOT_IN_PROGRESS, {d.low}, call, now);
    assert call == multiset{} + call;
    last := GoLowHearsLate(d, last, multiset{}, now);
  }

  /** Without a single datagram lost, one failed heartbeat at the lower server, any time after both have run for 200 ms,
      can end with nothing under way, the lower server leading, and the higher one, alive all the time, following it. */
  lemma LateElectionOverturns(d: Duo, now: int) returns (net: Network)
    requires Proper(d) && now - d.lowStart >= ANSWER_MAX_WAIT_TIME && now - d.highStart >= ANSWER_MAX_WAIT_TIME
    ensures Reached(d, net) && net.nodes.Keys == {d.low, d.high} && net.flight == multiset{}
    ensures net.nodes[d.low].isCoordinator && !net.nodes[d.high].isCoordinator
    ensures net.nodes[d.high].state == NOT_IN_PROGRESS && net.nodes[d.high].coordinatorIp == d.low
  {
    net := FirstElection(d, now);
    net := LeadChanges(d, net, now);
    net := RestRead(d, net, now);
  }

  // ---------------------------------------------------------------------------
  // Any number of servers
  // ---------------------------------------------------------------------------

  /** Nothing but deliveries, in any order, each perhaps repeated. */
  ghost predicate Deliveries(states: seq<Network>, events: seq<Timed>) {
    && |states| == |events| + 1
    && forall i :: 0 <= i < |events| ==>
         && events[i].event.Deliver? && Enabled(states[i], events[i].event, events[i].now)
         && states[i + 1] == Step(states[i], events[i].event, events[i].now)
  }

  /** Nobody is in INIT, where announcements are not read. */
  ghost predicate Listening(net: Network) {
    forall s :: s in net.nodes ==> net.nodes[s].state != INIT
  }

  /** The server leads, and everybody else takes it for the coordinator or has its announcement coming. */
  ghost predicate Holds(net: Network, a: Addr) {
    && Sane(net) && Listening(net) && Leads(net, a)
    && (forall d :: d in net.flight && d.message.kind == CRD ==> d.source == a)
    && forall s :: s in net.nodes && s != a ==> HoldsAt(net, a, s)
  }

  ghost predicate HoldsAt(net: Network, a: Addr, s: Addr)
    requires a in net.nodes && s in net.nodes
  {
    Announcing(net, a, s) || (!net.nodes[s].isCoordinator && net.nodes[s].coordinatorIp == a)
  }

  lemma ReadingNode(n: Node, reading: Reading, now: int)
    requires reading != Silence && n.state != INIT
    ensures var r := React(n, reading, now);
            && r.node.state != INIT
            && (forall o :: o in r.sent && !o.Snapshot? ==> o.message.kind != CRD)
            && if Foreign(reading, CRD, n.id) then !r.node.isCoordinator && r.node.coordinatorIp == reading.source
               else r.node.isCoordinator == n.isCoordinator && r.node.coordinatorIp == n.coordinatorIp
  {
  }

  lemma AnnouncementsOf(net: Network, e: Event, now: int, a: Addr, p: Datagram)
    requires Holds(net, a) && e.Deliver? && Enabled(net, e, now)
    requires p in Step(net, e, now).flight && p.message.kind == CRD
    ensures p.source == a
  {
    var s := e.datagram.dest;
    var reading := Reading.Heard(e.datagram.source, Some(e.datagram.message));
    ReadingNode(net.nodes[s], reading, now);
    RoutedIs(s, React(net.nodes[s], reading, now).sent, net.nodes.Keys, p);
  }

  lemma HeldAtStill(net: Network, e: Event, now: int, a: Addr, s: Addr)
    requires Holds(net, a) && e.Deliver? && Enabled(net, e, now) && s in net.nodes && s != a
    ensures a in Step(net, e, now).nodes && s in Step(net, e, now).nodes && HoldsAt(Step(net, e, now), a, s)
  {
    StepServers(net, e, now);
    assert HoldsAt(net, a, s) && Genuine(net, e.datagram);
    var word := Datagram(a, s, Message(CRD, net.nodes[a].id));
    if e.datagram.dest == s {
      ReadingNode(net.nodes[s], Reading.Heard(e.datagram.source, Some(e.datagram.message)), now);
    }
    if Announcing(net, a, s) && e.datagram != word {
      StillUnderWay(net, e, now, word);
    }
  }

  lemma LeaderStill(net: Network, e: Event, now: int, a: Addr)
    requires Holds(net, a) && e.Deliver? && Enabled(net, e, now)
    ensures Leads(Step(net, e, now), a) && Listening(Step(net, e, now))
  {
    StepServers(net, e, now);
    assert Genuine(net, e.datagram);
    ReadingNode(net.nodes[e.datagram.dest], Reading.Heard(e.datagram.source, Some(e.datagram.message)), now);
  }

  lemma DeliveryHolds(net: Network, e: Event, now: int, a: Addr)
    requires Holds(net, a) && e.Deliver? && Enabled(net, e, now)
    ensures Holds(Step(net, e, now), a)
  {
    StepKeepsSane(net, e, now);
    LeaderStill(net, e, now, a);
    forall p | p in Step(net, e, now).flight && p.message.kind == CRD ensures p.source == a {
      AnnouncementsOf(net, e, now, a, p);
    }
    forall s | s in Step(net, e, now).nodes && s != a ensures HoldsAt(Step(net, e, now), a, s) {
      HeldAtStill(net, e, now, a, s);
    }
  }

  /** A late silence in an election is enough. */
  lemma SilenceTakesLead(net: Network, a: Addr, now: int)
    requires Sane(net) && Listening(net) && (forall d :: d in net.flight ==> d.message.kind != CRD)
    requires a in net.nodes && net.nodes[a].state == IN_PROGRESS
    requires now >= net.clock && now - net.nodes[a].startTime >= ANSWER_MAX_WAIT_TIME
    ensures Enabled(net, Silent(a), now) && Holds(Step(net, Silent(a), now), a)
  {
    var e, word := Silent(a), Message(CRD, net.nodes[a].id);
    var net' := Step(net, e, now);
    StepKeepsSane(net, e, now);
    StepServers(net, e, now);
    assert NodeStep(net.nodes[a], Happens(e, now)).sent == [Announced(word)];
    forall p | p in net'.flight && p.message.kind == CRD ensures p.source == a {
      RoutedIs(a, [Announced(word)], net.nodes.Keys, p);
    }
    forall s | s in net'.nodes && s != a ensures HoldsAt(net', a, s) {
      NewlyUnderWay(net, e, now, Datagram(a, s, word));
    }
  }

  lemma {:induction false} DeliveriesHold(states: seq<Network>, events: seq<Timed>, a: Addr)
    requires Deliveries(states, events) && Holds(states[0], a)
    ensures Holds(states[|events|], a)
    decreases |events|
  {
    var n := |events|;
    if n > 0 {
      DeliveriesHold(states[..n], events[..n - 1], a);
      DeliveryHolds(states[n - 1], events[n - 1].event, events[n - 1].now, a);
    }
  }

  /** Among any number of servers, whoever is in an election and hears nothing once, 200 ms after its start or later,
      leads: in whatever order the datagrams are then delivered, once none is under way it is the only coordinator, and
      everybody else takes it for that, higher servers that were alive all the time included. */
  lemma LateCallerLeads(net: Network, a: Addr, now: int, states: seq<Network>, events: seq<Timed>)
    requires Sane(net) && Listening(net) && (forall d :: d in net.flight ==> d.message.kind != CRD)
    requires a in net.nodes && net.nodes[a].state == IN_PROGRESS
    requires now >= net.clock && now - net.nodes[a].startTime >= ANSWER_MAX_WAIT_TIME
    requires Deliveries(states, events) && Enabled(net, Silent(a), now) && states[0] == Step(net, Silent(a), now)
    requires states[|events|].flight == multiset{}
    ensures var last := states[|events|];
            && Leads(last, a)
            && forall s :: s in last.nodes && s != a ==> !Leads(last, s) && last.nodes[s].coordinatorIp == a
  {
    SilenceTakesLead(net, a, now);
    DeliveriesHold(states, events, a);
    var last := states[|events|];
    forall s | s in last.nodes && s != a ensures !Leads(last, s) && last.nodes[s].coordinatorIp == a {
      assert HoldsAt(last, a, s);
    }
  }
}
