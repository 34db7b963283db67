/** What a server's election state says about everything it has been through, on whatever network. */
module ElectionHistory {
  import opened MachineInts
  import opened Wrappers
  import opened Election

  datatype NodeEvent = Turn(reading: Reading, now: int) | HeartbeatLost

  function NodeStep(n: Node, e: NodeEvent): Reaction {
    match e
    case Turn(reading, now) => React(n, reading, now)
    case HeartbeatLost => Backup(n)
  }

  /** The node after a history that began at time `start`. */
  function NodeAfter(id: U32, start: int, events: seq<NodeEvent>): Node {
    if events == [] then StartNode(id, start)
    else NodeStep(NodeAfter(id, start, events[..|events| - 1]), events[|events| - 1]).node
  }

  lemma {:induction false} NodeKeeps(id: U32, start: int, events: seq<NodeEvent>)
    ensures var n := NodeAfter(id, start, events);
            && n.id == id && n.startTime == start && !n.inStandbyMode
            && (n.state == INIT <==> events == [])
    decreases |events|
  {
    if events != [] {
      NodeKeeps(id, start, events[..|events| - 1]);
    }
  }

  predicate Higher(reading: Reading, id: U32) {
    Foreign(reading, ELE, id) && reading.message.value.id > id
  }

  /** A message that forbids its reader to make itself coordinator. */
  predicate Opposes(e: NodeEvent, id: U32) {
    e.Turn? && (Higher(e.reading, id) || Foreign(e.reading, CRD, id))
  }

  /** The events since the node last entered IN_PROGRESS. */
  function SinceEntry(id: U32, start: int, events: seq<NodeEvent>): seq<NodeEvent> {
    if events == [] then []
    else
      var earlier := events[..|events| - 1];
      if NodeAfter(id, start, earlier).state != IN_PROGRESS || NodeAfter(id, start, events).state != IN_PROGRESS then []
      else SinceEntry(id, start, earlier) + [events[|events| - 1]]
  }

  lemma {:induction false} Unopposed(id: U32, start: int, events: seq<NodeEvent>)
    ensures forall e :: e in SinceEntry(id, start, events) ==> !Opposes(e, id)
    decreases |events|
  {
    if events != [] {
      Unopposed(id, start, events[..|events| - 1]);
      NodeKeeps(id, start, events[..|events| - 1]);
    }
  }

  ghost predicate Promotes(n: Node, e: NodeEvent) {
    Announced(Message(CRD, n.id)) in NodeStep(n, e).sent
  }

  /** A node makes itself coordinator exactly when it hears nothing while in an election, at least 200 ms after it
      started up; and since it entered this election it has read no call of a higher node and no announcement of
      another coordinator. */
  lemma PromotesExactly(id: U32, start: int, events: seq<NodeEvent>, e: NodeEvent)
    ensures var n := NodeAfter(id, start, events);
            && (Promotes(n, e) <==>
                 n.state == IN_PROGRESS && e.Turn? && e.reading == Silence && e.now - start >= ANSWER_MAX_WAIT_TIME)
            && (Promotes(n, e) ==>
                 && NodeStep(n, e).node.state == NOT_IN_PROGRESS && NodeStep(n, e).node.isCoordinator
                 && forall past :: past in SinceEntry(id, start, events) ==> !Opposes(past, id))
  {
    NodeKeeps(id, start, events);
    Unopposed(id, start, events);
  }

  /** The wait is counted from the start of the server, not of the election: an election that the heartbeat thread
      begins later than that is won by the first silent read, whoever else is there. */
  lemma LateElectionsDoNotWait(n: Node, now: int)
    ensures Promotes(Backup(n).node, Turn(Silence, now)) <==> now - n.startTime >= ANSWER_MAX_WAIT_TIME
  {
    var up := Backup(n).node;
    var sent := NodeStep(up, Turn(Silence, now)).sent;
    assert now - n.startTime >= ANSWER_MAX_WAIT_TIME ==> sent == [Announced(Message(CRD, n.id))];
  }

  /** A node resigns itself to waiting only on the word of a higher one. */
  lemma WaitsForHigher(n: Node, e: NodeEvent)
    requires n.state != WAITING_FOR_COORD
    ensures NodeStep(n, e).node.state == WAITING_FOR_COORD <==>
            e.Turn? && Higher(e.reading, n.id) && (n.state == NOT_IN_PROGRESS || n.state == IN_PROGRESS)
  {
  }

  /** Every node that waits has read a call from a higher one. */
  lemma {:induction false} WaitedFor(id: U32, start: int, events: seq<NodeEvent>)
    requires NodeAfter(id, start, events).state == WAITING_FOR_COORD
    ensures exists e :: e in events && e.Turn? && Higher(e.reading, id)
    decreases |events|
  {
    var earlier, e := events[..|events| - 1], events[|events| - 1];
    NodeKeeps(id, start, earlier);
    if NodeAfter(id, start, earlier).state == WAITING_FOR_COORD {
      WaitedFor(id, start, earlier);
      var past :| past in earlier && past.Turn? && Higher(past.reading, id);
      assert past in events;
    } else {
      WaitsForHigher(NodeAfter(id, start, earlier), e);
    }
  }

  // ---------------------------------------------------------------------------
  // Leadership
  // ---------------------------------------------------------------------------

  datatype Leadership = Announcement | Heard(source: Addr)

  /** The last thing that settled who leads: an announcement of the node's own, or one of another that it read.  What
      is read on leaving INIT is not looked at. */
  function LastLeadership(id: U32, start: int, events: seq<NodeEvent>): Option<Leadership> {
    if events == [] then None
    else
      var earlier, e := events[..|events| - 1], events[|events| - 1];
      var n := NodeAfter(id, start, earlier);
      if Announced(Message(CRD, id)) in NodeStep(n, e).sent then Some(Announcement)
      else if e.Turn? && earlier != [] && Foreign(e.reading, CRD, id) then Some(Leadership.Heard(e.reading.source))
      else LastLeadership(id, start, earlier)
  }

  /** The address of the last announcement of another coordinator, zero if there was none. */
  function LastAnnouncer(id: U32, events: seq<NodeEvent>): Addr {
    if |events| <= 1 then 0
    else
      var e := events[|events| - 1];
      if e.Turn? && Foreign(e.reading, CRD, id) then e.reading.source
      else LastAnnouncer(id, events[..|events| - 1])
  }

  /** Who a node takes to be coordinator is settled by announcements alone, whatever else it reads or misses, and
      whatever the heartbeat thread does. */
  lemma {:induction false} LeadershipIsHistory(id: U32, start: int, events: seq<NodeEvent>)
    ensures var n := NodeAfter(id, start, events);
            && (n.isCoordinator <==> LastLeadership(id, start, events) == Some(Announcement))
            && n.coordinatorIp == LastAnnouncer(id, events)
    decreases |events|
  {
    if events != [] {
      var earlier := events[..|events| - 1];
      LeadershipIsHistory(id, start, earlier);
      NodeKeeps(id, start, earlier);
    }
  }

  // ---------------------------------------------------------------------------
  // Who sends what
  // ---------------------------------------------------------------------------

  /** A call that a node in no election reads from another. */
  predicate Called(n: Node, e: NodeEvent) {
    n.state == NOT_IN_PROGRESS && e.Turn? && Foreign(e.reading, ELE, n.id)
  }

  /** A call that the node has to answer: from a lower one, while it is in no election or in one. */
  predicate CalledFromBelow(n: Node, e: NodeEvent) {
    && (n.state == NOT_IN_PROGRESS || n.state == IN_PROGRESS)
    && e.Turn? && Foreign(e.reading, ELE, n.id) && e.reading.message.value.id < n.id
  }

  /** Whether the node may send this message here.  There is no other: the database on a call read as coordinator in
      no election; an answer to the source of a call from below; a call of its own when it starts, when it is called
      from below in no election, and when the heartbeat fails; an announcement when it makes itself coordinator. */
  ghost predicate MaySend(n: Node, e: NodeEvent, o: Outgoing) {
    match o
    case Snapshot => n.isCoordinator && Called(n, e)
    case Answered(dest, m) => m == Message(ANS, n.id) && CalledFromBelow(n, e) && dest == e.reading.source
    case Announced(Message(ELE, id)) =>
      id == n.id && (e.HeartbeatLost? || n.state == INIT || (Called(n, e) && CalledFromBelow(n, e)))
    case Announced(Message(CRD, id)) =>
      && id == n.id && n.state == IN_PROGRESS
      && e.Turn? && e.reading == Silence && e.now - n.startTime >= ANSWER_MAX_WAIT_TIME
    case Announced(Message(ANS, _)) => false
  }

  /** What one event makes a node send: these messages and nothing else. */
  lemma SendsExactly(n: Node, e: NodeEvent, o: Outgoing)
    ensures o in NodeStep(n, e).sent <==> MaySend(n, e, o)
  {
    if n.state == NOT_IN_PROGRESS {
      SendsAtRest(n, e, o);
    } else {
      SendsOtherwise(n, e, o);
    }
  }

  lemma SendsAtRest(n: Node, e: NodeEvent, o: Outgoing)
    requires n.state == NOT_IN_PROGRESS
    ensures o in NodeStep(n, e).sent <==> MaySend(n, e, o)
  {
    if e.Turn? && Foreign(e.reading, ELE, n.id) && e.reading.message.value.id < n.id {
      SentToBelow(n, e.reading, e.now, o);
    }
  }

  lemma SentToBelow(n: Node, reading: Reading, now: int, o: Outgoing)
    requires n.state == NOT_IN_PROGRESS && Foreign(reading, ELE, n.id) && reading.message.value.id < n.id
    ensures o in React(n, reading, now).sent <==>
            || (o == Snapshot && n.isCoordinator)
            || o == Answered(reading.source, Message(ANS, n.id))
            || o == Announced(Message(ELE, n.id))
  {
  }

  lemma SendsOtherwise(n: Node, e: NodeEvent, o: Outgoing)
    requires n.state != NOT_IN_PROGRESS
    ensures o in NodeStep(n, e).sent <==> MaySend(n, e, o)
  {
  }

  /** No message is sent twice. */
  lemma SendsOnce(n: Node, e: NodeEvent)
    ensures var sent := NodeStep(n, e).sent; forall i, j :: 0 <= i < j < |sent| ==> sent[i] != sent[j]
  {
  }

  /** The database is never broadcast by a follower: over any history, a server sends it exactly on a call that it
      reads in no election, and only if the last thing it knows of leadership is its own announcement. */
  lemma SnapshotsFromTheLeader(id: U32, start: int, events: seq<NodeEvent>, e: NodeEvent)
    ensures var n := NodeAfter(id, start, events);
            Snapshot in NodeStep(n, e).sent <==>
            LastLeadership(id, start, events) == Some(Announcement) && Called(n, e)
  {
    LeadershipIsHistory(id, start, events);
    SendsExactly(NodeAfter(id, start, events), e, Snapshot);
  }

  /** Where one event takes a node. */
  lemma GoesExactly(n: Node, e: NodeEvent)
    ensures var next := NodeStep(n, e).node;
            && (next.state == NOT_IN_PROGRESS <==>
                 || Promotes(n, e)
                 || (e.Turn? && n.state != INIT && Foreign(e.reading, CRD, n.id))
                 || (e.Turn? && n.state == NOT_IN_PROGRESS && !Foreign(e.reading, ELE, n.id)))
            && (next.state == WAITING_FOR_COORD <==>
                 || (e.Turn? && n.state == WAITING_FOR_COORD && !Foreign(e.reading, CRD, n.id))
                 || (e.Turn? && (n.state == NOT_IN_PROGRESS || n.state == IN_PROGRESS) && Higher(e.reading, n.id)))
            && next.state != INIT
  {
    SendsExactly(n, e, Announced(Message(CRD, n.id)));
  }

  /** A server that has started takes no notice of its own broadcasts, nor of what is none of the three messages; only
      the age at the last read may change. */
  lemma OwnWordsIgnored(n: Node, reading: Reading, now: int)
    requires n.state != INIT && reading.Heard? && (reading.message.Some? ==> reading.message.value.id == n.id)
    ensures var r := NodeStep(n, Turn(reading, now));
            r.sent == [] && r.node == n.(currentWaitTime := r.node.currentWaitTime)
  {
  }

  // ---------------------------------------------------------------------------
  // What it remembers
  // ---------------------------------------------------------------------------

  /** The node whose message was read last, zero if there was none; what is read on leaving INIT is not looked at. */
  function LastForeign(id: U32, events: seq<NodeEvent>): U32 {
    if |events| <= 1 then 0
    else
      var e := events[|events| - 1];
      if e.Turn? && e.reading.Heard? && e.reading.message.Some? && e.reading.message.value.id != id
      then e.reading.message.value.id
      else LastForeign(id, events[..|events| - 1])
  }

  /** The age at the last read, if that read was made in an election, and zero if it was not or was the first. */
  function LastWait(id: U32, start: int, events: seq<NodeEvent>): int {
    if events == [] then 0
    else
      var earlier, e := events[..|events| - 1], events[|events| - 1];
      if e.HeartbeatLost? then LastWait(id, start, earlier)
      else if NodeAfter(id, start, earlier).state == IN_PROGRESS then e.now - start else 0
  }

  /** The two numbers that decide whether a node answers, waits or wins are those of its last reads. */
  lemma {:induction false} RemembersLast(id: U32, start: int, events: seq<NodeEvent>)
    ensures var n := NodeAfter(id, start, events);
            n.lastReceivedId == LastForeign(id, events) && n.currentWaitTime == LastWait(id, start, events)
    decreases |events|
  {
    if events != [] {
      var earlier := events[..|events| - 1];
      RemembersLast(id, start, earlier);
      NodeKeeps(id, start, earlier);
    }
  }
}
