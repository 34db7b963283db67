/** One server's part in electing a coordinator: a machine with four states that reads one datagram at a time. */
module Election {
  import opened MachineInts
  import opened Wrappers

  datatype ElectionState = INIT | NOT_IN_PROGRESS | IN_PROGRESS | WAITING_FOR_COORD

  datatype Kind = ELE | ANS | CRD

  datatype Message = Message(kind: Kind, id: U32)

  /** What one read of the socket gives: nothing within its timeout, or a datagram that may or may not be one of the
      three messages. */
  datatype Reading = Silence | Heard(source: Addr, message: Option<Message>)

  datatype Outgoing = Announced(message: Message) | Answered(dest: Addr, message: Message) | Snapshot

  datatype Node = Node(
    id: U32,
    state: ElectionState,
    isCoordinator: bool,
    inStandbyMode: bool,
    coordinatorIp: Addr,
    lastReceivedId: U32,
    currentWaitTime: int,
    startTime: int)

  datatype Reaction = Reaction(node: Node, sent: seq<Outgoing>)

  const ANSWER_MAX_WAIT_TIME := 200

  function StartNode(id: U32, now: int): Node {
    Node(id, INIT, false, false, 0, 0, 0, now)
  }

  // ---------------------------------------------------------------------------
  // The machine as a function
  // ---------------------------------------------------------------------------

  /** Whether a reading is a message of another node. */
  predicate Foreign(reading: Reading, kind: Kind, id: U32) {
    reading.Heard? && reading.message.Some? && reading.message.value.kind == kind && reading.message.value.id != id
  }

  function Noticed(n: Node, reading: Reading): Node {
    if reading.Heard? && reading.message.Some? && reading.message.value.id != n.id
    then n.(lastReceivedId := reading.message.value.id) else n
  }

  function FollowCoordinator(n: Node, source: Addr): Node {
    n.(state := NOT_IN_PROGRESS, coordinatorIp := source, isCoordinator := false)
  }

  /** The reaction to one reading. */
  function React(n: Node, reading: Reading, now: int): Reaction {
    var m := Noticed(n, reading);
    match n.state
    case INIT =>
      Reaction(n.(state := IN_PROGRESS, isCoordinator := false, inStandbyMode := false),
               [Announced(Message(ELE, n.id))])
    case NOT_IN_PROGRESS =>
      var rested := m.(currentWaitTime := 0);
      if Foreign(reading, CRD, n.id) then Reaction(FollowCoordinator(rested, reading.source), [])
      else if Foreign(reading, ELE, n.id) then
        var refresh := if n.isCoordinator then [Snapshot] else [];
        if m.lastReceivedId < n.id then
          Reaction(rested.(state := IN_PROGRESS),
                   refresh + [Answered(reading.source, Message(ANS, n.id)), Announced(Message(ELE, n.id))])
        else Reaction(rested.(state := WAITING_FOR_COORD), refresh)
      else Reaction(rested, [])
    case IN_PROGRESS =>
      var waited := m.(currentWaitTime := now - n.startTime);
      if Foreign(reading, CRD, n.id) then Reaction(FollowCoordinator(waited, reading.source), [])
      else if Foreign(reading, ELE, n.id) then
        if m.lastReceivedId < n.id then Reaction(waited, [Answered(reading.source, Message(ANS, n.id))])
        else Reaction(waited.(state := WAITING_FOR_COORD), [])
      else if reading == Silence && waited.currentWaitTime >= ANSWER_MAX_WAIT_TIME then
        Reaction(waited.(state := NOT_IN_PROGRESS, isCoordinator := true), [Announced(Message(CRD, n.id))])
      else Reaction(waited, [])
    case WAITING_FOR_COORD =>
      var rested := m.(currentWaitTime := 0);
      if Foreign(reading, CRD, n.id) then Reaction(FollowCoordinator(rested, reading.source), [])
      else Reaction(rested, [])
  }

  /** The heartbeat thread found the coordinator dead. */
  function Backup(n: Node): Reaction {
    Reaction(n.(state := IN_PROGRESS), [Announced(Message(ELE, n.id))])
  }

  // ---------------------------------------------------------------------------
  // The manager object
  // ---------------------------------------------------------------------------

  datatype SwitchResult = NONE | ELECTION | ANSWER | COORD_ANNOUNCEMENT | TIMEOUT

  class RedundancyManager {
    const id: U32
    var state: ElectionState
    var isCoordinator: bool
    var inStandbyMode: bool
    var coordinatorIp: Addr
    var lastReceivedId: U32
    var currentWaitTime: int
    var startTime: int
    /** Everything sent, oldest first. */
    var outbox: seq<Outgoing>

    function Contents(): Node
      reads this
    {
      Node(id, state, isCoordinator, inStandbyMode, coordinatorIp, lastReceivedId, currentWaitTime, startTime)
    }

    constructor (id: U32, now: int)
      ensures Contents() == StartNode(id, now) && outbox == []
    {
      this.id := id;
      state, isCoordinator, inStandbyMode := INIT, false, false;
      coordinatorIp, lastReceivedId := 0, 0;
      currentWaitTime, startTime := 0, now;
      outbox := [];
    }

    method Promote()
      modifies this`isCoordinator
      ensures isCoordinator
    {
      isCoordinator := true;
    }

    method Demote()
      modifies this`isCoordinator
      ensures !isCoordinator
    {
      isCoordinator := false;
    }

    /** The three checks are one but for the tag; each remembers the sender of a message it accepts. */
    method IsValid(reading: Reading, kind: Kind) returns (valid: bool)
      modifies this`lastReceivedId
      ensures valid <==> Foreign(reading, kind, id)
      ensures lastReceivedId == if valid then reading.message.value.id else old(lastReceivedId)
    {
      valid := false;
      if reading.Heard? && reading.message.Some? {
        var message := reading.message.value;
        if message.kind == kind && message.id != id {
          lastReceivedId := message.id;
          valid := true;
        }
      }
    }

    method ElectionResultSwitch(reading: Reading) returns (result: SwitchResult)
      modifies this`lastReceivedId
      ensures result == if Foreign(reading, CRD, id) then COORD_ANNOUNCEMENT
                        else if Foreign(reading, ANS, id) then ANSWER
                        else if Foreign(reading, ELE, id) then ELECTION
                        else if reading == Silence then TIMEOUT else NONE
      ensures lastReceivedId == Noticed(old(Contents()), reading).lastReceivedId
    {
      var coord := IsValid(reading, CRD);
      if coord {
        return COORD_ANNOUNCEMENT;
      }
      var answer := IsValid(reading, ANS);
      if answer {
        return ANSWER;
      }
      var election := IsValid(reading, ELE);
      if election {
        return ELECTION;
      }
      return if reading == Silence then TIMEOUT else NONE;
    }

    method SendAnswerBack(source: Addr)
      modifies this`outbox
      ensures outbox == old(outbox) + [Answered(source, Message(ANS, id))]
    {
      outbox := outbox + [Answered(source, Message(ANS, id))];
    }

    method BroadcastElectionMessage()
      modifies this`outbox
      ensures outbox == old(outbox) + [Announced(Message(ELE, id))]
    {
      outbox := outbox + [Announced(Message(ELE, id))];
    }

    method SendCoordinatorAnnouncement()
      modifies this`outbox
      ensures outbox == old(outbox) + [Announced(Message(CRD, id))]
    {
      outbox := outbox + [Announced(Message(CRD, id))];
    }

    method StartElectionProcedure(source: Addr)
      modifies this`state, this`outbox
      ensures state == IN_PROGRESS
      ensures outbox == old(outbox) + [Answered(source, Message(ANS, id)), Announced(Message(ELE, id))]
    {
      state := IN_PROGRESS;
      SendAnswerBack(source);
      BroadcastElectionMessage();
    }

    method BackupElection()
      modifies this`state, this`outbox
      ensures Contents() == Backup(old(Contents())).node
      ensures outbox == old(outbox) + Backup(old(Contents())).sent
    {
      state := IN_PROGRESS;
      BroadcastElectionMessage();
    }

    method HandleElectionMessage(source: Addr)
      modifies this`state, this`outbox
      ensures state == if lastReceivedId < id then old(state) else WAITING_FOR_COORD
      ensures outbox == old(outbox) + if lastReceivedId < id then [Answered(source, Message(ANS, id))] else []
    {
      if lastReceivedId < id {
        SendAnswerBack(source);
      } else {
        state := WAITING_FOR_COORD;
      }
    }

    method HandleAnswerMessage()
      requires state == WAITING_FOR_COORD
      modifies this`state
      ensures state == WAITING_FOR_COORD
    {
      if lastReceivedId < id {
        // not expected, ignored
      } else {
        state := WAITING_FOR_COORD;
      }
    }

    method HandleCoordinatorAnnouncement(source: Addr)
      modifies this`state, this`coordinatorIp, this`isCoordinator
      ensures Contents() == FollowCoordinator(old(Contents()), source)
    {
      state := NOT_IN_PROGRESS;
      coordinatorIp := source;
      if isCoordinator {
        Demote();
      }
    }

    method HandleInProgressTimeout()
      modifies this`state, this`isCoordinator, this`outbox
      ensures if currentWaitTime >= ANSWER_MAX_WAIT_TIME
              then state == NOT_IN_PROGRESS && isCoordinator && outbox == old(outbox) + [Announced(Message(CRD, id))]
              else state == old(state) && isCoordinator == old(isCoordinator) && outbox == old(outbox)
    {
      if currentWaitTime >= ANSWER_MAX_WAIT_TIME {
        SendCoordinatorAnnouncement();
        state := NOT_IN_PROGRESS;
        if !isCoordinator {
          Promote();
        }
      }
    }

    /** One turn of the endless loop. */
    method Turn(reading: Reading, now: int)
      modifies this
      ensures Contents() == React(old(Contents()), reading, now).node
      ensures outbox == old(outbox) + React(old(Contents()), reading, now).sent
    {
      match state {
        case INIT =>
          state := IN_PROGRESS;
          isCoordinator := false;
          inStandbyMode := false;
          BroadcastElectionMessage();
        case NOT_IN_PROGRESS =>
          currentWaitTime := 0;
          var result := ElectionResultSwitch(reading);
          match result {
            case COORD_ANNOUNCEMENT => HandleCoordinatorAnnouncement(reading.source);
            case ELECTION =>
              if isCoordinator {
                outbox := outbox + [Snapshot];
              }
              if lastReceivedId < id {
                StartElectionProcedure(reading.source);
              } else {
                state := WAITING_FOR_COORD;
              }
            case _ =>
          }
        case IN_PROGRESS =>
          currentWaitTime := now - startTime;
          var result := ElectionResultSwitch(reading);
          match result {
            case COORD_ANNOUNCEMENT => HandleCoordinatorAnnouncement(reading.source);
            case ELECTION => HandleElectionMessage(reading.source);
            case TIMEOUT => HandleInProgressTimeout();
            case _ =>
          }
        case WAITING_FOR_COORD =>
          currentWaitTime := 0;
          var result := ElectionResultSwitch(reading);
          match result {
            case COORD_ANNOUNCEMENT => HandleCoordinatorAnnouncement(reading.source);
            case ANSWER => HandleAnswerMessage();
            case _ =>
          }
      }
    }
  }
}
