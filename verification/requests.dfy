/** The server's handlers: a request, a farewell, or a discovery datagram, each taken as one indivisible step. */
module Requests {
  import opened MachineInts
  import opened Wrappers
  import opened Text
  import opened Packets
  import opened Ledgers
  import opened DbManagers

  // ---------------------------------------------------------------------------
  // Handlers as functions of the ledger
  // ---------------------------------------------------------------------------

  datatype PacketStatus = VALID | DUPLICATE | OUT_OF_ORDER

  /** Both numbers are compared as 32-bit `int`. */
  function CheckPacketStatus(seqNum: I64, client: ClientRecord): PacketStatus {
    var received := ToI32(seqNum);
    var expected := ToI32(ToU32(client.lastRequest + 1));
    if received == expected then VALID
    else if received < expected then DUPLICATE
    else OUT_OF_ORDER
  }

  function RecordOf(l: Ledger, ip: Addr): ClientRecord {
    if ip in l.records then l.records[ip] else NO_RECORD
  }

  function ReplyWith(r: ClientRecord, result: string, sender: Addr, p: ReqPacket): AckPacket {
    AckPacket(r.lastRequest, result, r.balance, sender, p.receiver, p.amount)
  }

  function TransactionReply(r: Response, sender: Addr, p: ReqPacket): AckPacket {
    match r.status
    case SUCCESS => ReplyWith(r.record, "SUCCESS", sender, p)
    case BALANCE_CHECK => ReplyWith(r.record, "BALANCE_CHECK", sender, p)
    case INSUFFICIENT_BALANCE => ReplyWith(r.record, "INSUFFICIENT_BALANCE", sender, p)
    case UNKNOWN_RECEIVER => ReplyWith(r.record, "RECEIVER_NOT_REGISTERED", sender, p)
    case DUPLICATE_IP => ReplyWith(r.record, "BAD_REQUEST", sender, p)
    case UNKNOWN_SENDER => ReplyWith(NO_RECORD, "SENDER_NOT_REGISTERED", sender, p)
    case NOT_FOUND => ReplyWith(NO_RECORD, "SERVER_ERROR", sender, p)
  }

  /** The ledger a handler leaves, its answer, and the snapshot it broadcasts, if any. */
  datatype Handled = Handled(ledger: Ledger, reply: Option<AckPacket>, update: Option<Ledger>)

  function HandleRequest(l: Ledger, sender: Addr, p: ReqPacket): Handled {
    var client := RecordOf(l, sender);
    match CheckPacketStatus(p.seqNum, client)
    case VALID =>
      var out := Transacted(l, sender, p.receiver, p.amount);
      var reply := TransactionReply(out.response, sender, p);
      Handled(out.ledger, Some(reply), if reply.result == "SUCCESS" then Some(out.ledger) else None)
    case DUPLICATE => Handled(l, Some(ReplyWith(client, "DUPLICATE", sender, p)), None)
    case OUT_OF_ORDER => Handled(l, Some(ReplyWith(client, "OUT_OF_ORDER", sender, p)), None)
  }

  function HandleKill(l: Ledger, sender: Addr): Handled {
    var out := Removed(l, sender);
    if out.response.status == SUCCESS then
      var balance := out.response.record.balance;
      Handled(out.ledger, Some(AckPacket(-1, "KILL", balance, sender, 0, balance)), Some(out.ledger))
    else
      Handled(out.ledger, Some(AckPacket(-1, "SENDER_NOT_REGISTERED", 0, sender, 0, 0)), None)
  }

  function HandleDiscovery(l: Ledger, sender: Addr): Handled {
    var out := Registered(l, sender);
    Handled(out.ledger, None, Some(out.ledger))
  }

  datatype Datagram = Request(sender: Addr, packet: ReqPacket) | Kill(sender: Addr) | Discovery(sender: Addr)

  function Handle(l: Ledger, d: Datagram): Handled {
    match d
    case Request(sender, packet) => HandleRequest(l, sender, packet)
    case Kill(sender) => HandleKill(l, sender)
    case Discovery(sender) => HandleDiscovery(l, sender)
  }

  // ---------------------------------------------------------------------------
  // Handlers over the database object
  // ---------------------------------------------------------------------------

  method ProcessDbTransaction(db: DbManager, sender: Addr, p: ReqPacket) returns (reply: AckPacket)
    requires db.Valid()
    modifies db
    ensures db.Valid()
    ensures var out := Transacted(old(db.Contents()), sender, p.receiver, p.amount);
            db.Contents() == out.ledger && reply == TransactionReply(out.response, sender, p)
  {
    var r := db.MakeTransaction(sender, p.receiver, p.amount);
    match r.status {
      case SUCCESS =>
        reply := AckPacket(r.record.lastRequest, "SUCCESS", r.record.balance, sender, p.receiver, p.amount);
      case BALANCE_CHECK =>
        reply := AckPacket(r.record.lastRequest, "BALANCE_CHECK", r.record.balance, sender, p.receiver, p.amount);
      case INSUFFICIENT_BALANCE =>
        reply := AckPacket(r.record.lastRequest, "INSUFFICIENT_BALANCE", r.record.balance,
                           sender, p.receiver, p.amount);
      case UNKNOWN_RECEIVER =>
        reply := AckPacket(r.record.lastRequest, "RECEIVER_NOT_REGISTERED", r.record.balance,
                           sender, p.receiver, p.amount);
      case DUPLICATE_IP =>
        reply := AckPacket(r.record.lastRequest, "BAD_REQUEST", r.record.balance, sender, p.receiver, p.amount);
      case UNKNOWN_SENDER =>
        reply := AckPacket(0, "SENDER_NOT_REGISTERED", 0, sender, p.receiver, p.amount);
      case NOT_FOUND =>
        reply := AckPacket(0, "SERVER_ERROR", 0, sender, p.receiver, p.amount);
    }
  }

  method ProcessReqPacket(db: DbManager, sender: Addr, p: ReqPacket) returns (reply: AckPacket, update: Option<Ledger>)
    requires db.Valid()
    modifies db
    ensures db.Valid()
    ensures Handled(db.Contents(), Some(reply), update) == HandleRequest(old(db.Contents()), sender, p)
  {
    var info := db.GetClientInfo(sender);
    var client := info.record;
    update := None;
    match CheckPacketStatus(p.seqNum, client) {
      case VALID =>
        reply := ProcessDbTransaction(db, sender, p);
      case DUPLICATE =>
        reply := AckPacket(client.lastRequest, "DUPLICATE", client.balance, sender, p.receiver, p.amount);
      case OUT_OF_ORDER =>
        reply := AckPacket(client.lastRequest, "OUT_OF_ORDER", client.balance, sender, p.receiver, p.amount);
    }
    if reply.result == "SUCCESS" {
      var snapshot := db.GetDbSnapshot();
      update := Some(snapshot);
    }
  }

  method ProcessKillPacket(db: DbManager, sender: Addr) returns (reply: AckPacket, update: Option<Ledger>)
    requires db.Valid()
    modifies db
    ensures db.Valid()
    ensures Handled(db.Contents(), Some(reply), update) == HandleKill(old(db.Contents()), sender)
  {
    var r := db.RemoveClient(sender);
    update := None;
    match r.status {
      case SUCCESS =>
        reply := AckPacket(-1, "KILL", r.record.balance, sender, 0, r.record.balance);
      case NOT_FOUND =>
        reply := AckPacket(-1, "SENDER_NOT_REGISTERED", 0, sender, 0, 0);
      case _ =>
        assert false;  // a removal has no other outcome
    }
    if r.status == SUCCESS {
      var snapshot := db.GetDbSnapshot();
      update := Some(snapshot);
    }
  }

  /** One turn of the discovery service; only a coordinator answers. */
  method ProcessDiscovery(db: DbManager, isCoordinator: bool, sender: Addr) returns (update: Option<Ledger>)
    requires db.Valid()
    modifies db
    ensures db.Valid()
    ensures Handled(db.Contents(), None, update) ==
            if isCoordinator then HandleDiscovery(old(db.Contents()), sender)
            else Handled(old(db.Contents()), None, None)
  {
    update := None;
    if isCoordinator {
      var _ := db.RegisterClient(sender);
      var snapshot := db.GetDbSnapshot();
      update := Some(snapshot);
    }
  }

  // ---------------------------------------------------------------------------
  // What the sequence numbers mean
  // ---------------------------------------------------------------------------

  lemma ToI32Fits(x: int)
    requires -TWO31 <= x < TWO31
    ensures ToI32(x) == x
  {
    CongruentI32(x, x);
  }

  lemma ToI32OfToU32(x: int)
    ensures ToI32(ToU32(x)) == ToI32(x)
  {
  }

  lemma CongruentLow(x: int, y: int)
    ensures Congruent(x, y) <==> ToI32(x) == ToI32(y)
  {
    ToI32Congruent(x);
    CongruentI32(ToI32(x), y);
    var a, b, c := (x - y) / TWO32, (ToI32(x) - x) / TWO32, (ToI32(x) - y) / TWO32;
    if Congruent(x, y) {
      assert ToI32(x) - y == (a + b) * TWO32;
    }
    if ToI32(x) == ToI32(y) {
      assert x - y == (c - b) * TWO32;
    }
  }

  /** A packet is taken when its number is the next one in the low 32 bits. */
  lemma ValidMeans(seqNum: I64, client: ClientRecord)
    ensures CheckPacketStatus(seqNum, client) == VALID <==> Congruent(seqNum, client.lastRequest + 1)
  {
    ToI32OfToU32(client.lastRequest + 1);
    CongruentLow(seqNum, client.lastRequest + 1);
  }

  /** As long as all numbers are those of an `int`, the three statuses are the three ways to compare with the
      number of the last request. */
  lemma StatusInRange(seqNum: I64, client: ClientRecord)
    requires -TWO31 <= seqNum < TWO31 && client.lastRequest + 1 < TWO31
    ensures CheckPacketStatus(seqNum, client) ==
            if seqNum <= client.lastRequest then DUPLICATE
            else if seqNum == client.lastRequest + 1 then VALID else OUT_OF_ORDER
  {
    ToI32Fits(seqNum);
    ToI32OfToU32(client.lastRequest + 1);
    ToI32Fits(client.lastRequest + 1);
  }

  ghost predicate Moves(l: Ledger, sender: Addr, p: ReqPacket) {
    && sender in l.records && p.receiver in l.records && sender != p.receiver && p.amount > 0
    && Congruent(p.seqNum, l.records[sender].lastRequest + 1)
  }

  /** A request changes the ledger exactly when it carries the next number for a real transfer between two
      registered clients; then it uses that number up, and money moves only if the sender has it. */
  lemma RequestActs(l: Ledger, sender: Addr, p: ReqPacket)
    ensures var h := HandleRequest(l, sender, p);
            && (h.ledger != l <==> Moves(l, sender, p))
            && (Moves(l, sender, p) ==>
                && sender in h.ledger.records
                && h.ledger.records[sender].lastRequest == ToU32(l.records[sender].lastRequest + 1)
                && (h.reply.value.result == "SUCCESS" <==> p.amount <= l.records[sender].balance))
            && (h.update == if h.reply.value.result == "SUCCESS" then Some(h.ledger) else None)
            && (h.update.Some? ==> Moves(l, sender, p))
  {
    ValidMeans(p.seqNum, RecordOf(l, sender));
    if sender in l.records {
      BumpedDiffers(l.records[sender]);
    }
  }

  lemma BumpedDiffers(r: ClientRecord)
    ensures Bumped(r).lastRequest != r.lastRequest
  {
  }

  /** What a sender's record looks like depends, its balance apart, on that sender's own packets alone. */
  lemma OthersLeave(l: Ledger, d: Datagram, ip: Addr)
    requires d.sender != ip
    ensures var l' := Handle(l, d).ledger;
            && (ip in l'.records <==> ip in l.records)
            && (ip in l.records ==> l'.records[ip].lastRequest == l.records[ip].lastRequest)
  {
  }

  /** Every answer is a packet that arrives as it was sent. */
  lemma RepliesSurvive(l: Ledger, d: Datagram)
    requires Handle(l, d).reply.Some?
    ensures var reply := Handle(l, d).reply.value;
            ParseAck(PrintAck(reply)) == Ok(reply) && TypeOf(PrintAck(reply)) == ACK
  {
    ResultIsWord(l, d);
    AckRoundTrip(Handle(l, d).reply.value);
    AckTold(Handle(l, d).reply.value);
  }

  lemma ResultIsWord(l: Ledger, d: Datagram)
    requires Handle(l, d).reply.Some?
    ensures Clean(Handle(l, d).reply.value.result)
  {
    WordsAreClean(Handle(l, d).reply.value.result);
  }

  const RESULTS := {"SUCCESS", "BALANCE_CHECK", "INSUFFICIENT_BALANCE", "RECEIVER_NOT_REGISTERED", "BAD_REQUEST",
                    "SENDER_NOT_REGISTERED", "SERVER_ERROR", "DUPLICATE", "OUT_OF_ORDER", "KILL"}

  lemma WordsAreClean(w: string)
    requires w in RESULTS
    ensures Clean(w)
  {
  }

  // ---------------------------------------------------------------------------
  // Histories
  // ---------------------------------------------------------------------------

  /** The ledger after a history of datagrams, in whatever order they reached the handlers. */
  function After(l: Ledger, history: seq<Datagram>): Ledger {
    if history == [] then l
    else Handle(After(l, history[..|history| - 1]), history[|history| - 1]).ledger
  }

  /** Whether a datagram makes the server count a request of `ip`. */
  ghost predicate Counts(l: Ledger, d: Datagram, ip: Addr) {
    d.Request? && d.sender == ip && Moves(l, ip, d.packet)
  }

  /** The numbers of the requests of `ip` that were counted since it last registered. */
  ghost function Accepted(history: seq<Datagram>, ip: Addr): seq<I64> {
    if history == [] then []
    else
      var before, d := history[..|history| - 1], history[|history| - 1];
      if ip !in After(EMPTY, history).records then []
      else if Counts(After(EMPTY, before), d, ip) then Accepted(before, ip) + [d.packet.seqNum]
      else Accepted(before, ip)
  }

  lemma RegistersAtZero(l: Ledger, d: Datagram, ip: Addr)
    requires ip !in l.records && ip in Handle(l, d).ledger.records
    ensures Handle(l, d).ledger.records[ip].lastRequest == 0
  {
  }

  lemma CountedOrNot(l: Ledger, d: Datagram, ip: Addr)
    requires ip in l.records && ip in Handle(l, d).ledger.records
    ensures var r := Handle(l, d).ledger.records[ip].lastRequest;
            r == if Counts(l, d, ip) then ToU32(l.records[ip].lastRequest + 1) else l.records[ip].lastRequest
  {
    if d.sender != ip {
      OthersLeave(l, d, ip);
    } else if d.Request? {
      RequestActs(l, ip, d.packet);
    }
  }

  ghost predicate InStep(history: seq<Datagram>, ip: Addr) {
    var accepted, l := Accepted(history, ip), After(EMPTY, history);
    && (forall i :: 0 <= i < |accepted| ==> Congruent(accepted[i], i + 1))
    && (ip !in l.records ==> accepted == [])
    && (ip in l.records ==> l.records[ip].lastRequest == ToU32(|accepted|))
  }

  /** Whatever is lost, repeated or reordered, the requests of a client that are counted carry the numbers
      1, 2, 3, ... since its registration, and the record holds how many there were, all in 32 bits. */
  lemma {:induction false} AcceptedInOrder(history: seq<Datagram>, ip: Addr)
    ensures InStep(history, ip)
    decreases |history|
  {
    if history != [] {
      var before, d := history[..|history| - 1], history[|history| - 1];
      AcceptedInOrder(before, ip);
      var l := After(EMPTY, before);
      if ip in After(EMPTY, history).records {
        if ip in l.records {
          CountedOrNot(l, d, ip);
          NextNumber(|Accepted(before, ip)|, d, l, ip);
        } else {
          RegistersAtZero(l, d, ip);
        }
      }
    }
  }

  lemma NextNumber(n: nat, d: Datagram, l: Ledger, ip: Addr)
    requires ip in l.records && l.records[ip].lastRequest == ToU32(n)
    ensures Counts(l, d, ip) ==> Congruent(d.packet.seqNum, n + 1)
    ensures ToU32(l.records[ip].lastRequest + 1) == ToU32(n + 1)
  {
    if Counts(l, d, ip) {
      var a := (d.packet.seqNum - (ToU32(n) + 1)) / TWO32;
      assert d.packet.seqNum - (n + 1) == (a - n / TWO32) * TWO32;
    }
  }

  /** With numbers that fit an `int`, these are exactly the numbers 1 to `lastRequest`, once each and in order. */
  lemma AcceptedExactly(history: seq<Datagram>, ip: Addr)
    requires forall i :: 0 <= i < |history| && history[i].Request? ==> -TWO31 <= history[i].packet.seqNum < TWO31
    ensures var accepted := Accepted(history, ip);
            && (forall i :: 0 <= i < |accepted| ==> accepted[i] == ToI32(i + 1))
            && (|accepted| < TWO31 ==>
                && (forall i :: 0 <= i < |accepted| ==> accepted[i] == i + 1)
                && (ip in After(EMPTY, history).records ==>
                     After(EMPTY, history).records[ip].lastRequest == |accepted|))
  {
    AcceptedInOrder(history, ip);
    AcceptedSent(history, ip);
    NumbersExact(Accepted(history, ip));
  }

  lemma NumbersExact(accepted: seq<I64>)
    requires forall i :: 0 <= i < |accepted| ==> Congruent(accepted[i], i + 1)
    requires forall n :: n in accepted ==> -TWO31 <= n < TWO31
    ensures forall i :: 0 <= i < |accepted| ==> accepted[i] == ToI32(i + 1)
    ensures forall i :: 0 <= i < |accepted| && i + 1 < TWO31 ==> accepted[i] == i + 1
    ensures |accepted| < TWO31 ==> ToU32(|accepted|) == |accepted|
  {
    forall i | 0 <= i < |accepted|
      ensures accepted[i] == ToI32(i + 1) && (i + 1 < TWO31 ==> accepted[i] == i + 1)
    {
      assert accepted[i] in accepted;
      CongruentI32(accepted[i], i + 1);
      if i + 1 < TWO31 {
        ToI32Fits(i + 1);
      }
    }
  }

  lemma {:induction false} AcceptedSent(history: seq<Datagram>, ip: Addr)
    requires forall i :: 0 <= i < |history| && history[i].Request? ==> -TWO31 <= history[i].packet.seqNum < TWO31
    ensures forall n :: n in Accepted(history, ip) ==> -TWO31 <= n < TWO31
    decreases |history|
  {
    if history != [] {
      AcceptedSent(history[..|history| - 1], ip);
    }
  }

  /** A number that was used, or was never reached, changes nothing. */
  lemma StaleIsHarmless(l: Ledger, sender: Addr, p: ReqPacket)
    requires -TWO31 <= p.seqNum < TWO31
    requires sender in l.records ==> l.records[sender].lastRequest + 1 < TWO31
    requires p.seqNum != RecordOf(l, sender).lastRequest + 1
    ensures var h := HandleRequest(l, sender, p);
            && h.ledger == l && h.update == None
            && h.reply.value.result ==
               (if p.seqNum <= RecordOf(l, sender).lastRequest then "DUPLICATE" else "OUT_OF_ORDER")
            && h.reply.value.seqNum == RecordOf(l, sender).lastRequest
  {
    StatusInRange(p.seqNum, RecordOf(l, sender));
  }

  /** Beyond the range of an `int` the comparison fails: a number 2^32 too small is below every number that was
      used, and is paid all the same. */
  lemma WrongNumberTaken(l: Ledger, sender: Addr, p: ReqPacket)
    requires sender in l.records && p.receiver in l.records && sender != p.receiver
    requires 0 < p.amount <= l.records[sender].balance
    requires p.seqNum == l.records[sender].lastRequest + 1 - TWO32
    ensures p.seqNum <= 0
    ensures HandleRequest(l, sender, p).reply.value.result == "SUCCESS"
  {
    assert p.seqNum - (l.records[sender].lastRequest + 1) == -1 * TWO32;
    RequestActs(l, sender, p);
  }
}
