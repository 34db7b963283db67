/** What clients are told: the answer to every request and farewell, and the account that a client can keep from its
    answers alone. */
module Answers {
  import opened MachineInts
  import opened Wrappers
  import opened Packets
  import opened Ledgers
  import opened Requests

  // ---------------------------------------------------------------------------
  // One answer
  // ---------------------------------------------------------------------------

  /** The packet carries the number after the last one that was counted, in 32 bits. */
  ghost predicate NextInLine(l: Ledger, sender: Addr, p: ReqPacket) {
    Congruent(p.seqNum, RecordOf(l, sender).lastRequest + 1)
  }

  /** Every request is answered with the sender's own balance and number as they are afterwards, and with what it
      asked for. */
  lemma RequestAnswered(l: Ledger, sender: Addr, p: ReqPacket)
    ensures var h := HandleRequest(l, sender, p);
            && h.reply.Some?
            && h.reply.value.newBalance == RecordOf(h.ledger, sender).balance
            && h.reply.value.seqNum == RecordOf(h.ledger, sender).lastRequest
            && h.reply.value.sender == sender
            && h.reply.value.receiver == p.receiver
            && h.reply.value.amount == p.amount
  {
    ValidMeans(p.seqNum, RecordOf(l, sender));
  }

  /** The result is settled by the number first, then by who is registered, the amount, and the balance before. */
  lemma RequestResult(l: Ledger, sender: Addr, p: ReqPacket)
    ensures HandleRequest(l, sender, p).reply.value.result ==
            if !NextInLine(l, sender, p) then
              if ToI32(p.seqNum) < ToI32(RecordOf(l, sender).lastRequest + 1) then "DUPLICATE" else "OUT_OF_ORDER"
            else if sender !in l.records then "SENDER_NOT_REGISTERED"
            else if p.amount == 0 then "BALANCE_CHECK"
            else if p.receiver == sender then "BAD_REQUEST"
            else if p.receiver !in l.records then "RECEIVER_NOT_REGISTERED"
            else if l.records[sender].balance < p.amount then "INSUFFICIENT_BALANCE"
            else "SUCCESS"
  {
    ValidMeans(p.seqNum, RecordOf(l, sender));
    ToI32OfToU32(RecordOf(l, sender).lastRequest + 1);
  }

  /** A farewell removes its sender and nobody else, and is answered with the balance that went with it. */
  lemma FarewellAnswered(l: Ledger, sender: Addr)
    ensures var h := HandleKill(l, sender);
            && sender !in h.ledger.records
            && (forall ip :: ip != sender ==>
                 (ip in h.ledger.records <==> ip in l.records) &&
                 (ip in l.records ==> h.ledger.records[ip] == l.records[ip]))
            && h.reply.Some?
            && h.reply.value.result == (if sender in l.records then "KILL" else "SENDER_NOT_REGISTERED")
            && h.reply.value.newBalance == RecordOf(l, sender).balance
            && h.reply.value.amount == RecordOf(l, sender).balance
            && h.reply.value.seqNum == -1
            && h.reply.value.sender == sender && h.reply.value.receiver == 0
            && (h.update.Some? <==> sender in l.records)
            && (h.update.Some? ==> h.update.value == h.ledger)
  {
  }

  /** A discovery gets a client without record one with the starting balance, leaves all other records alone, and is
      broadcast either way. */
  lemma DiscoveryRegisters(l: Ledger, sender: Addr)
    ensures var h := HandleDiscovery(l, sender);
            && sender in h.ledger.records
            && h.ledger.records[sender] ==
               (if sender in l.records then l.records[sender] else ClientRecord(sender, STARTING_BALANCE, 0))
            && (forall ip :: ip != sender ==>
                 (ip in h.ledger.records <==> ip in l.records) &&
                 (ip in l.records ==> h.ledger.records[ip] == l.records[ip]))
            && h.update == Some(h.ledger)
  {
  }

  // ---------------------------------------------------------------------------
  // Who is registered
  // ---------------------------------------------------------------------------

  /** The last word of `ip` on its membership is the discovery at place `k`. */
  ghost predicate JoinedAt(history: seq<Datagram>, ip: Addr, k: nat) {
    k < |history| && history[k] == Discovery(ip) && forall j :: k < j < |history| ==> history[j] != Kill(ip)
  }

  ghost predicate Joined(history: seq<Datagram>, ip: Addr) {
    exists k: nat :: JoinedAt(history, ip, k)
  }

  lemma JoinedNext(history: seq<Datagram>, ip: Addr)
    requires history != []
    ensures var d := history[|history| - 1];
            Joined(history, ip) <==>
            d == Discovery(ip) || (d != Kill(ip) && Joined(history[..|history| - 1], ip))
  {
    var before, d := history[..|history| - 1], history[|history| - 1];
    if Joined(history, ip) {
      var k: nat :| JoinedAt(history, ip, k);
      assert d == Discovery(ip) || JoinedAt(before, ip, k);
    }
    if d == Discovery(ip) {
      assert JoinedAt(history, ip, |history| - 1);
    } else if d != Kill(ip) && Joined(before, ip) {
      var k: nat :| JoinedAt(before, ip, k);
      assert JoinedAt(history, ip, k);
    }
  }

  /** A client has a record exactly when it has been heard on discovery and has not said farewell since, whatever
      else it and the others have sent. */
  lemma {:induction false} RegisteredExactly(history: seq<Datagram>, ip: Addr)
    ensures ip in After(EMPTY, history).records <==> Joined(history, ip)
    decreases |history|
  {
    if history != [] {
      RegisteredExactly(history[..|history| - 1], ip);
      JoinedNext(history, ip);
      MembershipStep(After(EMPTY, history[..|history| - 1]), history[|history| - 1], ip);
    }
  }

  lemma MembershipStep(l: Ledger, d: Datagram, ip: Addr)
    ensures ip in Handle(l, d).ledger.records <==> d == Discovery(ip) || (d != Kill(ip) && ip in l.records)
  {
  }

  // ---------------------------------------------------------------------------
  // The statement of account
  // ---------------------------------------------------------------------------

  /** The answer to the last datagram. */
  function AnswerTo(history: seq<Datagram>): Option<AckPacket>
    requires history != []
  {
    Handle(After(EMPTY, history[..|history| - 1]), history[|history| - 1]).reply
  }

  /** What the answers say about a client that keeps all of them, its own and those that name it as receiver: a
      starting balance when it registers, less what it was told it has paid, more what others were told they have
      paid it. */
  ghost function Statement(history: seq<Datagram>, ip: Addr): int {
    if history == [] then 0
    else
      var before, d, answer := history[..|history| - 1], history[|history| - 1], AnswerTo(history);
      if d == Kill(ip) then 0
      else if d == Discovery(ip) then (if Joined(before, ip) then Statement(before, ip) else STARTING_BALANCE)
      else if answer.Some? && answer.value.result == "SUCCESS" then
        Entered(Statement(before, ip), answer.value, ip)
      else Statement(before, ip)
  }

  /** One answer that reports success. */
  function Entered(balance: int, answer: AckPacket, ip: Addr): int {
    if answer.sender == ip then balance - answer.amount
    else if answer.receiver == ip then ToU64(balance + answer.amount)
    else balance
  }

  lemma BalanceStep(l: Ledger, d: Datagram, ip: Addr)
    requires d != Kill(ip) && d != Discovery(ip)
    ensures var h := Handle(l, d);
            RecordOf(h.ledger, ip).balance ==
            if h.reply.Some? && h.reply.value.result == "SUCCESS" then
              Entered(RecordOf(l, ip).balance, h.reply.value, ip)
            else RecordOf(l, ip).balance
  {
    if d.Request? {
      RequestAnswered(l, d.sender, d.packet);
      RequestResult(l, d.sender, d.packet);
    }
  }

  lemma {:induction false} StatementHolds(history: seq<Datagram>, ip: Addr)
    ensures RecordOf(After(EMPTY, history), ip).balance == Statement(history, ip)
    decreases |history|
  {
    if history != [] {
      var before, d := history[..|history| - 1], history[|history| - 1];
      StatementHolds(before, ip);
      RegisteredExactly(before, ip);
      if d == Discovery(ip) {
        DiscoveryRegisters(After(EMPTY, before), ip);
      } else if d == Kill(ip) {
        FarewellAnswered(After(EMPTY, before), ip);
      } else {
        BalanceStep(After(EMPTY, before), d, ip);
      }
    }
  }

  /** Answers add up: the balance in every answer, success, failure or farewell, is what the answers before it, and
      this one if it reports a payment, say about its addressee. */
  lemma AnswersAddUp(history: seq<Datagram>)
    requires history != [] && AnswerTo(history).Some?
    ensures var before, d, answer := history[..|history| - 1], history[|history| - 1], AnswerTo(history).value;
            && answer.sender == d.sender
            && answer.newBalance == Statement(if d.Kill? then before else history, d.sender)
            && (answer.result == "KILL" ==> Joined(before, d.sender) && !Joined(history, d.sender))
            && (answer.result == "SENDER_NOT_REGISTERED" ==> !Joined(before, d.sender) && answer.newBalance == 0)
  {
    var before, d := history[..|history| - 1], history[|history| - 1];
    RegisteredExactly(before, d.sender);
    RegisteredExactly(history, d.sender);
    StatementHolds(before, d.sender);
    StatementHolds(history, d.sender);
    if d.Request? {
      RequestAnswered(After(EMPTY, before), d.sender, d.packet);
      RequestResult(After(EMPTY, before), d.sender, d.packet);
    } else {
      FarewellAnswered(After(EMPTY, before), d.sender);
    }
  }

  // ---------------------------------------------------------------------------
  // The totals
  // ---------------------------------------------------------------------------

  /** How many answers reported a payment. */
  function Payments(history: seq<Datagram>): nat {
    if history == [] then 0
    else
      var answer := AnswerTo(history);
      Payments(history[..|history| - 1]) +
      if answer.Some? && answer.value.result == "SUCCESS" then 1 else 0
  }

  /** The amounts in those answers. */
  function Volume(history: seq<Datagram>): nat {
    if history == [] then 0
    else
      var answer := AnswerTo(history);
      Volume(history[..|history| - 1]) +
      if answer.Some? && answer.value.result == "SUCCESS" then answer.value.amount else 0
  }

  /** The totals are those of so many payments of so much, in 32 bits. */
  ghost predicate Tallied(l: Ledger, payments: nat, volume: nat) {
    l.numTransactions == ToI32(payments) && l.totalTransferred == ToU32(volume)
  }

  lemma TallyStep(l: Ledger, d: Datagram, payments: nat, volume: nat)
    requires Tallied(l, payments, volume)
    ensures var h := Handle(l, d);
            if h.reply.Some? && h.reply.value.result == "SUCCESS" then
              Tallied(h.ledger, payments + 1, volume + h.reply.value.amount)
            else Tallied(h.ledger, payments, volume)
  {
    if d.Request? {
      RequestAnswered(l, d.sender, d.packet);
      RequestResult(l, d.sender, d.packet);
      NextTally(payments, volume, d.packet.amount);
    }
  }

  lemma NextTally(payments: nat, volume: nat, amount: nat)
    ensures ToI32(ToI32(payments) + 1) == ToI32(payments + 1)
    ensures ToU32(ToU32(volume) + amount) == ToU32(volume + amount)
  {
  }

  /** The totals that the server prints and broadcasts count the payments it has confirmed. */
  lemma {:induction false} TotalsAddUp(history: seq<Datagram>)
    ensures Tallied(After(EMPTY, history), Payments(history), Volume(history))
    decreases |history|
  {
    if history == [] {
      ToI32Fits(0);
    } else {
      var before := history[..|history| - 1];
      TotalsAddUp(before);
      TallyStep(After(EMPTY, before), history[|history| - 1], Payments(before), Volume(before));
    }
  }

  /** The third total is the sum of all balances, in 32 bits, and every record carries its client's address. */
  lemma {:induction false} BalanceTotalAddsUp(history: seq<Datagram>)
    ensures Sound(After(EMPTY, history))
    decreases |history|
  {
    if history == [] {
      assert Money(EMPTY) == 0;
    } else {
      var before, d := history[..|history| - 1], history[|history| - 1];
      BalanceTotalAddsUp(before);
      HandlingSound(After(EMPTY, before), d);
    }
  }

  lemma HandlingSound(l: Ledger, d: Datagram)
    requires Sound(l)
    ensures Sound(Handle(l, d).ledger)
  {
    match d
    case Request(sender, p) => ApplySound(l, MakeTransaction(sender, p.receiver, p.amount));
    case Kill(sender) => ApplySound(l, RemoveClient(sender));
    case Discovery(sender) => ApplySound(l, RegisterClient(sender));
  }
}
