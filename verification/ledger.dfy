/** The ledger as a value, and its three operations as single indivisible steps. */
module Ledgers {
  import opened MachineInts
  import opened MapSums

  const STARTING_BALANCE: U64 := 100000

  datatype ClientRecord = ClientRecord(ip: Addr, balance: U64, lastRequest: U32)

  const NO_RECORD := ClientRecord(0, 0, 0)

  datatype Status =
    | SUCCESS
    | DUPLICATE_IP
    | INSUFFICIENT_BALANCE
    | NOT_FOUND
    | UNKNOWN_SENDER
    | UNKNOWN_RECEIVER
    | BALANCE_CHECK

  datatype Ledger = Ledger(
    records: map<Addr, ClientRecord>,
    totalBalance: I32,
    totalTransferred: U32,
    numTransactions: I32)

  const EMPTY := Ledger(map[], 0, 0, 0)

  datatype Operation =
    | RegisterClient(ip: Addr)
    | MakeTransaction(sender: Addr, receiver: Addr, amount: U64)
    | RemoveClient(client: Addr)

  datatype Response = Response(success: bool, record: ClientRecord, status: Status)

  datatype Outcome = Outcome(ledger: Ledger, response: Response)

  function NewClient(ip: Addr): ClientRecord {
    ClientRecord(ip, STARTING_BALANCE, 0)
  }

  function Registered(l: Ledger, ip: Addr): Outcome {
    if ip in l.records then
      Outcome(l, Response(false, NO_RECORD, DUPLICATE_IP))
    else
      Outcome(l.(records := l.records[ip := NewClient(ip)],
                 totalBalance := ToI32(l.totalBalance + STARTING_BALANCE)),
              Response(true, NewClient(ip), SUCCESS))
  }

  /** One request more, in an unsigned 32-bit field. */
  function Bumped(r: ClientRecord): ClientRecord {
    r.(lastRequest := ToU32(r.lastRequest + 1))
  }

  function Debited(r: ClientRecord, amount: U64): ClientRecord
    requires amount <= r.balance
  {
    r.(balance := r.balance - amount)
  }

  /** The amount more, in an unsigned 64-bit field. */
  function Credited(r: ClientRecord, amount: U64): ClientRecord {
    r.(balance := ToU64(r.balance + amount))
  }

  function Transacted(l: Ledger, sender: Addr, receiver: Addr, amount: U64): Outcome {
    if sender !in l.records then
      Outcome(l, Response(false, NO_RECORD, UNKNOWN_SENDER))
    else if amount == 0 then
      Outcome(l, Response(true, l.records[sender], BALANCE_CHECK))
    else if sender == receiver then
      Outcome(l, Response(false, l.records[sender], DUPLICATE_IP))
    else if receiver !in l.records then
      Outcome(l, Response(false, l.records[sender], UNKNOWN_RECEIVER))
    else
      var bumped := Bumped(l.records[sender]);
      if bumped.balance < amount then
        Outcome(l.(records := l.records[sender := bumped]), Response(false, bumped, INSUFFICIENT_BALANCE))
      else
        var paid := Debited(bumped, amount);
        Outcome(l.(records := l.records[sender := paid][receiver := Credited(l.records[receiver], amount)],
                   totalTransferred := ToU32(l.totalTransferred + amount),
                   numTransactions := ToI32(l.numTransactions + 1)),
                Response(true, paid, SUCCESS))
  }

  function Removed(l: Ledger, ip: Addr): Outcome {
    if ip !in l.records then
      Outcome(l, Response(false, NO_RECORD, NOT_FOUND))
    else
      Outcome(l.(records := l.records - {ip},
                 totalBalance := ToI32(l.totalBalance - l.records[ip].balance)),
              Response(true, l.records[ip], SUCCESS))
  }

  function Apply(l: Ledger, op: Operation): Outcome {
    match op
    case RegisterClient(ip) => Registered(l, ip)
    case MakeTransaction(sender, receiver, amount) => Transacted(l, sender, receiver, amount)
    case RemoveClient(ip) => Removed(l, ip)
  }

  // ---------------------------------------------------------------------------
  // Responses
  // ---------------------------------------------------------------------------

  /** The client that an operation is about: who is registered, pays, or is removed. */
  function Subject(op: Operation): Addr {
    match op
    case RegisterClient(ip) => ip
    case MakeTransaction(sender, _, _) => sender
    case RemoveClient(ip) => ip
  }

  /** The status is settled by who is registered, by the amount, and by the balance of the payer before. */
  lemma StatusTable(l: Ledger, op: Operation)
    ensures var r := Apply(l, op).response;
            && (op.RegisterClient? ==> r.status == if op.ip in l.records then DUPLICATE_IP else SUCCESS)
            && (op.RemoveClient? ==> r.status == if op.client in l.records then SUCCESS else NOT_FOUND)
            && (op.MakeTransaction? ==>
                 r.status == if op.sender !in l.records then UNKNOWN_SENDER
                             else if op.amount == 0 then BALANCE_CHECK
                             else if op.receiver == op.sender then DUPLICATE_IP
                             else if op.receiver !in l.records then UNKNOWN_RECEIVER
                             else if l.records[op.sender].balance < op.amount then INSUFFICIENT_BALANCE
                             else SUCCESS)
            && (r.success <==> r.status == SUCCESS || r.status == BALANCE_CHECK)
  {
  }

  /** The record that comes back is the client's own: as it now is, or as it was if it is removed, or no record if it
      is unknown; a client that was there already is not shown to whoever registers it again. */
  lemma ResponseShows(l: Ledger, op: Operation)
    ensures var out, ip := Apply(l, op), Subject(op);
            out.response.record ==
            if op.RegisterClient? && ip in l.records then NO_RECORD
            else if op.RemoveClient? && ip in l.records then l.records[ip]
            else if ip in out.ledger.records then out.ledger.records[ip] else NO_RECORD
  {
  }

  // ---------------------------------------------------------------------------
  // Money
  // ---------------------------------------------------------------------------

  function Balance(r: ClientRecord): int {
    r.balance
  }

  ghost function MoneyIn(records: map<Addr, ClientRecord>): int {
    Total<Addr, ClientRecord>(records, Balance)
  }

  ghost function Money(l: Ledger): int {
    MoneyIn(l.records)
  }

  lemma MoneyWith(records: map<Addr, ClientRecord>, ip: Addr, r: ClientRecord)
    ensures MoneyIn(records[ip := r]) ==
            MoneyIn(records) + r.balance - (if ip in records then records[ip].balance else 0)
  {
    TotalUpdate<Addr, ClientRecord>(records, Balance, ip, r);
  }

  lemma MoneyWithout(records: map<Addr, ClientRecord>, ip: Addr)
    requires ip in records
    ensures MoneyIn(records) == records[ip].balance + MoneyIn(records - {ip})
  {
    TotalRemove<Addr, ClientRecord>(records, Balance, ip);
  }

  /** Every record carries its key, and the running total agrees with the balances in its 32 bits. */
  ghost predicate Sound(l: Ledger) {
    && (forall ip :: ip in l.records ==> l.records[ip].ip == ip)
    && Congruent(Money(l), l.totalBalance)
  }

  /** What an operation adds to the sum of all balances. */
  function Minted(l: Ledger, op: Operation): int {
    match op
    case RegisterClient(ip) => if ip in l.records then 0 else STARTING_BALANCE
    case MakeTransaction(_, _, _) => 0
    case RemoveClient(ip) => if ip in l.records then -Balance(l.records[ip]) else 0
  }

  /** Two clients never hold more than everybody together. */
  lemma TwoBalances(l: Ledger, a: Addr, b: Addr)
    requires a in l.records && b in l.records && a != b
    ensures l.records[a].balance + l.records[b].balance <= Money(l)
  {
    MoneyWithout(l.records, a);
    TotalAtLeast<Addr, ClientRecord>(l.records - {a}, Balance, b);
  }

  lemma TransactedMoney(l: Ledger, sender: Addr, receiver: Addr, amount: U64)
    ensures var after := Money(Transacted(l, sender, receiver, amount).ledger);
            && Congruent(after, Money(l))
            && (Money(l) < TWO64 ==> after == Money(l))
  {
    var out := Transacted(l, sender, receiver, amount);
    if out.response.status == INSUFFICIENT_BALANCE {
      MoneyWith(l.records, sender, Bumped(l.records[sender]));
    } else if out.response.status == SUCCESS {
      var paid := Debited(Bumped(l.records[sender]), amount);
      var credited := Credited(l.records[receiver], amount);
      MoneyWith(l.records, sender, paid);
      MoneyWith(l.records[sender := paid], receiver, credited);
      TwoBalances(l, sender, receiver);
      var raw := l.records[receiver].balance + amount;
      assert raw - credited.balance == raw / TWO64 * TWO64;
      assert Money(out.ledger) - Money(l) == - (raw / TWO64 * TWO64);
    }
  }

  /** The sum of all balances moves by exactly what the operation mints, in its low 32 bits always and
      as an integer whenever it fits the 64-bit field a credit is made to. */
  lemma ApplyMoney(l: Ledger, op: Operation)
    ensures var after := Money(Apply(l, op).ledger);
            && Congruent(after, Money(l) + Minted(l, op))
            && (Money(l) < TWO64 ==> after == Money(l) + Minted(l, op))
  {
    match op
    case RegisterClient(ip) =>
      MoneyWith(l.records, ip, NewClient(ip));
    case MakeTransaction(sender, receiver, amount) =>
      TransactedMoney(l, sender, receiver, amount);
    case RemoveClient(ip) =>
      if ip in l.records {
        MoneyWithout(l.records, ip);
      }
  }

  /** Every operation keeps a sound ledger sound, even when a credit wraps. */
  lemma ApplySound(l: Ledger, op: Operation)
    requires Sound(l)
    ensures Sound(Apply(l, op).ledger)
  {
    ApplyMoney(l, op);
    TotalFollows(l, op);
    CongruentSum(Money(l), Money(Apply(l, op).ledger), l.totalBalance, Minted(l, op));
  }

  lemma TotalFollows(l: Ledger, op: Operation)
    ensures Apply(l, op).ledger.totalBalance == ToI32(l.totalBalance + Minted(l, op))
  {
    CongruentI32(l.totalBalance, l.totalBalance);
  }

  lemma CongruentSum(m: int, m': int, t: int, delta: int)
    requires Congruent(m, t) && Congruent(m', m + delta)
    ensures Congruent(m', ToI32(t + delta))
  {
    ToI32Congruent(t + delta);
    var a, b, c := (m' - (m + delta)) / TWO32, (m - t) / TWO32, (ToI32(t + delta) - (t + delta)) / TWO32;
    assert m' - ToI32(t + delta) == (a + b - c) * TWO32;
  }
}
