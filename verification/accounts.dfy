/** Each client's account after any interleaving, told from nothing but the calls and the statuses they returned. */
module Accounts {
  import opened MachineInts
  import opened Wrappers
  import opened Ledgers
  import opened LedgerProgram
  import opened Refinement
  import opened Interleavings
  import opened Conservation

  /** What a client has, and how many of its requests were counted. */
  datatype Account = Account(balance: int, requests: int)

  /** What one call with its status says about the account of `ip`. */
  function Posted(account: Option<Account>, ip: Addr, op: Operation, status: Status): Option<Account> {
    match op
    case RegisterClient(client) =>
      if client == ip && status == SUCCESS then Some(Account(STARTING_BALANCE, 0)) else account
    case RemoveClient(client) => if client == ip && status == SUCCESS then None else account
    case MakeTransaction(sender, receiver, amount) =>
      if account.None? then None
      else if sender == ip && status == SUCCESS then
        Some(Account(account.value.balance - amount, account.value.requests + 1))
      else if sender == ip && status == INSUFFICIENT_BALANCE then
        Some(account.value.(requests := account.value.requests + 1))
      else if receiver == ip && status == SUCCESS then
        Some(account.value.(balance := ToU64(account.value.balance + amount)))
      else account
  }

  function AccountIn(l: Ledger, ip: Addr): Option<Account> {
    if ip in l.records then Some(Account(l.records[ip].balance, l.records[ip].lastRequest)) else None
  }

  function AccountAfter(l: Ledger, h: seq<Entry>, ip: Addr): Option<Account> {
    if h == [] then AccountIn(l, ip)
    else Posted(AccountAfter(l, h[..|h| - 1], ip), ip, h[|h| - 1].op, h[|h| - 1].status)
  }

  /** The account is that of the ledger, up to the width in which requests are counted. */
  ghost predicate Kept(account: Option<Account>, l: Ledger, ip: Addr) {
    if ip in l.records then
      account.Some? && account.value.balance == l.records[ip].balance &&
      ToU32(account.value.requests) == l.records[ip].lastRequest
    else account.None?
  }

  lemma PostedKeeps(account: Option<Account>, l: Ledger, ip: Addr, op: Operation)
    requires Kept(account, l, ip)
    ensures var out := Apply(l, op);
            Kept(Posted(account, ip, op, out.response.status), out.ledger, ip)
  {
    StatusTable(l, op);
    if account.Some? {
      NextRequests(account.value.requests);
    }
  }

  lemma NextRequests(n: int)
    ensures ToU32(ToU32(n) + 1) == ToU32(n + 1)
  {
  }

  /** The client that an operation names besides its subject. */
  function Payee(op: Operation): Addr {
    if op.MakeTransaction? then op.receiver else Subject(op)
  }

  /** The status that the accounts of the two call for. */
  function Called(subject: Option<Account>, payee: Option<Account>, op: Operation): Status {
    match op
    case RegisterClient(_) => if subject.Some? then DUPLICATE_IP else SUCCESS
    case RemoveClient(_) => if subject.Some? then SUCCESS else NOT_FOUND
    case MakeTransaction(sender, receiver, amount) =>
      if subject.None? then UNKNOWN_SENDER
      else if amount == 0 then BALANCE_CHECK
      else if receiver == sender then DUPLICATE_IP
      else if payee.None? then UNKNOWN_RECEIVER
      else if subject.value.balance < amount then INSUFFICIENT_BALANCE
      else SUCCESS
  }

  lemma CalledIs(l: Ledger, op: Operation, subject: Option<Account>, payee: Option<Account>)
    requires Kept(subject, l, Subject(op)) && Kept(payee, l, Payee(op))
    ensures Apply(l, op).response.status == Called(subject, payee, op)
  {
    StatusTable(l, op);
  }

  lemma {:induction false} AccountsKept(l: Ledger, h: seq<Entry>, ip: Addr)
    requires Faithful(l, h)
    ensures Kept(AccountAfter(l, h, ip), Replay(l, h), ip)
    decreases |h|
  {
    if h == [] {
    } else {
      var n := |h| - 1;
      AccountsKept(l, h[..n], ip);
      PostedKeeps(AccountAfter(l, h[..n], ip), Replay(l, h[..n]), ip, h[n].op);
    }
  }

  lemma {:induction false} FaithfulAt(l: Ledger, h: seq<Entry>, i: nat)
    requires Faithful(l, h) && i < |h|
    ensures Faithful(l, h[..i]) && Apply(Replay(l, h[..i]), h[i].op).response.status == h[i].status
    decreases |h|
  {
    var n := |h| - 1;
    if i < n {
      FaithfulAt(l, h[..n], i);
      assert h[..n][..i] == h[..i];
    }
  }

  lemma RunFaithful(l: Ledger, moves: seq<Move>)
    requires Sound(l) && Feasible(Initial(l), moves)
    ensures Faithful(l, History(Initial(l), moves))
  {
    Linearizable(l, moves);
  }

  ghost predicate CalledAt(l: Ledger, h: seq<Entry>, i: nat)
    requires i < |h|
  {
    h[i].status ==
    Called(AccountAfter(l, h[..i], Subject(h[i].op)), AccountAfter(l, h[..i], Payee(h[i].op)), h[i].op)
  }

  lemma StatusAt(l: Ledger, h: seq<Entry>, i: nat)
    requires Faithful(l, h) && i < |h|
    ensures CalledAt(l, h, i)
  {
    FaithfulAt(l, h, i);
    AccountsKept(l, h[..i], Subject(h[i].op));
    AccountsKept(l, h[..i], Payee(h[i].op));
    CalledIs(Replay(l, h[..i]), h[i].op,
             AccountAfter(l, h[..i], Subject(h[i].op)), AccountAfter(l, h[..i], Payee(h[i].op)));
  }

  /** In any run, the statuses of the calls, in the order in which they took effect, are those that the accounts
      before them call for. */
  lemma StatusesAddUp(l: Ledger, moves: seq<Move>)
    requires Sound(l) && Feasible(Initial(l), moves)
    ensures var h := History(Initial(l), moves); forall i :: 0 <= i < |h| ==> CalledAt(l, h, i)
  {
    RunFaithful(l, moves);
    var h := History(Initial(l), moves);
    forall i | 0 <= i < |h| ensures CalledAt(l, h, i) {
      StatusAt(l, h, i);
    }
  }

  /** When all calls have returned, every record is what the accounts say, and there are no others. */
  lemma BalancesAddUp(l: Ledger, moves: seq<Move>, ip: Addr)
    requires Sound(l) && Feasible(Initial(l), moves) && AtRest(Final(Initial(l), moves))
    ensures var s, account := Final(Initial(l), moves), AccountAfter(l, History(Initial(l), moves), ip);
            && (ip in s.records <==> account.Some?)
            && (ip in s.records ==>
                 && s.records[ip].balance == account.value.balance
                 && s.records[ip].lastRequest == ToU32(account.value.requests))
  {
    Linearizable(l, moves);
    RestingState(l, moves);
    AccountsKept(l, History(Initial(l), moves), ip);
  }

  // ---------------------------------------------------------------------------
  // The totals
  // ---------------------------------------------------------------------------

  predicate IsPayment(e: Entry) {
    e.op.MakeTransaction? && e.status == SUCCESS
  }

  function Payments(h: seq<Entry>): nat {
    if h == [] then 0 else Payments(h[..|h| - 1]) + if IsPayment(h[|h| - 1]) then 1 else 0
  }

  function Volume(h: seq<Entry>): nat {
    if h == [] then 0 else Volume(h[..|h| - 1]) + if IsPayment(h[|h| - 1]) then h[|h| - 1].op.amount else 0
  }

  /** From `l` to `l'`, the totals have grown by so many payments of so much, in 32 bits. */
  ghost predicate Tallied(l: Ledger, l': Ledger, payments: nat, volume: nat) {
    && l'.numTransactions == ToI32(l.numTransactions + payments)
    && l'.totalTransferred == ToU32(l.totalTransferred + volume)
  }

  lemma TallyStep(l: Ledger, l': Ledger, payments: nat, volume: nat, op: Operation)
    requires Tallied(l, l', payments, volume)
    ensures var out := Apply(l', op);
            if op.MakeTransaction? && out.response.status == SUCCESS then
              Tallied(l, out.ledger, payments + 1, volume + op.amount)
            else Tallied(l, out.ledger, payments, volume)
  {
    StatusTable(l', op);
    if op.MakeTransaction? {
      NextTally(l.numTransactions + payments, l.totalTransferred + volume, op.amount);
    }
  }

  lemma NextTally(n: int, m: int, amount: int)
    ensures ToI32(ToI32(n) + 1) == ToI32(n + 1)
    ensures ToU32(ToU32(m) + amount) == ToU32(m + amount)
  {
  }

  lemma {:induction false} TallyKept(l: Ledger, h: seq<Entry>)
    requires Faithful(l, h)
    ensures Tallied(l, Replay(l, h), Payments(h), Volume(h))
    decreases |h|
  {
    if h == [] {
      Unmoved(l.numTransactions, l.totalTransferred);
    } else {
      var n := |h| - 1;
      TallyKept(l, h[..n]);
      TallyStep(l, Replay(l, h[..n]), Payments(h[..n]), Volume(h[..n]), h[n].op);
    }
  }

  /** When all calls have returned, the two totals have grown by the number and the amounts of the transfers that
      returned success. */
  lemma TotalsAddUp(l: Ledger, moves: seq<Move>)
    requires Sound(l) && Feasible(Initial(l), moves) && AtRest(Final(Initial(l), moves))
    ensures var s, h := Final(Initial(l), moves), History(Initial(l), moves);
            Tallied(l, Ledger(s.records, s.totalBalance, s.totalTransferred, s.numTransactions), Payments(h), Volume(h))
  {
    RunFaithful(l, moves);
    RestingState(l, moves);
    TallyKept(l, History(Initial(l), moves));
  }
}
