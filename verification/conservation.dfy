/** Money in every reachable state of every interleaving. */
module Conservation {
  import opened MachineInts
  import opened MapSums
  import opened Ledgers
  import opened LockProtocol
  import opened LedgerProgram
  import opened ProgramInvariant
  import opened Refinement
  import opened Interleavings

  // ---------------------------------------------------------------------------
  // Money in flight
  // ---------------------------------------------------------------------------

  /** What a transfer has taken from its sender and not yet given to its receiver. */
  function InFlight(th: Thread): int {
    if th.op.MakeTransaction? && th.pc.TxCredit? then th.op.amount else 0
  }

  /** The money in the records and the money in flight are the money of the indivisible ledger. */
  ghost predicate Accounted(s: State) {
    MoneyIn(s.records) + Total(s.threads, InFlight) == MoneyIn(RecordsOf(s))
  }

  /** How an instruction changes the sum of the balances in the records. */
  function RecordDelta(i: Instr, records: map<Addr, ClientRecord>): int {
    match i
    case InsertRecord(ip, _) => if ip in records then 0 else STARTING_BALANCE
    case EraseRecord(ip, _) => if ip in records then -Balance(records[ip]) else 0
    case Debit(ip, amount, _) =>
      if ip in records && amount <= records[ip].balance then
        Balance(Debited(records[ip], amount)) - Balance(records[ip])
      else 0
    case Credit(ip, amount, _) =>
      if ip in records then Balance(Credited(records[ip], amount)) - Balance(records[ip]) else 0
    case _ => 0
  }

  lemma MembershipMoney(s: State, t: Tid, i: Instr)
    requires t in s.threads && (i.InsertRecord? || i.EraseRecord?)
    ensures MoneyIn(Perform(s, t, i).records) == MoneyIn(s.records) + RecordDelta(i, s.records)
  {
    if i.InsertRecord? {
      MoneyWith(s.records, i.ip, NewClient(i.ip));
    } else if i.ip in s.records {
      MoneyWithout(s.records, i.ip);
    }
  }

  lemma RewriteMoney(s: State, t: Tid, i: Instr)
    requires t in s.threads && (i.BumpRequest? || i.Debit? || i.Credit?)
    ensures MoneyIn(Perform(s, t, i).records) == MoneyIn(s.records) + RecordDelta(i, s.records)
  {
    if i.ip in s.records {
      match i
      case BumpRequest(ip, _) => MoneyWith(s.records, ip, Bumped(s.records[ip]));
      case Debit(ip, amount, _) =>
        if amount <= s.records[ip].balance {
          MoneyWith(s.records, ip, Debited(s.records[ip], amount));
        }
      case Credit(ip, amount, _) => MoneyWith(s.records, ip, Credited(s.records[ip], amount));
    }
  }

  lemma OtherMoney(s: State, t: Tid, i: Instr)
    requires t in s.threads
    requires !i.InsertRecord? && !i.EraseRecord? && !i.BumpRequest? && !i.Debit? && !i.Credit?
    ensures Perform(s, t, i).records == s.records && RecordDelta(i, s.records) == 0
  {
  }

  lemma PerformMoney(s: State, t: Tid, i: Instr)
    requires t in s.threads
    ensures MoneyIn(Perform(s, t, i).records) == MoneyIn(s.records) + RecordDelta(i, s.records)
  {
    if i.InsertRecord? || i.EraseRecord? {
      MembershipMoney(s, t, i);
    } else if i.BumpRequest? || i.Debit? || i.Credit? {
      RewriteMoney(s, t, i);
    } else {
      OtherMoney(s, t, i);
    }
  }

  /** The two sums move apart by nothing. */
  ghost predicate Balanced(s: State, t: Tid)
    requires t in s.threads
  {
    var s' := Exec(s, t);
    RecordDelta(InstrOf(s, t), s.records) + InFlight(s'.threads[t]) - InFlight(s.threads[t]) ==
    MoneyIn(RecordsOf(s')) - MoneyIn(RecordsOf(s))
  }

  lemma BalancedAccounts(s: State, t: Tid)
    requires t in s.threads && Accounted(s) && Balanced(s, t)
    ensures Accounted(Exec(s, t))
  {
    PerformMoney(s, t, InstrOf(s, t));
    TotalUpdate(s.threads, InFlight, t, Exec(s, t).threads[t]);
  }

  lemma QuietMoney(s: State, th: Thread, next: Pc)
    requires GoesTo(s, th, next) && !Effective(th.op, th.pc, next) && ThreadTrue(s.records, th)
    ensures RecordDelta(Code(th.op, th.pc), s.records) + InFlight(th.(pc := next)) - InFlight(th) == 0
  {
    var i := Code(th.op, th.pc);
    PlainCode(th.op, th.pc);
    if th.op.MakeTransaction? {
      assert i.Debit? <==> th.pc.TxDebit?;
      assert i.Credit? <==> th.pc.TxCredit?;
      assert next.TxCredit? ==> th.pc.TxDebit?;
    }
  }

  lemma QuietBalanced(s: State, t: Tid)
    requires Moved(s, t) && !EffectiveStep(s, t)
    ensures Balanced(s, t)
  {
    assert ThreadTrue(s.records, s.threads[t]);
    QuietMoney(s, s.threads[t], Exec(s, t).threads[t].pc);
    QuietStep(s, t);
  }

  lemma RegisterBalanced(s: State, t: Tid)
    requires Moved(s, t) && EffectiveStep(s, t) && s.threads[t].op.RegisterClient?
    ensures Balanced(s, t)
  {
    var ip := s.threads[t].op.ip;
    RegisterWrites(s, t);
    RegisterEffectRecords(s, t);
    MoneyWith(RecordsOf(s), ip, NewClient(ip));
  }

  lemma RemoveBalanced(s: State, t: Tid)
    requires Moved(s, t) && EffectiveStep(s, t) && s.threads[t].op.RemoveClient?
    ensures Balanced(s, t)
  {
    var ip := s.threads[t].op.client;
    assert ThreadTrue(s.records, s.threads[t]);
    RemoveWrites(s, t);
    RemoveEffectRecords(s, t);
    MoneyWithout(RecordsOf(s), ip);
  }

  lemma PoorDeltas(s: State, t: Tid)
    requires Stepped(s, t) && EffectiveStep(s, t) && s.threads[t].op.MakeTransaction? && s.threads[t].pc.TxCheckBalance?
    ensures RecordDelta(InstrOf(s, t), s.records) == InFlight(s.threads[t]) == InFlight(Exec(s, t).threads[t]) == 0
  {
    assert InstrOf(s, t).TestBalance? && Exec(s, t).threads[t].pc.TxUnlockSender?;
  }

  lemma PoorBalanced(s: State, t: Tid)
    requires Moved(s, t) && EffectiveStep(s, t) && s.threads[t].op.MakeTransaction? && s.threads[t].pc.TxCheckBalance?
    ensures Balanced(s, t)
  {
    var sender := s.threads[t].op.sender;
    PoorDeltas(s, t);
    PoorEffectRecords(s, t);
    MoneyWith(RecordsOf(s), sender, Bumped(RecordsOf(s)[sender]));
  }

  lemma ReceiverSeen(s: State, t: Tid)
    requires Moved(s, t) && s.threads[t].op.MakeTransaction? && s.threads[t].pc.TxCredit?
    ensures var receiver := s.threads[t].op.receiver;
            receiver in s.records && RecordsOf(s)[receiver] == s.records[receiver]
  {
    assert ThreadTrue(s.records, s.threads[t]);
    CreditWrites(s, t);
    CreditReceiver(s, t);
    OwnRecord(s, t, s.threads[t].op.receiver);
  }

  lemma MoneyWithTwo(m: map<Addr, ClientRecord>, a: Addr, ra: ClientRecord, b: Addr, rb: ClientRecord)
    requires a in m && b in m && a != b
    ensures MoneyIn(m[a := ra][b := rb]) - MoneyIn(m) ==
            Balance(ra) - Balance(m[a]) + Balance(rb) - Balance(m[b])
  {
    MoneyWith(m, a, ra);
    MoneyWith(m[a := ra], b, rb);
  }

  /** Paying moves the sum of the balances by what the credit adds less the amount. */
  lemma PaidMoney(m: map<Addr, ClientRecord>, op: Operation)
    requires op.MakeTransaction? && op.sender in m && op.receiver in m && op.sender != op.receiver
    requires op.amount <= Bumped(m[op.sender]).balance
    ensures MoneyIn(m[op.sender := Debited(Bumped(m[op.sender]), op.amount)]
                     [op.receiver := Credited(m[op.receiver], op.amount)]) ==
            MoneyIn(m) - op.amount + Balance(Credited(m[op.receiver], op.amount)) - Balance(m[op.receiver])
  {
    MoneyWithTwo(m, op.sender, Debited(Bumped(m[op.sender]), op.amount),
                 op.receiver, Credited(m[op.receiver], op.amount));
  }

  lemma CreditDeltas(s: State, t: Tid)
    requires Moved(s, t) && EffectiveStep(s, t) && s.threads[t].op.MakeTransaction? && s.threads[t].pc.TxCredit?
    ensures var op := s.threads[t].op;
            && op.receiver in s.records
            && RecordDelta(InstrOf(s, t), s.records) ==
               Balance(Credited(s.records[op.receiver], op.amount)) - Balance(s.records[op.receiver])
            && InFlight(s.threads[t]) == op.amount && InFlight(Exec(s, t).threads[t]) == 0
  {
    assert ThreadTrue(s.records, s.threads[t]);
    CreditWrites(s, t);
    ReceiverSeen(s, t);
  }

  lemma CreditBalanced(s: State, t: Tid)
    requires Moved(s, t) && EffectiveStep(s, t) && s.threads[t].op.MakeTransaction? && s.threads[t].pc.TxCredit?
    ensures Balanced(s, t)
  {
    CreditDeltas(s, t);
    ReceiverSeen(s, t);
    CreditEffectRecords(s, t);
    PaidMoney(RecordsOf(s), s.threads[t].op);
  }

  lemma StepAccounted(s: State, t: Tid)
    requires Moved(s, t) && Accounted(s)
    ensures Accounted(Exec(s, t))
  {
    if !EffectiveStep(s, t) {
      QuietBalanced(s, t);
    } else if s.threads[t].op.RegisterClient? {
      RegisterBalanced(s, t);
    } else if s.threads[t].op.RemoveClient? {
      RemoveBalanced(s, t);
    } else if s.threads[t].pc.TxCredit? {
      CreditBalanced(s, t);
    } else {
      PoorBalanced(s, t);
    }
    BalancedAccounts(s, t);
  }

  lemma SpawnAccounted(s: State, t: Tid, op: Operation)
    requires Inv(s) && CanSpawn(s, t) && Accounted(s)
    ensures Accounted(Spawn(s, t, op))
  {
    TotalUpdate(s.threads, InFlight, t, Spawn(s, t, op).threads[t]);
    SpawnRecords(s, t, op);
  }

  lemma InitialAccounted(l: Ledger)
    ensures Accounted(Initial(l))
  {
    InitialAbs(l);
  }

  lemma {:induction false} RunAccounted(l: Ledger, moves: seq<Move>)
    requires Sound(l) && Feasible(Initial(l), moves)
    ensures Accounted(Final(Initial(l), moves))
    decreases |moves|
  {
    if moves == [] {
      InitialAccounted(l);
    } else {
      var before := moves[..|moves| - 1];
      var s := Final(Initial(l), before);
      RunAccounted(l, before);
      Linearizable(l, before);
      match moves[|moves| - 1]
      case Call(t, op) => SpawnAccounted(s, t, op);
      case Step(t) =>
        StepInv(s, t);
        StepLocks(s, t);
        StepAccounted(s, t);
    }
  }

  // ---------------------------------------------------------------------------
  // Conservation
  // ---------------------------------------------------------------------------

  lemma {:induction false} ReplaySound(l: Ledger, h: seq<Entry>)
    requires Sound(l)
    ensures Sound(Replay(l, h))
    decreases |h|
  {
    if h != [] {
      ReplaySound(l, h[..|h| - 1]);
      ApplySound(Replay(l, h[..|h| - 1]), h[|h| - 1].op);
    }
  }

  /** What the clients have and what has been debited but not yet credited is, in 32 bits, the running total
      plus what has been registered but not yet counted and less what has been removed but not yet subtracted. */
  ghost predicate ConservedIn(s: State) {
    Congruent(MoneyIn(s.records) + Total(s.threads, InFlight), s.totalBalance + Total(s.threads, PendingBalance))
  }

  lemma CongruentVia(x: int, y: int)
    requires Congruent(x, ToI32(y))
    ensures Congruent(x, y)
  {
    ToI32Congruent(y);
    var a, b := (x - ToI32(y)) / TWO32, (ToI32(y) - y) / TWO32;
    assert x - y == (a + b) * TWO32;
  }

  lemma SoundConserved(s: State)
    requires Sound(Abs(s)) && Accounted(s)
    ensures ConservedIn(s)
  {
    CongruentVia(Money(Abs(s)), s.totalBalance + Total(s.threads, PendingBalance));
  }

  lemma RunSound(l: Ledger, moves: seq<Move>)
    requires Sound(l) && Feasible(Initial(l), moves)
    ensures Sound(Abs(Final(Initial(l), moves)))
  {
    Linearizable(l, moves);
    ReplaySound(l, History(Initial(l), moves));
  }

  /** Conservation, in every state of every run. */
  lemma Conserved(l: Ledger, moves: seq<Move>)
    requires Sound(l) && Feasible(Initial(l), moves)
    ensures ConservedIn(Final(Initial(l), moves))
  {
    RunAccounted(l, moves);
    RunSound(l, moves);
    SoundConserved(Final(Initial(l), moves));
  }

  // ---------------------------------------------------------------------------
  // The exact sum
  // ---------------------------------------------------------------------------

  /** What the operations of a history add to the sum of all balances. */
  function MintedBy(l: Ledger, h: seq<Entry>): int {
    if h == [] then 0
    else MintedBy(l, h[..|h| - 1]) + Minted(Replay(l, h[..|h| - 1]), h[|h| - 1].op)
  }

  /** The successful registrations in a history. */
  function Registrations(h: seq<Entry>): nat {
    if h == [] then 0
    else
      var e := h[|h| - 1];
      Registrations(h[..|h| - 1]) + (if e.op.RegisterClient? && e.status == SUCCESS then 1 else 0)
  }

  /** As long as all the starting balances ever given out fit a 64-bit balance, no credit wraps and the sum of
      the balances is exact: what there was, plus 100000 for each registration, less what removals took. */
  lemma {:induction false} ExactMoney(l: Ledger, h: seq<Entry>)
    requires Faithful(l, h) && Money(l) + STARTING_BALANCE * Registrations(h) < TWO64
    ensures Money(Replay(l, h)) == Money(l) + MintedBy(l, h) <= Money(l) + STARTING_BALANCE * Registrations(h)
    decreases |h|
  {
    if h != [] {
      var before := h[..|h| - 1];
      ExactMoney(l, before);
      ApplyMoney(Replay(l, before), h[|h| - 1].op);
    }
  }

  lemma CreditFits(s: State, t: Tid, receiver: Addr)
    requires t in s.threads && s.threads[t].op.MakeTransaction? && s.threads[t].pc.TxCredit?
    requires receiver in s.records && Accounted(s) && Money(Abs(s)) < TWO64
    ensures s.records[receiver].balance + s.threads[t].op.amount < TWO64
  {
    TotalAtLeast<Tid, Thread>(s.threads, InFlight, t);
    TotalAtLeast<Addr, ClientRecord>(s.records, Balance, receiver);
  }

  lemma ReceiverPresent(s: State, t: Tid)
    requires Inv(s) && Enabled(s, t) && s.threads[t].op.MakeTransaction? && s.threads[t].pc.TxCredit?
    ensures var op := s.threads[t].op;
            && op.receiver in s.records
            && Exec(s, t).records == s.records[op.receiver := Credited(s.records[op.receiver], op.amount)]
  {
    StepLocks(s, t);
    assert ThreadTrue(s.records, s.threads[t]);
    CreditWrites(s, t);
    HeldRegistered(s, t, s.threads[t].op.receiver);
  }

  lemma CreditAdds(s: State, t: Tid)
    requires Inv(s) && Accounted(s) && Money(Abs(s)) < TWO64
    requires Enabled(s, t) && s.threads[t].op.MakeTransaction? && s.threads[t].pc.TxCredit?
    ensures AddsExactly(s, t)
  {
    var op := s.threads[t].op;
    ReceiverPresent(s, t);
    CreditFits(s, t, op.receiver);
    CreditsUnwrapped(s.records, Exec(s, t).records, op.receiver, op.amount);
  }

  lemma CreditsUnwrapped(records: map<Addr, ClientRecord>, records': map<Addr, ClientRecord>, ip: Addr, amount: U64)
    requires ip in records && records[ip].balance + amount < TWO64
    requires records' == records[ip := Credited(records[ip], amount)]
    ensures ip in records' && records'[ip].balance == records[ip].balance + amount
  {
  }

  /** The receiver's balance grows by the amount, without wrapping. */
  ghost predicate AddsExactly(s: State, t: Tid)
    requires t in s.threads && s.threads[t].op.MakeTransaction?
  {
    var receiver, amount := s.threads[t].op.receiver, s.threads[t].op.amount;
    && receiver in s.records && receiver in Exec(s, t).records
    && Exec(s, t).records[receiver].balance == s.records[receiver].balance + amount
  }

  lemma RunMoney(l: Ledger, moves: seq<Move>)
    requires Sound(l) && Feasible(Initial(l), moves)
    requires Money(l) + STARTING_BALANCE * Registrations(History(Initial(l), moves)) < TWO64
    ensures var s := Final(Initial(l), moves);
            Inv(s) && Accounted(s) && Money(Abs(s)) < TWO64
  {
    Linearizable(l, moves);
    RunAccounted(l, moves);
    ExactMoney(l, History(Initial(l), moves));
  }

  /** In every run, as long as the starting balances ever given out fit a 64-bit balance, every credit that is about
      to be written adds exactly its amount. */
  lemma CreditsExact(l: Ledger, moves: seq<Move>, t: Tid)
    requires Sound(l) && Feasible(Initial(l), moves)
    requires Money(l) + STARTING_BALANCE * Registrations(History(Initial(l), moves)) < TWO64
    requires var s := Final(Initial(l), moves);
             Enabled(s, t) && s.threads[t].op.MakeTransaction? && s.threads[t].pc.TxCredit?
    ensures AddsExactly(Final(Initial(l), moves), t)
  {
    RunMoney(l, moves);
    CreditAdds(Final(Initial(l), moves), t);
  }

  /** From an empty database that is the case up to 184467440737095 registrations. */
  lemma CreditsExactFromEmpty(moves: seq<Move>, t: Tid)
    requires Feasible(Initial(EMPTY), moves) && Registrations(History(Initial(EMPTY), moves)) <= 184467440737095
    requires var s := Final(Initial(EMPTY), moves);
             Enabled(s, t) && s.threads[t].op.MakeTransaction? && s.threads[t].pc.TxCredit?
    ensures AddsExactly(Final(Initial(EMPTY), moves), t)
  {
    EmptySound();
    CreditsExact(EMPTY, moves, t);
  }

  lemma EmptySound()
    ensures Sound(EMPTY) && Money(EMPTY) == 0
  {
    assert Money(EMPTY) == 0;
  }

  /** A set of 32-bit addresses has at most 2^32 members. */
  lemma {:induction false} AddressesBounded(s: set<Addr>, n: nat)
    requires forall x :: x in s ==> x < n
    ensures |s| <= n
    decreases n
  {
    if n == 0 {
      assert s == {};
    } else {
      var last := n - 1;
      var rest := set x | x in s && x != last;
      AddressesBounded(rest, last);
      assert s <= rest + {last};
      SubsetSmaller(s, rest + {last});
    }
  }

  /** Where nobody is ever removed the sum is 100000 per client, so that no balance can wrap. */
  lemma {:induction false} UnremovedMoney(h: seq<Entry>)
    requires forall i :: 0 <= i < |h| ==> !h[i].op.RemoveClient?
    ensures Money(Replay(EMPTY, h)) == STARTING_BALANCE * |Replay(EMPTY, h).records| < TWO64
    decreases |h|
  {
    var l := Replay(EMPTY, h);
    assert |l.records| <= TWO32 by {
      assert |l.records| == |l.records.Keys|;
      AddressesBounded(l.records.Keys, TWO32);
    }
    if h != [] {
      var before := Replay(EMPTY, h[..|h| - 1]);
      UnremovedMoney(h[..|h| - 1]);
      ApplyMoney(before, h[|h| - 1].op);
      UnremovedMembers(before, h[|h| - 1].op);
    }
  }

  lemma UnremovedMembers(l: Ledger, op: Operation)
    requires !op.RemoveClient?
    ensures |Apply(l, op).ledger.records| == |l.records| + (if op.RegisterClient? && op.ip !in l.records then 1 else 0)
  {
    var records := Apply(l, op).ledger.records;
    if op.RegisterClient? && op.ip !in l.records {
      assert records.Keys == l.records.Keys + {op.ip};
    } else {
      assert records.Keys == l.records.Keys;
    }
  }

  // ---------------------------------------------------------------------------
  // At rest
  // ---------------------------------------------------------------------------

  ghost predicate AtRest(s: State) {
    forall t :: t in s.threads ==> Ended(s.threads[t].pc)
  }

  /** When every call has come to its end, the shared state is the indivisible ledger itself, each client has a free
      mutex, and the running total is the sum of the balances in 32 bits. */
  lemma RestingState(l: Ledger, moves: seq<Move>)
    requires Sound(l) && Feasible(Initial(l), moves) && AtRest(Final(Initial(l), moves))
    ensures var s := Final(Initial(l), moves);
            && Ledger(s.records, s.totalBalance, s.totalTransferred, s.numTransactions)
               == Replay(l, History(Initial(l), moves))
            && s.entries.Keys == s.records.Keys
            && (forall ip :: ip in s.entries ==> Free(LocksOf(s), s.entries[ip]))
            && Congruent(MoneyIn(s.records), s.totalBalance)
  {
    var s := Final(Initial(l), moves);
    Linearizable(l, moves);
    RunSound(l, moves);
    RestingView(s);
    RestingLocks(s);
  }

  lemma RestingCounters(s: State)
    requires AtRest(s)
    ensures BalanceOf(s) == s.totalBalance && TransferredOf(s) == s.totalTransferred && CountOf(s) == s.numTransactions
  {
    TotalZero(s.threads, PendingBalance);
    TotalZero(s.threads, PendingTransferred);
    TotalZero(s.threads, PendingCount);
    Unmoved(s.totalBalance, s.totalTransferred);
    Unmoved(s.numTransactions, 0);
  }

  lemma RestingView(s: State)
    requires AtRest(s)
    ensures Abs(s) == Ledger(s.records, s.totalBalance, s.totalTransferred, s.numTransactions)
  {
    RestingCounters(s);
    forall ip | ip in s.records ensures AbsRecord(s, ip) == s.records[ip] {
    }
    assert RecordsOf(s) == s.records;
  }

  lemma RestingStance(s: State, t: Tid)
    requires AtRest(s) && t in s.threads
    ensures Stances(s)[t].held == {} && Stances(s)[t].claim.Nothing? && !Stances(s)[t].gate
  {
    EndedStance(s.threads[t].op, s.threads[t].pc);
  }

  lemma EndedStance(op: Operation, pc: Pc)
    requires Ended(pc)
    ensures StanceAt(op, pc).held == {} && StanceAt(op, pc).claim.Nothing? && !StanceAt(op, pc).gate
  {
  }

  lemma RestingEntry(s: State, ip: Addr)
    requires Inv(s) && AtRest(s) && ip in s.entries
    ensures ip in s.records && Free(LocksOf(s), s.entries[ip])
  {
    var locks, vs := LocksOf(s), Stances(s);
    forall t | t in vs ensures vs[t].held == {} && vs[t].claim.Nothing? {
      RestingStance(s, t);
    }
    assert EntryTrue(locks, vs, ip);
    if s.entries[ip] in s.mutexes {
      assert MutexTrue(locks, vs, s.entries[ip]);
    }
  }

  lemma RestingLocks(s: State)
    requires Inv(s) && AtRest(s)
    ensures s.entries.Keys == s.records.Keys
    ensures forall ip :: ip in s.entries ==> Free(LocksOf(s), s.entries[ip])
  {
    assert LocksOf(s).members <= LocksOf(s).entries.Keys;
    forall ip | ip in s.entries ensures ip in s.records && Free(LocksOf(s), s.entries[ip]) {
      RestingEntry(s, ip);
    }
  }
}
