/** The interleaved program refines the ledger with indivisible operations. */
module Refinement {
  import opened MachineInts
  import opened Wrappers
  import opened MapSums
  import opened Ledgers
  import opened LockProtocol
  import opened LedgerProgram
  import opened ProgramInvariant

  // ---------------------------------------------------------------------------
  // The indivisible ledger an interleaved state stands for
  // ---------------------------------------------------------------------------

  /** A transfer takes effect when the credit is written; until then its writes to the sender are undone. */
  function Restored(th: Thread, ip: Addr, r: ClientRecord): ClientRecord {
    if !th.op.MakeTransaction? || ip != th.op.sender then r
    else if th.pc.TxCheckBalance? || th.pc.TxDebit? then Unbumped(r)
    else if th.pc.TxCredit? then Credited(Unbumped(r), th.op.amount)
    else r
  }

  function Unbumped(r: ClientRecord): ClientRecord {
    r.(lastRequest := ToU32(r.lastRequest - 1))
  }

  function HolderOf(s: State, ip: Addr): Option<Tid> {
    if ip in s.entries && s.entries[ip] in s.mutexes then s.mutexes[s.entries[ip]] else None
  }

  function AbsRecord(s: State, ip: Addr): ClientRecord
    requires ip in s.records
  {
    var holder := HolderOf(s, ip);
    if holder.Some? && holder.value in s.threads then Restored(s.threads[holder.value], ip, s.records[ip])
    else s.records[ip]
  }

  /** Effects on the counters that are still to come from operations that have taken effect. */
  function PendingBalance(th: Thread): int {
    if th.op.RegisterClient? && (th.pc.RegUnlock? || th.pc.RegGate2? || th.pc.RegCount?) then STARTING_BALANCE
    else if th.op.RemoveClient? &&
            (th.pc.RmGate2? || th.pc.RmUnlock? || th.pc.RmDestroy? || th.pc.RmEraseEntry? || th.pc.RmOpenGate2? ||
             th.pc.RmGate3? || th.pc.RmCount?) then -Balance(th.copy)
    else 0
  }

  function PendingTransferred(th: Thread): int {
    if th.op.MakeTransaction? &&
       (th.pc == TxUnlockSender(SUCCESS) || th.pc == TxUnlockReceiver(SUCCESS) || th.pc.TxMeta? ||
        th.pc.TxAddTransferred?)
    then th.op.amount else 0
  }

  function PendingCount(th: Thread): int {
    if th.op.MakeTransaction? &&
       (th.pc == TxUnlockSender(SUCCESS) || th.pc == TxUnlockReceiver(SUCCESS) || th.pc.TxMeta? ||
        th.pc.TxAddTransferred? ||
        th.pc.TxAddCount?)
    then 1 else 0
  }

  function RecordsOf(s: State): map<Addr, ClientRecord> {
    map ip | ip in s.records :: AbsRecord(s, ip)
  }

  ghost function BalanceOf(s: State): I32 {
    ToI32(s.totalBalance + Total(s.threads, PendingBalance))
  }

  ghost function TransferredOf(s: State): U32 {
    ToU32(s.totalTransferred + Total(s.threads, PendingTransferred))
  }

  ghost function CountOf(s: State): I32 {
    ToI32(s.numTransactions + Total(s.threads, PendingCount))
  }

  ghost function Abs(s: State): Ledger {
    Ledger(RecordsOf(s), BalanceOf(s), TransferredOf(s), CountOf(s))
  }

  /** The status an operation has settled on, once it has taken effect. */
  function Committed(pc: Pc): Option<Status> {
    match pc
    case RegOpenGate(inserted) => if inserted then None else Some(DUPLICATE_IP)
    case RegDropMutex | RegDupUnlock => Some(DUPLICATE_IP)
    case RegUnlock | RegGate2 | RegCount | RegOpenGate2 => Some(SUCCESS)
    case TxNoSender => Some(UNKNOWN_SENDER)
    case TxProbeSender => Some(UNKNOWN_RECEIVER)
    case TxEarlyUnlock(status) => Some(status)
    case TxEarlyOpen(status) => Some(status)
    case TxReread(status) => Some(status)
    case TxUnlockSender(status) => Some(status)
    case TxUnlockReceiver(status) => Some(status)
    case TxMeta | TxAddTransferred | TxAddCount | TxOpenMeta => Some(SUCCESS)
    case RmMissing => Some(NOT_FOUND)
    case RmGate2 | RmUnlock | RmDestroy | RmEraseEntry | RmOpenGate2 | RmGate3 | RmCount | RmOpenGate3 => Some(SUCCESS)
    case Done(status) => Some(status)
    case Thrown(status) => Some(status)
    case _ => None
  }

  // ---------------------------------------------------------------------------
  // Records, seen through their mutexes
  // ---------------------------------------------------------------------------

  ghost predicate HeldByOther(s: State, t: Tid, ip: Addr) {
    exists u :: u in s.threads && u != t && ip in Stances(s)[u].held
  }

  lemma HolderKnown(s: State, t: Tid, ip: Addr)
    requires Inv(s) && t in s.threads
    ensures ip in Stances(s)[t].held <==> HolderOf(s, ip) == Some(t)
    ensures HolderOf(s, ip).Some? ==> HolderOf(s, ip).value in s.threads
  {
    assert StanceTrue(LocksOf(s), t, Stances(s)[t]);
    if HolderOf(s, ip).Some? {
      assert EntryTrue(LocksOf(s), Stances(s), ip);
      assert MutexTrue(LocksOf(s), Stances(s), s.entries[ip]);
    }
  }

  lemma UndoneHeld(th: Thread, ip: Addr, r: ClientRecord)
    ensures Restored(th, ip, r) != r ==> ip in StanceOf(th).held
  {
  }

  /** A record no other thread holds is seen as this thread's progress makes it. */
  lemma SeenByMe(s: State, t: Tid, ip: Addr)
    requires Inv(s) && t in s.threads && ip in s.records && !HeldByOther(s, t, ip)
    ensures AbsRecord(s, ip) == Restored(s.threads[t], ip, s.records[ip])
  {
    HolderKnown(s, t, ip);
    UndoneHeld(s.threads[t], ip, s.records[ip]);
    var holder := HolderOf(s, ip);
    if holder.Some? && holder != Some(t) {
      HolderKnown(s, holder.value, ip);
    }
  }

  lemma OthersRecordStays(s: State, t: Tid, u: Tid, ip: Addr)
    requires Inv(s) && Enabled(s, t) && u in s.threads && u != t && ip in Stances(s)[u].held
    ensures SameRecord(s.records, Exec(s, t).records, ip)
  {
    PerformWrites(s, t, InstrOf(s, t));
    if Written(InstrOf(s, t)).Some? {
      WriterHolds(s, t);
      HeldApart(s, t, u, Written(InstrOf(s, t)).value);
    }
  }

  /** A record another thread holds is seen the same before and after this thread's step. */
  lemma SeenByOther(s: State, t: Tid, ip: Addr)
    requires Inv(s) && Enabled(s, t) && BothTrue(s, Exec(s, t)) && HeldByOther(s, t, ip)
    ensures SameView(s, Exec(s, t), ip)
  {
    var u :| u in s.threads && u != t && ip in Stances(s)[u].held;
    OthersRecordStays(s, t, u, ip);
    SeenThrough(s, Exec(s, t), u, ip);
  }

  ghost predicate SameView(s: State, s': State, ip: Addr) {
    && (ip in s'.records <==> ip in s.records)
    && (ip in s.records ==> AbsRecord(s', ip) == AbsRecord(s, ip))
  }

  ghost predicate BothTrue(s: State, s': State) {
    Inv(s) && Inv(s')
  }

  /** A record that is not written, held by the same thread at the same point, is seen the same. */
  lemma SeenThrough(s: State, s': State, u: Tid, ip: Addr)
    requires BothTrue(s, s') && u in s.threads && u in s'.threads && s'.threads[u] == s.threads[u]
    requires ip in Stances(s)[u].held && SameRecord(s.records, s'.records, ip)
    ensures SameView(s, s', ip)
  {
    HolderKnown(s, u, ip);
    HolderKnown(s', u, ip);
  }

  lemma HeldByOtherSame(s: State, t: Tid, ip: Addr)
    requires t in s.threads
    ensures HeldByOther(Exec(s, t), t, ip) <==> HeldByOther(s, t, ip)
  {
    var s' := Exec(s, t);
    if HeldByOther(s', t, ip) {
      var u :| u in s'.threads && u != t && ip in Stances(s')[u].held;
      assert u in s.threads && ip in Stances(s)[u].held;
    }
    if HeldByOther(s, t, ip) {
      var u :| u in s.threads && u != t && ip in Stances(s)[u].held;
      assert u in s'.threads && ip in Stances(s')[u].held;
    }
  }

  // ---------------------------------------------------------------------------
  // Counters
  // ---------------------------------------------------------------------------

  lemma WrapTwice(x: int, y: int)
    ensures ToI32(ToI32(x) + y) == ToI32(x + y)
    ensures ToU32(ToU32(x) + y) == ToU32(x + y)
  {
    ToI32Congruent(x);
    ToI32Congruent(x + y);
    ToI32Congruent(ToI32(x) + y);
    var a := (ToI32(x) - x) / TWO32;
    var b := (ToI32(ToI32(x) + y) - (ToI32(x) + y)) / TWO32;
    assert ToI32(ToI32(x) + y) - (x + y) == (a + b) * TWO32;
    assert Congruent(ToI32(ToI32(x) + y), x + y);
    CongruentI32(ToI32(ToI32(x) + y), x + y);
  }

  /** A counter and its backlog over all threads, when one thread moves on. */
  lemma Carried(count: int, threads: map<Tid, Thread>, backlog: Thread -> int, t: Tid, th: Thread, delta: int, d: int)
    requires t in threads && delta == d - backlog(th) + backlog(threads[t])
    ensures ToI32(ToI32(count + delta) + Total(threads[t := th], backlog)) ==
            ToI32(ToI32(count + Total(threads, backlog)) + d)
    ensures ToU32(ToU32(count + delta) + Total(threads[t := th], backlog)) ==
            ToU32(ToU32(count + Total(threads, backlog)) + d)
  {
    TotalUpdate(threads, backlog, t, th);
    WrapTwice(count + delta, Total(threads[t := th], backlog));
    WrapTwice(count + Total(threads, backlog), d);
    assert count + delta + Total(threads[t := th], backlog) == count + Total(threads, backlog) + d;
  }

  /** What an instruction adds to each counter. */
  function BalanceDelta(i: Instr, th: Thread): int {
    if i.CountStart? then STARTING_BALANCE else if i.CountRemoved? then -Balance(th.copy) else 0
  }

  function TransferredDelta(i: Instr): int {
    if i.CountTransferred? then i.amount else 0
  }

  function CountDelta(i: Instr): int {
    if i.CountTransaction? then 1 else 0
  }

  lemma PerformSpares(s: State, t: Tid, i: Instr)
    requires t in s.threads && !i.CountStart? && !i.CountRemoved? && !i.CountTransferred? && !i.CountTransaction?
    ensures var s' := Perform(s, t, i);
            && s'.totalBalance == s.totalBalance
            && s'.totalTransferred == s.totalTransferred
            && s'.numTransactions == s.numTransactions
  {
  }

  lemma PerformCounts(s: State, t: Tid, i: Instr)
    requires t in s.threads
    ensures var s' := Perform(s, t, i);
            && s'.totalBalance == ToI32(s.totalBalance + BalanceDelta(i, s.threads[t]))
            && s'.totalTransferred == ToU32(s.totalTransferred + TransferredDelta(i))
            && s'.numTransactions == ToI32(s.numTransactions + CountDelta(i))
  {
    if !i.CountStart? && !i.CountRemoved? && !i.CountTransferred? && !i.CountTransaction? {
      PerformSpares(s, t, i);
    }
  }

  ghost predicate CountersMove(s: State, s': State, dBalance: int, dTransferred: int, dCount: int) {
    && BalanceOf(s') == ToI32(BalanceOf(s) + dBalance)
    && TransferredOf(s') == ToU32(TransferredOf(s) + dTransferred)
    && CountOf(s') == ToI32(CountOf(s) + dCount)
  }

  /** What an instruction does not do to the counters yet is left to the backlog. */
  ghost predicate Lags(i: Instr, th: Thread, th': Thread, dBalance: int, dTransferred: int, dCount: int) {
    && BalanceDelta(i, th) == dBalance - PendingBalance(th') + PendingBalance(th)
    && TransferredDelta(i) == dTransferred - PendingTransferred(th') + PendingTransferred(th)
    && CountDelta(i) == dCount - PendingCount(th') + PendingCount(th)
  }

  lemma CountersAfter(s: State, t: Tid, dBalance: int, dTransferred: int, dCount: int)
    requires t in s.threads
    requires Lags(InstrOf(s, t), s.threads[t], Exec(s, t).threads[t], dBalance, dTransferred, dCount)
    ensures CountersMove(s, Exec(s, t), dBalance, dTransferred, dCount)
  {
    PerformedCounters(s, t, InstrOf(s, t), dBalance, dTransferred, dCount);
  }

  lemma PerformedCounters(s: State, t: Tid, i: Instr, dBalance: int, dTransferred: int, dCount: int)
    requires t in s.threads && Lags(i, s.threads[t], Perform(s, t, i).threads[t], dBalance, dTransferred, dCount)
    ensures CountersMove(s, Perform(s, t, i), dBalance, dTransferred, dCount)
  {
    PerformCounts(s, t, i);
    CarriedAll(s, Perform(s, t, i), t, i, dBalance, dTransferred, dCount);
  }

  lemma CarriedAll(s: State, s': State, t: Tid, i: Instr, dBalance: int, dTransferred: int, dCount: int)
    requires t in s.threads && t in s'.threads && s'.threads == s.threads[t := s'.threads[t]]
    requires Lags(i, s.threads[t], s'.threads[t], dBalance, dTransferred, dCount)
    requires s'.totalBalance == ToI32(s.totalBalance + BalanceDelta(i, s.threads[t]))
    requires s'.totalTransferred == ToU32(s.totalTransferred + TransferredDelta(i))
    requires s'.numTransactions == ToI32(s.numTransactions + CountDelta(i))
    ensures CountersMove(s, s', dBalance, dTransferred, dCount)
  {
    CarriedBalance(s, s', t, BalanceDelta(i, s.threads[t]), dBalance);
    CarriedTransferred(s, s', t, TransferredDelta(i), dTransferred);
    CarriedCount(s, s', t, CountDelta(i), dCount);
  }

  lemma CarriedBalance(s: State, s': State, t: Tid, delta: int, d: int)
    requires t in s.threads && t in s'.threads && s'.threads == s.threads[t := s'.threads[t]]
    requires s'.totalBalance == ToI32(s.totalBalance + delta)
    requires delta == d - PendingBalance(s'.threads[t]) + PendingBalance(s.threads[t])
    ensures BalanceOf(s') == ToI32(BalanceOf(s) + d)
  {
    Carried(s.totalBalance, s.threads, PendingBalance, t, s'.threads[t], delta, d);
  }

  lemma CarriedTransferred(s: State, s': State, t: Tid, delta: int, d: int)
    requires t in s.threads && t in s'.threads && s'.threads == s.threads[t := s'.threads[t]]
    requires s'.totalTransferred == ToU32(s.totalTransferred + delta)
    requires delta == d - PendingTransferred(s'.threads[t]) + PendingTransferred(s.threads[t])
    ensures TransferredOf(s') == ToU32(TransferredOf(s) + d)
  {
    Carried(s.totalTransferred, s.threads, PendingTransferred, t, s'.threads[t], delta, d);
  }

  lemma CarriedCount(s: State, s': State, t: Tid, delta: int, d: int)
    requires t in s.threads && t in s'.threads && s'.threads == s.threads[t := s'.threads[t]]
    requires s'.numTransactions == ToI32(s.numTransactions + delta)
    requires delta == d - PendingCount(s'.threads[t]) + PendingCount(s.threads[t])
    ensures CountOf(s') == ToI32(CountOf(s) + d)
  {
    Carried(s.numTransactions, s.threads, PendingCount, t, s'.threads[t], delta, d);
  }

  // ---------------------------------------------------------------------------
  // Steps without effect
  // ---------------------------------------------------------------------------

  ghost predicate Stepped(s: State, t: Tid) {
    Enabled(s, t) && Exec(s, t).threads[t].pc == Successor(s, InstrOf(s, t)) != Broken
  }

  /** The four steps at which an operation changes the ledger. */
  predicate Effective(op: Operation, pc: Pc, next: Pc) {
    match op
    case RegisterClient(_) => pc.RegInsertRecord?
    case MakeTransaction(_, _, _) => pc.TxCredit? || (pc.TxCheckBalance? && next.TxUnlockSender?)
    case RemoveClient(_) => pc.RmErase?
  }

  predicate EffectiveStep(s: State, t: Tid)
    requires t in s.threads
  {
    Effective(s.threads[t].op, s.threads[t].pc, Successor(s, InstrOf(s, t)))
  }

  predicate GoesTo(s: State, th: Thread, next: Pc) {
    !Code(th.op, th.pc).Halt? && next == Successor(s, Code(th.op, th.pc)) != Broken
  }

  lemma RegisterQuietLags(s: State, th: Thread, next: Pc)
    requires th.op.RegisterClient? && GoesTo(s, th, next) && !Effective(th.op, th.pc, next)
    ensures Lags(Code(th.op, th.pc), th, th.(pc := next), 0, 0, 0)
  {
  }

  lemma TransactionQuietLags(s: State, th: Thread, next: Pc)
    requires th.op.MakeTransaction? && GoesTo(s, th, next) && !Effective(th.op, th.pc, next)
    ensures Lags(Code(th.op, th.pc), th, th.(pc := next), 0, 0, 0)
  {
    if Locking(th.pc) {
      TransactionQuietLagsFirst(s, th, next);
    } else {
      TransactionQuietLagsThen(s, th, next);
    }
  }

  lemma TransactionQuietLagsFirst(s: State, th: Thread, next: Pc)
    requires th.op.MakeTransaction? && GoesTo(s, th, next) && !Effective(th.op, th.pc, next)
    requires Locking(th.pc)
    ensures Lags(Code(th.op, th.pc), th, th.(pc := next), 0, 0, 0)
  {
  }

  lemma TransactionQuietLagsThen(s: State, th: Thread, next: Pc)
    requires th.op.MakeTransaction? && GoesTo(s, th, next) && !Effective(th.op, th.pc, next)
    requires !Locking(th.pc)
    ensures Lags(Code(th.op, th.pc), th, th.(pc := next), 0, 0, 0)
  {
  }

  lemma RemoveQuietLags(s: State, th: Thread, next: Pc)
    requires th.op.RemoveClient? && GoesTo(s, th, next) && !Effective(th.op, th.pc, next)
    ensures Lags(Code(th.op, th.pc), th, th.(pc := next), 0, 0, 0)
  {
  }

  lemma CountersRest(s: State, s': State)
    requires CountersMove(s, s', 0, 0, 0)
    ensures BalanceOf(s') == BalanceOf(s) && TransferredOf(s') == TransferredOf(s) && CountOf(s') == CountOf(s)
  {
  }

  lemma QuietCounters(s: State, t: Tid)
    requires Stepped(s, t) && !EffectiveStep(s, t)
    ensures var s' := Exec(s, t);
            BalanceOf(s') == BalanceOf(s) && TransferredOf(s') == TransferredOf(s) && CountOf(s') == CountOf(s)
  {
    var th, th' := s.threads[t], Exec(s, t).threads[t];
    if th.op.RegisterClient? {
      RegisterQuietLags(s, th, th'.pc);
    } else if th.op.MakeTransaction? {
      TransactionQuietLags(s, th, th'.pc);
    } else {
      RemoveQuietLags(s, th, th'.pc);
    }
    SameBacklog(s, t);
    CountersAfter(s, t, 0, 0, 0);
    CountersRest(s, Exec(s, t));
  }

  /** The backlog depends on the program point and, for a removal past its erasure, on the copied record. */
  lemma SameBacklog(s: State, t: Tid)
    requires Stepped(s, t)
    ensures var th, th' := s.threads[t], Exec(s, t).threads[t];
            && PendingBalance(th') == PendingBalance(th.(pc := th'.pc))
            && PendingTransferred(th') == PendingTransferred(th.(pc := th'.pc))
            && PendingCount(th') == PendingCount(th.(pc := th'.pc))
  {
    if InstrOf(s, t).CopyRecord? {
      assert s.threads[t].op.RemoveClient? && Exec(s, t).threads[t].pc.RmErase?;
    } else {
      PerformCopies(s, t, InstrOf(s, t));
    }
  }

  lemma PerformCopies(s: State, t: Tid, i: Instr)
    requires t in s.threads && !i.CopyRecord?
    ensures Perform(s, t, i).threads[t].copy == s.threads[t].copy
  {
  }

  lemma PerformRewrites(s: State, t: Tid, i: Instr, ip: Addr)
    requires t in s.threads && !i.InsertRecord? && !i.EraseRecord?
    ensures var records := Perform(s, t, i).records;
            && (ip in records <==> ip in s.records)
            && (ip in s.records ==> records[ip] == Rewritten(i, ip, s.records[ip]))
  {
  }

  function Rewritten(i: Instr, ip: Addr, r: ClientRecord): ClientRecord {
    if i.BumpRequest? && i.ip == ip then Bumped(r)
    else if i.Debit? && i.ip == ip && i.amount <= r.balance then Debited(r, i.amount)
    else if i.Credit? && i.ip == ip then Credited(r, i.amount)
    else r
  }

  /** What a quiet step writes to a record is undone in the view of it. */
  lemma TransactionQuietView(s: State, th: Thread, next: Pc, ip: Addr, r: ClientRecord)
    requires th.op.MakeTransaction? && GoesTo(s, th, next) && !Effective(th.op, th.pc, next)
    requires th.pc.TxDebit? && ip == th.op.sender ==> th.op.amount <= r.balance
    ensures Restored(th.(pc := next), ip, Rewritten(Code(th.op, th.pc), ip, r)) == Restored(th, ip, r)
  {
  }

  lemma PlainCode(op: Operation, pc: Pc)
    ensures var i := Code(op, pc);
            && (i.InsertRecord? ==> op.RegisterClient? && pc.RegInsertRecord? && i.ip == op.ip)
            && (i.EraseRecord? ==> op.RemoveClient? && pc.RmErase? && i.ip == op.client)
            && (i.BumpRequest? || i.Debit? || i.Credit? ==> op.MakeTransaction?)
  {
  }

  lemma QuietView(s: State, t: Tid, ip: Addr)
    requires Stepped(s, t) && !EffectiveStep(s, t) && ThreadTrue(s.records, s.threads[t])
    ensures ip in Exec(s, t).records <==> ip in s.records
    ensures ip in s.records ==>
              Restored(Exec(s, t).threads[t], ip, Exec(s, t).records[ip]) == Restored(s.threads[t], ip, s.records[ip])
  {
    var th, i := s.threads[t], InstrOf(s, t);
    PlainCode(th.op, th.pc);
    PerformRewrites(s, t, i, ip);
    if ip in s.records && th.op.MakeTransaction? {
      TransactionQuietView(s, th, Exec(s, t).threads[t].pc, ip, s.records[ip]);
    }
  }

  /** Before and after a step, both states are within the invariant. */
  ghost predicate Moved(s: State, t: Tid) {
    Stepped(s, t) && Inv(s) && Inv(Exec(s, t))
  }

  lemma SameViews(s: State, s': State)
    requires forall ip :: SameView(s, s', ip)
    ensures RecordsOf(s') == RecordsOf(s)
  {
    forall ip: Addr ensures ip in RecordsOf(s') <==> ip in RecordsOf(s) {
      assert SameView(s, s', ip);
    }
    forall ip | ip in RecordsOf(s) ensures RecordsOf(s')[ip] == RecordsOf(s)[ip] {
      assert SameView(s, s', ip);
    }
  }

  lemma QuietRecord(s: State, t: Tid, ip: Addr)
    requires Moved(s, t) && !EffectiveStep(s, t)
    ensures SameView(s, Exec(s, t), ip)
  {
    HeldByOtherSame(s, t, ip);
    if HeldByOther(s, t, ip) {
      SeenByOther(s, t, ip);
    } else {
      assert ThreadTrue(s.records, s.threads[t]);
      QuietView(s, t, ip);
      if ip in s.records {
        SeenByMe(s, t, ip);
        SeenByMe(Exec(s, t), t, ip);
      }
    }
  }

  /** A step without effect leaves the indivisible ledger as it was. */
  lemma QuietStep(s: State, t: Tid)
    requires Moved(s, t) && !EffectiveStep(s, t)
    ensures Abs(Exec(s, t)) == Abs(s)
  {
    QuietCounters(s, t);
    forall ip: Addr ensures SameView(s, Exec(s, t), ip) {
      QuietRecord(s, t, ip);
    }
    SameViews(s, Exec(s, t));
  }

  // ---------------------------------------------------------------------------
  // Statuses settled without effect
  // ---------------------------------------------------------------------------

  predicate Settles(th: Thread, next: Pc, status: Status) {
    Committed(th.pc) == None && Committed(next) == Some(status)
  }

  lemma RegisterSettles(s: State, th: Thread, next: Pc)
    requires th.op.RegisterClient? && GoesTo(s, th, next)
    ensures || Committed(next) == Committed(th.pc)
            || (th.pc == RegLock(false) && Settles(th, next, DUPLICATE_IP))
            || (th.pc.RegInsertRecord? && Settles(th, next, SUCCESS))
  {
  }

  lemma TransactionSettles(s: State, th: Thread, next: Pc)
    requires th.op.MakeTransaction? && GoesTo(s, th, next)
    ensures TransactionSettlesAs(s, th, next)
  {
    if Locking(th.pc) {
      TransactionSettlesFirst(s, th, next);
    } else {
      TransactionSettlesThen(s, th, next);
    }
  }

  ghost predicate TransactionSettlesAs(s: State, th: Thread, next: Pc)
    requires th.op.MakeTransaction?
  {
    || Committed(next) == Committed(th.pc)
    || (th.pc.TxFindSender? && th.op.sender !in s.entries && Settles(th, next, UNKNOWN_SENDER))
    || (th.pc.TxChecks? && th.op.amount == 0 && Settles(th, next, BALANCE_CHECK))
    || (th.pc.TxChecks? && th.op.amount != 0 && th.op.sender == th.op.receiver && Settles(th, next, DUPLICATE_IP))
    || (th.pc.TxFindReceiver? && th.op.receiver !in s.entries && Settles(th, next, UNKNOWN_RECEIVER))
    || (th.pc.TxCheckBalance? && next.TxUnlockSender? && Settles(th, next, INSUFFICIENT_BALANCE))
    || (th.pc.TxCredit? && Settles(th, next, SUCCESS))
  }

  lemma TransactionSettlesFirst(s: State, th: Thread, next: Pc)
    requires th.op.MakeTransaction? && GoesTo(s, th, next) && Locking(th.pc)
    ensures TransactionSettlesAs(s, th, next)
  {
  }

  lemma TransactionSettlesThen(s: State, th: Thread, next: Pc)
    requires th.op.MakeTransaction? && GoesTo(s, th, next) && !Locking(th.pc)
    ensures TransactionSettlesAs(s, th, next)
  {
  }

  lemma RemoveSettles(s: State, th: Thread, next: Pc)
    requires th.op.RemoveClient? && GoesTo(s, th, next)
    ensures || Committed(next) == Committed(th.pc)
            || (th.pc.RmFind? && th.op.client !in s.entries && Settles(th, next, NOT_FOUND))
            || (th.pc.RmErase? && Settles(th, next, SUCCESS))
  {
  }

  /** A client whose mutex a thread holds, without a claim on it, is registered. */
  lemma HeldRegistered(s: State, t: Tid, ip: Addr)
    requires Inv(s) && t in s.threads && ip in Stances(s)[t].held && Stances(s)[t].claim.Nothing?
    ensures ip in s.records
  {
    assert StanceTrue(LocksOf(s), t, Stances(s)[t]);
    RecordPresent(LocksOf(s), Stances(s), t, ip);
  }

  /** The mutex a second registration of a client waits for, once free, guards a record. */
  lemma DuplicateRegistered(s: State, t: Tid)
    requires Inv(s) && Enabled(s, t) && s.threads[t].op.RegisterClient? && s.threads[t].pc == RegLock(false)
    ensures s.threads[t].op.ip in s.records
  {
    var ip := s.threads[t].op.ip;
    var locks, vs := LocksOf(s), Stances(s);
    assert vs[t].gate && vs[t].target == Some(ip) && vs[t].claim.Nothing?;
    assert StanceTrue(locks, t, vs[t]) && EntryTrue(locks, vs, ip);
    RecordPresent(locks, vs, t, ip);
  }

  lemma UnlistedUnregistered(s: State, ip: Addr)
    requires Inv(s) && ip !in s.entries
    ensures ip !in s.records
  {
    assert ip in LocksOf(s).members ==> ip in LocksOf(s).entries;
  }

  /** A status settled without effect is the one the indivisible ledger answers, unchanged. */
  ghost predicate Answers(l: Ledger, op: Operation, status: Status) {
    Apply(l, op).ledger == l && Apply(l, op).response.status == status
  }

  ghost predicate QuietlyRight(s: State, t: Tid)
    requires t in s.threads
  {
    var th, th' := s.threads[t], Exec(s, t).threads[t];
    || Committed(th'.pc) == Committed(th.pc)
    || (Committed(th.pc) == None && Committed(th'.pc).Some? && Answers(Abs(s), th.op, Committed(th'.pc).value))
  }

  lemma RegisterQuietlyRight(s: State, t: Tid)
    requires Moved(s, t) && !EffectiveStep(s, t) && s.threads[t].op.RegisterClient?
    ensures QuietlyRight(s, t)
  {
    var th, next := s.threads[t], Exec(s, t).threads[t].pc;
    RegisterSettles(s, th, next);
    if th.pc == RegLock(false) {
      DuplicateRegistered(s, t);
      assert Answers(Abs(s), th.op, DUPLICATE_IP);
    }
  }

  lemma TransactionKnows(s: State, t: Tid)
    requires Inv(s) && Enabled(s, t) && s.threads[t].op.MakeTransaction?
    ensures var th := s.threads[t];
            && (th.pc.TxFindSender? && th.op.sender !in s.entries ==> th.op.sender !in s.records)
            && (th.pc.TxChecks? || th.pc.TxFindReceiver? ==> th.op.sender in s.records)
            && (th.pc.TxFindReceiver? ==> Proper(th.op))
            && (th.pc.TxFindReceiver? && th.op.receiver !in s.entries ==> th.op.receiver !in s.records)
  {
    var th := s.threads[t];
    assert ThreadTrue(s.records, th);
    if th.pc.TxFindSender? && th.op.sender !in s.entries {
      UnlistedUnregistered(s, th.op.sender);
    } else if th.pc.TxChecks? || th.pc.TxFindReceiver? {
      HeldRegistered(s, t, th.op.sender);
      if th.op.receiver !in s.entries {
        UnlistedUnregistered(s, th.op.receiver);
      }
    }
  }

  lemma TransactionAnswers(s: State, op: Operation)
    requires op.MakeTransaction?
    ensures op.sender !in s.records ==> Answers(Abs(s), op, UNKNOWN_SENDER)
    ensures op.sender in s.records && op.amount == 0 ==> Answers(Abs(s), op, BALANCE_CHECK)
    ensures op.sender in s.records && op.amount != 0 && op.sender == op.receiver ==> Answers(Abs(s), op, DUPLICATE_IP)
    ensures op.sender in s.records && Proper(op) && op.receiver !in s.records ==> Answers(Abs(s), op, UNKNOWN_RECEIVER)
  {
  }

  lemma TransactionQuietlyRight(s: State, t: Tid)
    requires Moved(s, t) && !EffectiveStep(s, t) && s.threads[t].op.MakeTransaction?
    ensures QuietlyRight(s, t)
  {
    var th, next := s.threads[t], Exec(s, t).threads[t].pc;
    TransactionKnows(s, t);
    TransactionAnswers(s, th.op);
    TransactionSettles(s, th, next);
  }

  lemma RemoveQuietlyRight(s: State, t: Tid)
    requires Moved(s, t) && !EffectiveStep(s, t) && s.threads[t].op.RemoveClient?
    ensures QuietlyRight(s, t)
  {
    var th, next := s.threads[t], Exec(s, t).threads[t].pc;
    RemoveSettles(s, th, next);
    if th.pc.RmFind? && th.op.client !in s.entries {
      UnlistedUnregistered(s, th.op.client);
      assert Answers(Abs(s), th.op, NOT_FOUND);
    }
  }

  // ---------------------------------------------------------------------------
  // The four steps with effect
  // ---------------------------------------------------------------------------

  /** The client whose record a transfer's writes are undone in. */
  function Undoes(op: Operation): Option<Addr> {
    if op.MakeTransaction? then Some(op.sender) else None
  }

  /** A record that the step does not write, and in which nothing is undone, is seen the same. */
  lemma BystanderRecord(s: State, t: Tid, ip: Addr)
    requires Moved(s, t) && Written(InstrOf(s, t)) != Some(ip) && Undoes(s.threads[t].op) != Some(ip)
    ensures SameView(s, Exec(s, t), ip)
  {
    HeldByOtherSame(s, t, ip);
    if HeldByOther(s, t, ip) {
      SeenByOther(s, t, ip);
    } else {
      PerformWrites(s, t, InstrOf(s, t));
      assert SameRecord(s.records, Exec(s, t).records, ip);
      if ip in s.records {
        SeenByMe(s, t, ip);
        SeenByMe(Exec(s, t), t, ip);
      }
    }
  }

  lemma BystanderRecords(s: State, t: Tid, a: Addr, b: Addr)
    requires Moved(s, t)
    requires Written(InstrOf(s, t)) in {None, Some(a), Some(b)} && Undoes(s.threads[t].op) in {None, Some(a), Some(b)}
    ensures forall x: Addr :: x != a && x != b ==> SameView(s, Exec(s, t), x)
  {
    forall x: Addr | x != a && x != b ensures SameView(s, Exec(s, t), x) {
      BystanderRecord(s, t, x);
    }
  }

  lemma NotHeldByOther(s: State, t: Tid, ip: Addr)
    requires Inv(s) && t in s.threads && ip in Stances(s)[t].held
    ensures !HeldByOther(s, t, ip)
  {
    forall u | u in s.threads && u != t ensures ip !in Stances(s)[u].held {
      HeldApart(s, t, u, ip);
    }
  }

  /** The record whose mutex the thread holds is seen as its progress makes it, before and after. */
  lemma OwnRecord(s: State, t: Tid, ip: Addr)
    requires Moved(s, t) && ip in Stances(s)[t].held
    ensures ip in s.records ==> AbsRecord(s, ip) == Restored(s.threads[t], ip, s.records[ip])
    ensures ip in Exec(s, t).records ==>
              AbsRecord(Exec(s, t), ip) == Restored(Exec(s, t).threads[t], ip, Exec(s, t).records[ip])
  {
    NotHeldByOther(s, t, ip);
    HeldByOtherSame(s, t, ip);
    if ip in s.records {
      SeenByMe(s, t, ip);
    }
    if ip in Exec(s, t).records {
      SeenByMe(Exec(s, t), t, ip);
    }
  }

  lemma ViewWith(s: State, s': State, ip: Addr, r: ClientRecord)
    requires ip in s'.records && AbsRecord(s', ip) == r
    requires forall x: Addr :: x != ip ==> SameView(s, s', x)
    ensures RecordsOf(s') == RecordsOf(s)[ip := r]
  {
    forall x: Addr | x != ip ensures x in RecordsOf(s') <==> x in RecordsOf(s) {
      assert SameView(s, s', x);
    }
    forall x | x in RecordsOf(s) && x != ip ensures RecordsOf(s')[x] == RecordsOf(s)[x] {
      assert SameView(s, s', x);
    }
  }

  lemma ViewWithout(s: State, s': State, ip: Addr)
    requires ip !in s'.records
    requires forall x: Addr :: x != ip ==> SameView(s, s', x)
    ensures RecordsOf(s') == RecordsOf(s) - {ip}
  {
    forall x: Addr | x != ip ensures x in RecordsOf(s') <==> x in RecordsOf(s) {
      assert SameView(s, s', x);
    }
    forall x | x in RecordsOf(s) && x != ip ensures RecordsOf(s')[x] == RecordsOf(s)[x] {
      assert SameView(s, s', x);
    }
  }

  lemma RegisterWrites(s: State, t: Tid)
    requires Stepped(s, t) && EffectiveStep(s, t) && s.threads[t].op.RegisterClient?
    ensures var ip := s.threads[t].op.ip;
            && InstrOf(s, t) == InsertRecord(ip, RegUnlock)
            && ip !in s.records
            && ip in Exec(s, t).records && Exec(s, t).records[ip] == NewClient(ip)
            && ip in Stances(s)[t].held
            && BalanceDelta(InstrOf(s, t), s.threads[t]) == 0
  {
  }

  lemma RegisterEffectRecords(s: State, t: Tid)
    requires Moved(s, t) && EffectiveStep(s, t) && s.threads[t].op.RegisterClient?
    ensures var ip := s.threads[t].op.ip;
            ip !in s.records && RecordsOf(Exec(s, t)) == RecordsOf(s)[ip := NewClient(ip)]
  {
    var ip := s.threads[t].op.ip;
    RegisterWrites(s, t);
    OwnRecord(s, t, ip);
    BystanderRecords(s, t, ip, ip);
    ViewWith(s, Exec(s, t), ip, NewClient(ip));
  }

  lemma RegisterEffectCounters(s: State, t: Tid)
    requires Stepped(s, t) && EffectiveStep(s, t) && s.threads[t].op.RegisterClient?
    ensures CountersMove(s, Exec(s, t), STARTING_BALANCE, 0, 0)
  {
    CountersAfter(s, t, STARTING_BALANCE, 0, 0);
  }

  lemma RemoveWrites(s: State, t: Tid)
    requires Stepped(s, t) && EffectiveStep(s, t) && s.threads[t].op.RemoveClient?
    requires ThreadTrue(s.records, s.threads[t])
    ensures var ip := s.threads[t].op.client;
            && InstrOf(s, t) == EraseRecord(ip, RmGate2)
            && ip in s.records && s.records[ip] == s.threads[t].copy
            && ip !in Exec(s, t).records
            && ip in Stances(s)[t].held
  {
  }

  lemma RemoveEffectRecords(s: State, t: Tid)
    requires Moved(s, t) && EffectiveStep(s, t) && s.threads[t].op.RemoveClient?
    ensures var ip := s.threads[t].op.client;
            && ip in s.records
            && RecordsOf(s)[ip] == s.threads[t].copy
            && RecordsOf(Exec(s, t)) == RecordsOf(s) - {ip}
  {
    var ip := s.threads[t].op.client;
    assert ThreadTrue(s.records, s.threads[t]);
    RemoveWrites(s, t);
    OwnRecord(s, t, ip);
    BystanderRecords(s, t, ip, ip);
    ViewWithout(s, Exec(s, t), ip);
  }

  lemma RemoveEffectCounters(s: State, t: Tid)
    requires Stepped(s, t) && EffectiveStep(s, t) && s.threads[t].op.RemoveClient?
    ensures CountersDrop(s, Exec(s, t), s.threads[t].copy)
  {
    RemovalLags(s, t);
    CountersAfter(s, t, -Balance(s.threads[t].copy), 0, 0);
  }

  lemma RemovalLags(s: State, t: Tid)
    requires Stepped(s, t) && EffectiveStep(s, t) && s.threads[t].op.RemoveClient?
    ensures Lags(InstrOf(s, t), s.threads[t], Exec(s, t).threads[t], -Balance(s.threads[t].copy), 0, 0)
  {
  }

  /** Undoing a bump and bumping again. */
  lemma BumpRestored(r: ClientRecord)
    ensures Bumped(Unbumped(r)) == r
  {
  }

  lemma PoorWrites(s: State, t: Tid)
    requires Stepped(s, t) && EffectiveStep(s, t) && s.threads[t].op.MakeTransaction? && s.threads[t].pc.TxCheckBalance?
    requires ThreadTrue(s.records, s.threads[t])
    ensures var th, sender := s.threads[t], s.threads[t].op.sender;
            && InstrOf(s, t).TestBalance? && Exec(s, t).records == s.records
            && sender in Stances(s)[t].held && Stances(s)[t].claim.Nothing?
            && (sender in s.records ==> s.records[sender].balance < th.op.amount)
            && (forall r :: Restored(th, sender, r) == Unbumped(r))
            && (forall r :: Restored(Exec(s, t).threads[t], sender, r) == r)
  {
  }

  lemma PoorSender(s: State, t: Tid)
    requires Moved(s, t) && EffectiveStep(s, t) && s.threads[t].op.MakeTransaction? && s.threads[t].pc.TxCheckBalance?
    ensures var sender := s.threads[t].op.sender;
            && sender in s.records && sender in Exec(s, t).records
            && AbsRecord(s, sender).balance < s.threads[t].op.amount
            && AbsRecord(Exec(s, t), sender) == Bumped(AbsRecord(s, sender))
  {
    var sender := s.threads[t].op.sender;
    assert ThreadTrue(s.records, s.threads[t]);
    PoorWrites(s, t);
    HeldRegistered(s, t, sender);
    OwnRecord(s, t, sender);
    BumpRestored(s.records[sender]);
  }

  lemma PoorBystanders(s: State, t: Tid)
    requires Moved(s, t) && EffectiveStep(s, t) && s.threads[t].op.MakeTransaction? && s.threads[t].pc.TxCheckBalance?
    ensures forall x: Addr :: x != s.threads[t].op.sender ==> SameView(s, Exec(s, t), x)
  {
    assert InstrOf(s, t).TestBalance?;
    BystanderRecords(s, t, s.threads[t].op.sender, s.threads[t].op.sender);
  }

  lemma PoorEffectRecords(s: State, t: Tid)
    requires Moved(s, t) && EffectiveStep(s, t) && s.threads[t].op.MakeTransaction? && s.threads[t].pc.TxCheckBalance?
    ensures var sender := s.threads[t].op.sender;
            && sender in s.records
            && RecordsOf(s)[sender].balance < s.threads[t].op.amount
            && RecordsOf(Exec(s, t)) == RecordsOf(s)[sender := Bumped(RecordsOf(s)[sender])]
  {
    var sender := s.threads[t].op.sender;
    PoorSender(s, t);
    PoorBystanders(s, t);
    ViewWith(s, Exec(s, t), sender, Bumped(RecordsOf(s)[sender]));
  }

  lemma PoorEffectCounters(s: State, t: Tid)
    requires Stepped(s, t) && EffectiveStep(s, t) && s.threads[t].op.MakeTransaction? && s.threads[t].pc.TxCheckBalance?
    ensures CountersMove(s, Exec(s, t), 0, 0, 0)
  {
    CountersAfter(s, t, 0, 0, 0);
  }

  /** Undoing a bump and a debit, then bumping and debiting again. */
  lemma DebitRestored(r: ClientRecord, amount: U64)
    requires r.balance + amount < TWO64
    ensures var undone := Bumped(Credited(Unbumped(r), amount));
            amount <= undone.balance && Debited(undone, amount) == r
  {
    BumpRestored(r);
  }

  lemma CreditWrites(s: State, t: Tid)
    requires Stepped(s, t) && s.threads[t].op.MakeTransaction? && s.threads[t].pc.TxCredit?
    requires ThreadTrue(s.records, s.threads[t])
    ensures var th := s.threads[t];
            var sender, receiver := th.op.sender, th.op.receiver;
            && Proper(th.op) && sender in s.records && s.records[sender].balance + th.op.amount < TWO64
            && InstrOf(s, t) == Credit(receiver, th.op.amount, TxUnlockSender(SUCCESS))
            && sender in Stances(s)[t].held && receiver in Stances(s)[t].held && Stances(s)[t].claim.Nothing?
            && (receiver in s.records ==>
                  Exec(s, t).records == s.records[receiver := Credited(s.records[receiver], th.op.amount)])
            && Exec(s, t).threads[t] == th.(pc := TxUnlockSender(SUCCESS))
  {
  }

  lemma CreditSender(s: State, t: Tid)
    requires Moved(s, t) && s.threads[t].op.MakeTransaction? && s.threads[t].pc.TxCredit?
    ensures var sender, amount := s.threads[t].op.sender, s.threads[t].op.amount;
            && sender in s.records && sender in Exec(s, t).records
            && amount <= Bumped(AbsRecord(s, sender)).balance
            && AbsRecord(Exec(s, t), sender) == Debited(Bumped(AbsRecord(s, sender)), amount)
  {
    var sender := s.threads[t].op.sender;
    assert ThreadTrue(s.records, s.threads[t]);
    CreditWrites(s, t);
    HeldRegistered(s, t, s.threads[t].op.receiver);
    OwnRecord(s, t, sender);
    DebitRestored(s.records[sender], s.threads[t].op.amount);
  }

  lemma CreditReceiver(s: State, t: Tid)
    requires Moved(s, t) && s.threads[t].op.MakeTransaction? && s.threads[t].pc.TxCredit?
    ensures var receiver, amount := s.threads[t].op.receiver, s.threads[t].op.amount;
            && receiver in s.records && receiver in Exec(s, t).records
            && AbsRecord(Exec(s, t), receiver) == Credited(AbsRecord(s, receiver), amount)
  {
    var receiver := s.threads[t].op.receiver;
    assert ThreadTrue(s.records, s.threads[t]);
    CreditWrites(s, t);
    HeldRegistered(s, t, receiver);
    OwnRecord(s, t, receiver);
  }

  lemma ViewWithTwo(s: State, s': State, a: Addr, ra: ClientRecord, b: Addr, rb: ClientRecord)
    requires a != b && a in s'.records && AbsRecord(s', a) == ra && b in s'.records && AbsRecord(s', b) == rb
    requires forall x: Addr :: x != a && x != b ==> SameView(s, s', x)
    ensures RecordsOf(s') == RecordsOf(s)[a := ra][b := rb]
  {
    forall x: Addr | x != a && x != b ensures x in RecordsOf(s') <==> x in RecordsOf(s) {
      assert SameView(s, s', x);
    }
    forall x | x in RecordsOf(s) && x != a && x != b ensures RecordsOf(s')[x] == RecordsOf(s)[x] {
      assert SameView(s, s', x);
    }
  }

  lemma CreditEffectRecords(s: State, t: Tid)
    requires Moved(s, t) && s.threads[t].op.MakeTransaction? && s.threads[t].pc.TxCredit?
    ensures var op, records := s.threads[t].op, RecordsOf(s);
            && Proper(op) && op.sender in records && op.receiver in records
            && op.amount <= Bumped(records[op.sender]).balance
            && RecordsOf(Exec(s, t)) ==
               records[op.sender := Debited(Bumped(records[op.sender]), op.amount)]
                      [op.receiver := Credited(records[op.receiver], op.amount)]
  {
    var op := s.threads[t].op;
    assert ThreadTrue(s.records, s.threads[t]);
    CreditWrites(s, t);
    CreditSender(s, t);
    CreditReceiver(s, t);
    BystanderRecords(s, t, op.sender, op.receiver);
    ViewWithTwo(s, Exec(s, t), op.sender, Debited(Bumped(AbsRecord(s, op.sender)), op.amount),
                op.receiver, Credited(AbsRecord(s, op.receiver), op.amount));
  }

  lemma CreditEffectCounters(s: State, t: Tid)
    requires Stepped(s, t) && s.threads[t].op.MakeTransaction? && s.threads[t].pc.TxCredit?
    ensures CountersMove(s, Exec(s, t), 0, s.threads[t].op.amount, 1)
  {
    CountersAfter(s, t, 0, s.threads[t].op.amount, 1);
  }

  // ---------------------------------------------------------------------------
  // Refinement
  // ---------------------------------------------------------------------------

  /** Between the two states the whole operation happened, with this status. */
  ghost predicate Happens(s: State, s': State, op: Operation, status: Status) {
    Apply(Abs(s), op).ledger == Abs(s') && Apply(Abs(s), op).response.status == status
  }

  /** The operation takes effect in this step: all of it, with the status the indivisible ledger gives. */
  ghost predicate TakesEffect(s: State, t: Tid)
    requires t in s.threads
  {
    var th, th' := s.threads[t], Exec(s, t).threads[t];
    && Committed(th.pc) == None
    && Committed(th'.pc).Some?
    && Happens(s, Exec(s, t), th.op, Committed(th'.pc).value)
  }

  ghost predicate Stutters(s: State, t: Tid)
    requires t in s.threads
  {
    Committed(Exec(s, t).threads[t].pc) == Committed(s.threads[t].pc) && Abs(Exec(s, t)) == Abs(s)
  }

  lemma Unmoved(x: I32, y: U32)
    ensures ToI32(x + 0) == x && ToU32(y + 0) == y
  {
  }

  lemma AbsRegistered(s: State, s': State, op: Operation)
    requires op.RegisterClient? && op.ip !in s.records
    requires RecordsOf(s') == RecordsOf(s)[op.ip := NewClient(op.ip)] && CountersMove(s, s', STARTING_BALANCE, 0, 0)
    ensures Happens(s, s', op, SUCCESS)
  {
    Unmoved(CountOf(s), TransferredOf(s));
  }

  lemma AbsRemoved(s: State, s': State, op: Operation, copy: ClientRecord)
    requires op.RemoveClient? && op.client in s.records && RecordsOf(s)[op.client] == copy
    requires RecordsOf(s') == RecordsOf(s) - {op.client}
    requires CountersDrop(s, s', copy)
    ensures Happens(s, s', op, SUCCESS)
  {
    Unmoved(CountOf(s), TransferredOf(s));
  }

  /** The total falls by the balance of the removed record. */
  ghost predicate CountersDrop(s: State, s': State, copy: ClientRecord) {
    CountersMove(s, s', -Balance(copy), 0, 0)
  }

  lemma AbsPoor(s: State, s': State, op: Operation)
    requires op.MakeTransaction? && Proper(op) && op.sender in s.records && op.receiver in s.records
    requires RecordsOf(s)[op.sender].balance < op.amount
    requires RecordsOf(s') == RecordsOf(s)[op.sender := Bumped(RecordsOf(s)[op.sender])] && CountersMove(s, s', 0, 0, 0)
    ensures Happens(s, s', op, INSUFFICIENT_BALANCE)
  {
    CountersRest(s, s');
  }

  lemma AbsPaid(s: State, s': State, op: Operation)
    requires op.MakeTransaction? && Proper(op) && op.sender in s.records && op.receiver in s.records
    requires var records := RecordsOf(s);
             && op.amount <= Bumped(records[op.sender]).balance
             && RecordsOf(s') == records[op.sender := Debited(Bumped(records[op.sender]), op.amount)]
                                        [op.receiver := Credited(records[op.receiver], op.amount)]
    requires CountersMove(s, s', 0, op.amount, 1)
    ensures Happens(s, s', op, SUCCESS)
  {
    Unmoved(BalanceOf(s), 0);
  }

  lemma RegisterHappens(s: State, t: Tid)
    requires Moved(s, t) && EffectiveStep(s, t) && s.threads[t].op.RegisterClient?
    ensures Happens(s, Exec(s, t), s.threads[t].op, SUCCESS)
  {
    RegisterEffectRecords(s, t);
    RegisterEffectCounters(s, t);
    AbsRegistered(s, Exec(s, t), s.threads[t].op);
  }

  lemma RemoveHappens(s: State, t: Tid)
    requires Moved(s, t) && EffectiveStep(s, t) && s.threads[t].op.RemoveClient?
    ensures Happens(s, Exec(s, t), s.threads[t].op, SUCCESS)
  {
    RemoveEffectRecords(s, t);
    RemoveEffectCounters(s, t);
    AbsRemoved(s, Exec(s, t), s.threads[t].op, s.threads[t].copy);
  }

  lemma PoorHappens(s: State, t: Tid)
    requires Moved(s, t) && EffectiveStep(s, t) && s.threads[t].op.MakeTransaction? && s.threads[t].pc.TxCheckBalance?
    ensures Happens(s, Exec(s, t), s.threads[t].op, INSUFFICIENT_BALANCE)
  {
    assert ThreadTrue(s.records, s.threads[t]);
    HeldRegistered(s, t, s.threads[t].op.receiver);
    PoorEffectRecords(s, t);
    PoorEffectCounters(s, t);
    AbsPoor(s, Exec(s, t), s.threads[t].op);
  }

  lemma CreditHappens(s: State, t: Tid)
    requires Moved(s, t) && EffectiveStep(s, t) && s.threads[t].op.MakeTransaction? && s.threads[t].pc.TxCredit?
    ensures Happens(s, Exec(s, t), s.threads[t].op, SUCCESS)
  {
    CreditEffectRecords(s, t);
    CreditEffectCounters(s, t);
    AbsPaid(s, Exec(s, t), s.threads[t].op);
  }

  /** An effective step settles the status. */
  lemma EffectSettles(s: State, op: Operation, pc: Pc)
    requires !Code(op, pc).Halt? && Effective(op, pc, Successor(s, Code(op, pc)))
    ensures Committed(pc) == None
    ensures Committed(Successor(s, Code(op, pc))) == Some(if pc.TxCheckBalance? then INSUFFICIENT_BALANCE else SUCCESS)
  {
  }

  lemma EffectHappens(s: State, t: Tid)
    requires Moved(s, t) && EffectiveStep(s, t)
    ensures Happens(s, Exec(s, t), s.threads[t].op,
                    if s.threads[t].pc.TxCheckBalance? then INSUFFICIENT_BALANCE else SUCCESS)
  {
    var th := s.threads[t];
    if th.op.RegisterClient? {
      RegisterHappens(s, t);
    } else if th.op.RemoveClient? {
      RemoveHappens(s, t);
    } else if th.pc.TxCredit? {
      CreditHappens(s, t);
    } else {
      PoorHappens(s, t);
    }
  }

  lemma EffectiveStepRefines(s: State, t: Tid)
    requires Moved(s, t) && EffectiveStep(s, t)
    ensures TakesEffect(s, t)
  {
    EffectSettles(s, s.threads[t].op, s.threads[t].pc);
    EffectHappens(s, t);
  }

  lemma QuietStepRefines(s: State, t: Tid)
    requires Moved(s, t) && !EffectiveStep(s, t)
    ensures Stutters(s, t) || TakesEffect(s, t)
  {
    QuietStep(s, t);
    match s.threads[t].op
    case RegisterClient(_) => RegisterQuietlyRight(s, t);
    case MakeTransaction(_, _, _) => TransactionQuietlyRight(s, t);
    case RemoveClient(_) => RemoveQuietlyRight(s, t);
  }

  /** Whatever the other threads are doing, a step either changes nothing of the indivisible ledger and
      settles nothing, or is the one step in which its operation happens: the ledger moves as by the whole
      operation at once, and the status that will be returned is the one the operation gives there. */
  lemma StepRefines(s: State, t: Tid)
    requires Inv(s) && Enabled(s, t)
    ensures Inv(Exec(s, t))
    ensures Stutters(s, t) || TakesEffect(s, t)
  {
    StepInv(s, t);
    StepLocks(s, t);
    if EffectiveStep(s, t) {
      EffectiveStepRefines(s, t);
    } else {
      QuietStepRefines(s, t);
    }
  }
}
