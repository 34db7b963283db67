/** The three ledger operations as the threads execute them: one instruction per lock, unlock, lookup,
    read or write of shared state, with any number of threads interleaved in any way. */
module LedgerProgram {
  import opened MachineInts
  import opened Wrappers
  import opened Ledgers
  import opened LockProtocol

  // ---------------------------------------------------------------------------
  // Program points
  // ---------------------------------------------------------------------------

  datatype Pc =
    // register_client
    | RegStart
    | RegGate
    | RegInsertLock
    | RegFind(inserted: bool)
    | RegLock(inserted: bool)
    | RegOpenGate(inserted: bool)
    | RegDropMutex
    | RegDupUnlock
    | RegInsertRecord
    | RegUnlock
    | RegGate2
    | RegCount
    | RegOpenGate2
    // make_transaction
    | TxGate
    | TxFindSender
    | TxNoSender
    | TxLockSender
    | TxChecks
    | TxFindReceiver
    | TxProbeSender
    | TxEarlyUnlock(status: Status)
    | TxEarlyOpen(status: Status)
    | TxReread(status: Status)
    | TxLockReceiver
    | TxOpenGate
    | TxLoadSender
    | TxLoadReceiver
    | TxBump
    | TxCheckBalance
    | TxDebit
    | TxCredit
    | TxUnlockSender(status: Status)
    | TxUnlockReceiver(status: Status)
    | TxMeta
    | TxAddTransferred
    | TxAddCount
    | TxOpenMeta
    // remove_client
    | RmGate
    | RmFind
    | RmMissing
    | RmLock
    | RmOpenGate
    | RmCopy
    | RmErase
    | RmGate2
    | RmUnlock
    | RmDestroy
    | RmEraseEntry
    | RmOpenGate2
    | RmGate3
    | RmCount
    | RmOpenGate3
    // the end
    | Done(status: Status)
    | Thrown(status: Status)  // the read of the sender's record for the answer found none, and nothing catches that
    | Broken  // a "should never happen" branch, any other uncaught out_of_range, or misuse of a mutex

  /** The thread has nothing more to do. */
  predicate Ended(pc: Pc) {
    pc.Done? || pc.Thrown?
  }

  datatype Instr =
    | LockGate(next: Pc)
    | UnlockGate(next: Pc)
    | LockMeta(next: Pc)
    | UnlockMeta(next: Pc)
    | NewMutex(next: Pc)
    | DropMutex(next: Pc)
    | Publish(ip: Addr, added: Pc, taken: Pc)
    | Lookup(ip: Addr, found: Pc, missing: Pc)
    | LockClient(next: Pc)
    | UnlockClient(ip: Addr, next: Pc)
    | DestroyMutex(ip: Addr, next: Pc)
    | EraseEntry(ip: Addr, next: Pc)
    | InsertRecord(ip: Addr, next: Pc)
    | FindRecord(ip: Addr, next: Pc)
    | ReadBack(ip: Addr, present: Pc, absent: Pc)
    | CopyRecord(ip: Addr, next: Pc)
    | EraseRecord(ip: Addr, next: Pc)
    | BumpRequest(ip: Addr, next: Pc)
    | TestBalance(ip: Addr, amount: U64, enough: Pc, poor: Pc)
    | Debit(ip: Addr, amount: U64, next: Pc)
    | Credit(ip: Addr, amount: U64, next: Pc)
    | Jump(next: Pc)
    | CountStart(next: Pc)
    | CountRemoved(next: Pc)
    | CountTransferred(amount: U64, next: Pc)
    | CountTransaction(next: Pc)
    | Halt

  function RegisterCode(ip: Addr, pc: Pc): Instr {
    match pc
    case RegStart => NewMutex(RegGate)
    case RegGate => LockGate(RegInsertLock)
    case RegInsertLock => Publish(ip, RegFind(true), RegFind(false))
    case RegFind(inserted) => Lookup(ip, RegLock(inserted), Broken)
    case RegLock(inserted) => LockClient(RegOpenGate(inserted))
    case RegOpenGate(inserted) => UnlockGate(if inserted then RegInsertRecord else RegDropMutex)
    case RegDropMutex => DropMutex(RegDupUnlock)
    case RegDupUnlock => UnlockClient(ip, Done(DUPLICATE_IP))
    case RegInsertRecord => InsertRecord(ip, RegUnlock)
    case RegUnlock => UnlockClient(ip, RegGate2)
    case RegGate2 => LockGate(RegCount)
    case RegCount => CountStart(RegOpenGate2)
    case RegOpenGate2 => UnlockGate(Done(SUCCESS))
    case _ => Halt
  }

  function TransactionCode(sender: Addr, receiver: Addr, amount: U64, pc: Pc): Instr {
    match pc
    case TxGate => LockGate(TxFindSender)
    case TxFindSender => Lookup(sender, TxLockSender, TxNoSender)
    case TxNoSender => UnlockGate(Done(UNKNOWN_SENDER))
    case TxLockSender => LockClient(TxChecks)
    case TxChecks =>
      Jump(if amount == 0 then TxEarlyUnlock(BALANCE_CHECK)
           else if sender == receiver then TxEarlyUnlock(DUPLICATE_IP)
           else TxFindReceiver)
    case TxFindReceiver => Lookup(receiver, TxLockReceiver, TxProbeSender)
    case TxProbeSender => FindRecord(sender, TxEarlyUnlock(UNKNOWN_RECEIVER))
    case TxEarlyUnlock(status) => UnlockClient(sender, TxEarlyOpen(status))
    case TxEarlyOpen(status) =>
      UnlockGate(if status == BALANCE_CHECK || status == DUPLICATE_IP then TxReread(status) else Done(status))
    case TxReread(status) => ReadBack(sender, Done(status), Thrown(status))
    case TxLockReceiver => LockClient(TxOpenGate)
    case TxOpenGate => UnlockGate(TxLoadSender)
    case TxLoadSender => FindRecord(sender, TxLoadReceiver)
    case TxLoadReceiver => FindRecord(receiver, TxBump)
    case TxBump => BumpRequest(sender, TxCheckBalance)
    case TxCheckBalance => TestBalance(sender, amount, TxDebit, TxUnlockSender(INSUFFICIENT_BALANCE))
    case TxDebit => Debit(sender, amount, TxCredit)
    case TxCredit => Credit(receiver, amount, TxUnlockSender(SUCCESS))
    case TxUnlockSender(status) => UnlockClient(sender, TxUnlockReceiver(status))
    case TxUnlockReceiver(status) =>
      UnlockClient(receiver, if status == SUCCESS then TxMeta else Done(status))
    case TxMeta => LockMeta(TxAddTransferred)
    case TxAddTransferred => CountTransferred(amount, TxAddCount)
    case TxAddCount => CountTransaction(TxOpenMeta)
    case TxOpenMeta => UnlockMeta(Done(SUCCESS))
    case _ => Halt
  }

  function RemoveCode(ip: Addr, pc: Pc): Instr {
    match pc
    case RmGate => LockGate(RmFind)
    case RmFind => Lookup(ip, RmLock, RmMissing)
    case RmMissing => UnlockGate(Done(NOT_FOUND))
    case RmLock => LockClient(RmOpenGate)
    case RmOpenGate => UnlockGate(RmCopy)
    case RmCopy => CopyRecord(ip, RmErase)
    case RmErase => EraseRecord(ip, RmGate2)
    case RmGate2 => LockGate(RmUnlock)
    case RmUnlock => UnlockClient(ip, RmDestroy)
    case RmDestroy => DestroyMutex(ip, RmEraseEntry)
    case RmEraseEntry => EraseEntry(ip, RmOpenGate2)
    case RmOpenGate2 => UnlockGate(RmGate3)
    case RmGate3 => LockGate(RmCount)
    case RmCount => CountRemoved(RmOpenGate3)
    case RmOpenGate3 => UnlockGate(Done(SUCCESS))
    case _ => Halt
  }

  /** The points of a transaction up to where it has both clients, or has an answer without. */
  predicate Locking(pc: Pc) {
    match pc
    case TxGate | TxFindSender | TxNoSender | TxLockSender | TxChecks | TxFindReceiver | TxProbeSender => true
    case TxEarlyUnlock(_) | TxEarlyOpen(_) | TxReread(_) | TxLockReceiver | TxOpenGate => true
    case _ => false
  }

  function Code(op: Operation, pc: Pc): Instr {
    match op
    case RegisterClient(ip) => RegisterCode(ip, pc)
    case MakeTransaction(sender, receiver, amount) => TransactionCode(sender, receiver, amount, pc)
    case RemoveClient(ip) => RemoveCode(ip, pc)
  }

  function Entry(op: Operation): Pc {
    match op
    case RegisterClient(_) => RegStart
    case MakeTransaction(_, _, _) => TxGate
    case RemoveClient(_) => RmGate
  }

  // ---------------------------------------------------------------------------
  // States and steps
  // ---------------------------------------------------------------------------

  datatype Thread = Thread(op: Operation, pc: Pc, pointer: Option<MutexId>, copy: ClientRecord)

  datatype State = State(
    gate: Option<Tid>,
    meta: Option<Tid>,
    entries: map<Addr, MutexId>,
    mutexes: map<MutexId, Option<Tid>>,
    records: map<Addr, ClientRecord>,
    totalBalance: I32,
    totalTransferred: U32,
    numTransactions: I32,
    threads: map<Tid, Thread>)

  function LocksOf(s: State): Locks {
    Locks(s.gate, s.meta, s.entries, s.mutexes, s.records.Keys)
  }

  /** The state in which the threads start: what a constructor or a loaded snapshot leaves behind. */
  function Initial(l: Ledger): State {
    State(None, None, map ip | ip in l.records :: Loaded(ip),
          map ip | ip in l.records :: Loaded(ip) := None,
          l.records, l.totalBalance, l.totalTransferred, l.numTransactions, map[])
  }

  function InstrOf(s: State, t: Tid): Instr
    requires t in s.threads
  {
    Code(s.threads[t].op, s.threads[t].pc)
  }

  /** An instruction can run unless the lock it asks for is taken. */
  predicate Runnable(s: State, th: Thread, i: Instr) {
    match i
    case Halt => false
    case LockGate(_) => s.gate == None
    case LockMeta(_) => s.meta == None
    case LockClient(_) =>
      th.pointer.Some? && th.pointer.value in s.mutexes ==> s.mutexes[th.pointer.value] == None
    case _ => true
  }

  predicate Enabled(s: State, t: Tid) {
    t in s.threads && Runnable(s, s.threads[t], InstrOf(s, t))
  }

  function Goto(s: State, t: Tid, pc: Pc): State
    requires t in s.threads
  {
    s.(threads := s.threads[t := s.threads[t].(pc := pc)])
  }

  function SetRecord(s: State, r: ClientRecord, ip: Addr): State {
    s.(records := s.records[ip := r])
  }

  function SetMutex(s: State, m: MutexId, holder: Option<Tid>): State {
    s.(mutexes := s.mutexes[m := holder])
  }

  /** Thread `t` executes instruction `i`. */
  function Perform(s: State, t: Tid, i: Instr): (s': State)
    requires t in s.threads
    ensures t in s'.threads && s'.threads == s.threads[t := s'.threads[t]]
    ensures s'.threads[t].op == s.threads[t].op
  {
    var th := s.threads[t];
    var stuck := Goto(s, t, Broken);
    match i
    case LockGate(next) => Goto(s, t, next).(gate := Some(t))
    case UnlockGate(next) => if s.gate == Some(t) then Goto(s, t, next).(gate := None) else stuck
    case LockMeta(next) => Goto(s, t, next).(meta := Some(t))
    case UnlockMeta(next) => if s.meta == Some(t) then Goto(s, t, next).(meta := None) else stuck
    case NewMutex(next) =>
      if Created(t) in s.mutexes then stuck else SetMutex(Goto(s, t, next), Created(t), None)
    case DropMutex(next) =>
      if Created(t) in s.mutexes && s.mutexes[Created(t)] == None then
        Goto(s, t, next).(mutexes := s.mutexes - {Created(t)})
      else stuck
    case Publish(ip, added, taken) =>
      if ip in s.entries then Goto(s, t, taken)
      else Goto(s, t, added).(entries := s.entries[ip := Created(t)])
    case Lookup(ip, found, missing) =>
      if ip in s.entries then s.(threads := s.threads[t := th.(pc := found, pointer := Some(s.entries[ip]))])
      else Goto(s, t, missing)
    case LockClient(next) =>
      if th.pointer.Some? && th.pointer.value in s.mutexes then
        SetMutex(s, th.pointer.value, Some(t)).(threads := s.threads[t := th.(pc := next)])
      else stuck
    case UnlockClient(ip, next) =>
      if ip in s.entries && s.entries[ip] in s.mutexes && s.mutexes[s.entries[ip]] == Some(t) then
        SetMutex(Goto(s, t, next), s.entries[ip], None)
      else stuck
    case DestroyMutex(ip, next) =>
      if ip in s.entries && s.entries[ip] in s.mutexes && s.mutexes[s.entries[ip]] == None then
        Goto(s, t, next).(mutexes := s.mutexes - {s.entries[ip]})
      else stuck
    case EraseEntry(ip, next) =>
      if ip in s.entries then Goto(s, t, next).(entries := s.entries - {ip}) else stuck
    case InsertRecord(ip, next) =>
      if ip in s.records then stuck else SetRecord(Goto(s, t, next), NewClient(ip), ip)
    case FindRecord(ip, next) => if ip in s.records then Goto(s, t, next) else stuck
    case ReadBack(ip, present, absent) => Goto(s, t, if ip in s.records then present else absent)
    case CopyRecord(ip, next) =>
      if ip in s.records then s.(threads := s.threads[t := th.(pc := next, copy := s.records[ip])]) else stuck
    case EraseRecord(ip, next) =>
      if ip in s.records then Goto(s, t, next).(records := s.records - {ip}) else stuck
    case BumpRequest(ip, next) =>
      if ip in s.records then SetRecord(Goto(s, t, next), Bumped(s.records[ip]), ip) else stuck
    case TestBalance(ip, amount, enough, poor) =>
      if ip !in s.records then stuck
      else Goto(s, t, if s.records[ip].balance < amount then poor else enough)
    case Debit(ip, amount, next) =>
      if ip in s.records && amount <= s.records[ip].balance then
        SetRecord(Goto(s, t, next), Debited(s.records[ip], amount), ip)
      else stuck
    case Credit(ip, amount, next) =>
      if ip in s.records then SetRecord(Goto(s, t, next), Credited(s.records[ip], amount), ip) else stuck
    case Jump(next) => Goto(s, t, next)
    case CountStart(next) => Goto(s, t, next).(totalBalance := ToI32(s.totalBalance + STARTING_BALANCE))
    case CountRemoved(next) => Goto(s, t, next).(totalBalance := ToI32(s.totalBalance - th.copy.balance))
    case CountTransferred(amount, next) =>
      Goto(s, t, next).(totalTransferred := ToU32(s.totalTransferred + amount))
    case CountTransaction(next) => Goto(s, t, next).(numTransactions := ToI32(s.numTransactions + 1))
    case Halt => s
  }

  function Exec(s: State, t: Tid): (s': State)
    requires t in s.threads
    ensures t in s'.threads && s'.threads == s.threads[t := s'.threads[t]]
    ensures s'.threads[t].op == s.threads[t].op
  {
    Perform(s, t, InstrOf(s, t))
  }

  predicate CanSpawn(s: State, t: Tid) {
    t !in s.threads
  }

  function Spawn(s: State, t: Tid, op: Operation): State {
    s.(threads := s.threads[t := Thread(op, Entry(op), None, NO_RECORD)])
  }

  // ---------------------------------------------------------------------------
  // What each program point entitles its thread to
  // ---------------------------------------------------------------------------

  function Idle(home: Addr, stage: Stage): Stance {
    Stance(false, false, {}, Nothing, None, None, None, home, stage)
  }

  function RegisterStance(ip: Addr, pc: Pc): Stance {
    match pc
    case RegStart => Idle(ip, Unborn)
    case RegGate => Idle(ip, Private)
    case RegInsertLock => Idle(ip, Private).(gate := true)
    case RegFind(inserted) =>
      if inserted then Idle(ip, Published).(gate := true, claim := Vacant(ip), seen := Some(ip))
      else Idle(ip, Private).(gate := true, seen := Some(ip))
    case RegLock(inserted) =>
      if inserted then Idle(ip, Published).(gate := true, claim := Vacant(ip), target := Some(ip))
      else Idle(ip, Private).(gate := true, target := Some(ip))
    case RegOpenGate(inserted) =>
      if inserted then Idle(ip, Published).(gate := true, held := {ip}, claim := Locked(ip))
      else Idle(ip, Private).(gate := true, held := {ip})
    case RegDropMutex => Idle(ip, Private).(held := {ip})
    case RegDupUnlock => Idle(ip, Dropped).(held := {ip})
    case RegInsertRecord => Idle(ip, Published).(held := {ip}, claim := Locked(ip))
    case RegUnlock => Idle(ip, Published).(held := {ip})
    case RegGate2 => Idle(ip, Published)
    case RegCount | RegOpenGate2 => Idle(ip, Published).(gate := true)
    case Done(status) => Idle(ip, if status == SUCCESS then Published else Dropped)
    case _ => Idle(ip, Dropped)
  }

  function TransactionStance(sender: Addr, receiver: Addr, pc: Pc): Stance {
    var idle := Idle(0, Unborn);
    match pc
    case TxFindSender | TxNoSender => idle.(gate := true)
    case TxLockSender => idle.(gate := true, target := Some(sender))
    case TxChecks | TxFindReceiver | TxProbeSender | TxEarlyUnlock(_) => idle.(gate := true, held := {sender})
    case TxEarlyOpen(_) => idle.(gate := true)
    case TxLockReceiver => idle.(gate := true, held := {sender}, target := Some(receiver))
    case TxOpenGate => idle.(gate := true, held := {sender, receiver})
    case TxLoadSender | TxLoadReceiver | TxBump | TxCheckBalance => idle.(held := {sender, receiver})
    case TxDebit | TxCredit | TxUnlockSender(_) => idle.(held := {sender, receiver})
    case TxUnlockReceiver(_) => idle.(held := {receiver})
    case TxAddTransferred | TxAddCount | TxOpenMeta => idle.(meta := true)
    case _ => idle
  }

  function RemoveStance(ip: Addr, pc: Pc): Stance {
    var idle := Idle(0, Unborn);
    match pc
    case RmFind | RmMissing => idle.(gate := true)
    case RmLock => idle.(gate := true, target := Some(ip))
    case RmOpenGate => idle.(gate := true, held := {ip})
    case RmCopy | RmErase => idle.(held := {ip})
    case RmGate2 => idle.(held := {ip}, claim := Locked(ip))
    case RmUnlock => idle.(gate := true, held := {ip}, claim := Locked(ip))
    case RmDestroy => idle.(gate := true, claim := Vacant(ip))
    case RmEraseEntry => idle.(gate := true, claim := Dangling(ip))
    case RmOpenGate2 | RmCount | RmOpenGate3 => idle.(gate := true)
    case _ => idle
  }

  function StanceAt(op: Operation, pc: Pc): Stance {
    match op
    case RegisterClient(ip) => RegisterStance(ip, pc)
    case MakeTransaction(sender, receiver, _) => TransactionStance(sender, receiver, pc)
    case RemoveClient(ip) => RemoveStance(ip, pc)
  }

  function StanceOf(th: Thread): Stance {
    StanceAt(th.op, th.pc).(pointer := th.pointer)
  }

  function Stances(s: State): map<Tid, Stance> {
    map t | t in s.threads :: StanceOf(s.threads[t])
  }
}
