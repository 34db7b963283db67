/** What holds in every interleaving of registrations, transactions and removals. */
module ProgramInvariant {
  import opened MachineInts
  import opened Wrappers
  import opened Ledgers
  import opened LockProtocol
  import opened LedgerProgram

  // ---------------------------------------------------------------------------
  // The invariant
  // ---------------------------------------------------------------------------

  /** Past the tests on the amount and the addresses. */
  predicate Distinct(pc: Pc) {
    match pc
    case TxFindReceiver | TxLockReceiver | TxOpenGate | TxLoadSender | TxLoadReceiver => true
    case TxBump | TxCheckBalance | TxDebit | TxCredit | TxUnlockSender(_) => true
    case _ => false
  }

  /** A transfer of something from one client to another. */
  predicate Proper(op: Operation)
    requires op.MakeTransaction?
  {
    op.sender != op.receiver && op.amount != 0
  }

  ghost predicate ThreadTrue(records: map<Addr, ClientRecord>, th: Thread) {
    && (Code(th.op, th.pc).Halt? ==> Ended(th.pc))
    && (th.op.MakeTransaction? && Distinct(th.pc) ==> Proper(th.op))
    && (th.op.MakeTransaction? && th.pc.TxDebit? ==>
          th.op.sender in records && th.op.amount <= records[th.op.sender].balance)
    && (th.op.MakeTransaction? && th.pc.TxCredit? ==>
          th.op.sender in records && records[th.op.sender].balance + th.op.amount < TWO64)
    && (th.op.RemoveClient? && th.pc.RmErase? ==>
          th.op.client in records && records[th.op.client] == th.copy)
  }

  ghost predicate Inv(s: State) {
    && Consistent(LocksOf(s), Stances(s))
    && (forall t :: t in s.threads ==> ThreadTrue(s.records, s.threads[t]))
    && (forall ip :: ip in s.records ==> s.records[ip].ip == ip)
  }

  // ---------------------------------------------------------------------------
  // The code keeps to the lock discipline
  // ---------------------------------------------------------------------------

  /** Going on from `pc` to `next` by action `a` is within the thread's rights and gives it those of `next`. */
  predicate Leads(op: Operation, pc: Pc, a: Action, next: Pc) {
    && next != Broken
    && Allowed(StanceAt(op, pc), a)
    && StanceAt(op, next) == Shift(StanceAt(op, pc), a)
  }

  predicate Lawful(op: Operation, pc: Pc, i: Instr) {
    match i
    case LockGate(next) => Leads(op, pc, TakeGate, next)
    case UnlockGate(next) => Leads(op, pc, GiveGate, next)
    case LockMeta(next) => Leads(op, pc, TakeMeta, next)
    case UnlockMeta(next) => Leads(op, pc, GiveMeta, next)
    case NewMutex(next) => Leads(op, pc, Allocate, next)
    case DropMutex(next) => Leads(op, pc, Discard, next)
    case Publish(ip, added, taken) =>
      ip == StanceAt(op, pc).home && Leads(op, pc, Enter, added) && Leads(op, pc, See(ip), taken)
    case Lookup(ip, found, missing) =>
      && Leads(op, pc, Resolve(ip), found)
      && (if missing == Broken then StanceAt(op, pc).seen == Some(ip) else Leads(op, pc, Skip, missing))
    case LockClient(next) => Leads(op, pc, TakeClient, next)
    case UnlockClient(ip, next) => Leads(op, pc, GiveClient(ip), next)
    case DestroyMutex(ip, next) => StanceAt(op, pc).claim == Vacant(ip) && Leads(op, pc, Destroy, next)
    case EraseEntry(ip, next) => StanceAt(op, pc).claim == Dangling(ip) && Leads(op, pc, Forget, next)
    case InsertRecord(ip, next) => StanceAt(op, pc).claim == Locked(ip) && Leads(op, pc, Insert, next)
    case FindRecord(ip, next) => Leads(op, pc, Touch(ip), next)
    case ReadBack(_, present, absent) => Leads(op, pc, Skip, present) && Leads(op, pc, Skip, absent)
    case CopyRecord(ip, next) => Leads(op, pc, Touch(ip), next)
    case EraseRecord(ip, next) => Leads(op, pc, Erase(ip), next)
    case BumpRequest(ip, next) => Leads(op, pc, Touch(ip), next)
    case TestBalance(ip, _, enough, poor) => Leads(op, pc, Touch(ip), enough) && Leads(op, pc, Touch(ip), poor)
    case Debit(ip, _, next) => Leads(op, pc, Touch(ip), next)
    case Credit(ip, _, next) => Leads(op, pc, Touch(ip), next)
    case Jump(next) => Leads(op, pc, Skip, next)
    case CountStart(next) => Leads(op, pc, Skip, next)
    case CountRemoved(next) => Leads(op, pc, Skip, next)
    case CountTransferred(_, next) => Leads(op, pc, Skip, next)
    case CountTransaction(next) => Leads(op, pc, Skip, next)
    case Halt => true
  }

  lemma RegisterPublishLawful(op: Operation, pc: Pc)
    requires op.RegisterClient? && (pc.RegStart? || pc.RegGate?)
    ensures Lawful(op, pc, Code(op, pc))
  {
  }

  lemma RegisterInsertLawful(op: Operation, pc: Pc)
    requires op.RegisterClient? && pc.RegInsertLock?
    ensures Lawful(op, pc, Code(op, pc))
  {
  }

  lemma RegisterLockLawful(op: Operation, pc: Pc)
    requires op.RegisterClient? && (pc.RegFind? || pc.RegLock? || pc.RegOpenGate?)
    ensures Lawful(op, pc, Code(op, pc))
  {
  }

  lemma RegisterDuplicateLawful(op: Operation, pc: Pc)
    requires op.RegisterClient? && (pc.RegDropMutex? || pc.RegDupUnlock?)
    ensures Lawful(op, pc, Code(op, pc))
  {
  }

  lemma RegisterRecordLawful(op: Operation, pc: Pc)
    requires op.RegisterClient? && (pc.RegInsertRecord? || pc.RegUnlock?)
    ensures Lawful(op, pc, Code(op, pc))
  {
  }

  lemma RegisterCountLawful(op: Operation, pc: Pc)
    requires op.RegisterClient? && (pc.RegGate2? || pc.RegCount? || pc.RegOpenGate2?)
    ensures Lawful(op, pc, Code(op, pc))
  {
  }

  lemma TransactionSenderLawful(op: Operation, pc: Pc)
    requires op.MakeTransaction? && (pc.TxGate? || pc.TxFindSender?)
    ensures Lawful(op, pc, Code(op, pc))
  {
  }

  lemma TransactionSenderLockLawful(op: Operation, pc: Pc)
    requires op.MakeTransaction? && (pc.TxNoSender? || pc.TxLockSender?)
    ensures Lawful(op, pc, Code(op, pc))
  {
  }

  lemma TransactionChecksLawful(op: Operation, pc: Pc)
    requires op.MakeTransaction? && pc.TxChecks?
    ensures Lawful(op, pc, Code(op, pc))
  {
  }

  lemma TransactionReceiverLawful(op: Operation, pc: Pc)
    requires op.MakeTransaction? && (pc.TxFindReceiver? || pc.TxProbeSender?)
    ensures Lawful(op, pc, Code(op, pc))
  {
  }

  lemma TransactionEarlyLawful(op: Operation, pc: Pc)
    requires op.MakeTransaction? && (pc.TxEarlyUnlock? || pc.TxEarlyOpen?)
    ensures Lawful(op, pc, Code(op, pc))
  {
  }

  lemma TransactionRereadLawful(op: Operation, pc: Pc)
    requires op.MakeTransaction? && pc.TxReread?
    ensures Lawful(op, pc, Code(op, pc))
  {
  }

  lemma TransactionGateLawful(op: Operation, pc: Pc)
    requires op.MakeTransaction? && (pc.TxLockReceiver? || pc.TxOpenGate?)
    ensures Lawful(op, pc, Code(op, pc))
  {
  }

  lemma TransactionRecordLawful(op: Operation, pc: Pc)
    requires op.MakeTransaction? && (pc.TxLoadSender? || pc.TxLoadReceiver? || pc.TxBump?)
    ensures Lawful(op, pc, Code(op, pc))
  {
  }

  lemma TransactionCheckLawful(op: Operation, pc: Pc)
    requires op.MakeTransaction? && pc.TxCheckBalance?
    ensures Lawful(op, pc, Code(op, pc))
  {
  }

  lemma TransactionPayLawful(op: Operation, pc: Pc)
    requires op.MakeTransaction? && (pc.TxDebit? || pc.TxCredit?)
    ensures Lawful(op, pc, Code(op, pc))
  {
  }

  lemma TransactionUnlockSenderLawful(op: Operation, pc: Pc)
    requires op.MakeTransaction? && pc.TxUnlockSender? && op.sender != op.receiver
    ensures Lawful(op, pc, Code(op, pc))
  {
  }

  lemma TransactionUnlockReceiverLawful(op: Operation, pc: Pc)
    requires op.MakeTransaction? && pc.TxUnlockReceiver?
    ensures Lawful(op, pc, Code(op, pc))
  {
  }

  lemma TransactionMetaLawful(op: Operation, pc: Pc)
    requires op.MakeTransaction? && (pc.TxMeta? || pc.TxOpenMeta?)
    ensures Lawful(op, pc, Code(op, pc))
  {
  }

  lemma TransactionCountLawful(op: Operation, pc: Pc)
    requires op.MakeTransaction? && (pc.TxAddTransferred? || pc.TxAddCount?)
    ensures Lawful(op, pc, Code(op, pc))
  {
  }

  lemma RemoveGateLawful(op: Operation, pc: Pc)
    requires op.RemoveClient? && pc.RmGate?
    ensures Lawful(op, pc, Code(op, pc))
  {
  }

  lemma RemoveFindLawful(op: Operation, pc: Pc)
    requires op.RemoveClient? && pc.RmFind?
    ensures Lawful(op, pc, Code(op, pc))
  {
  }

  lemma RemoveMissingLawful(op: Operation, pc: Pc)
    requires op.RemoveClient? && pc.RmMissing?
    ensures Lawful(op, pc, Code(op, pc))
  {
  }

  lemma RemoveRecordLawful(op: Operation, pc: Pc)
    requires op.RemoveClient? && (pc.RmLock? || pc.RmOpenGate? || pc.RmCopy?)
    ensures Lawful(op, pc, Code(op, pc))
  {
  }

  lemma RemoveEraseLawful(op: Operation, pc: Pc)
    requires op.RemoveClient? && (pc.RmErase? || pc.RmGate2?)
    ensures Lawful(op, pc, Code(op, pc))
  {
  }

  lemma RemoveUnlockLawful(op: Operation, pc: Pc)
    requires op.RemoveClient? && pc.RmUnlock?
    ensures Lawful(op, pc, Code(op, pc))
  {
  }

  lemma RemoveEntryLawful(op: Operation, pc: Pc)
    requires op.RemoveClient? && (pc.RmDestroy? || pc.RmEraseEntry?)
    ensures Lawful(op, pc, Code(op, pc))
  {
  }

  lemma RemoveLeaveLawful(op: Operation, pc: Pc)
    requires op.RemoveClient? && (pc.RmOpenGate2? || pc.RmGate3?)
    ensures Lawful(op, pc, Code(op, pc))
  {
  }

  lemma RemoveCountLawful(op: Operation, pc: Pc)
    requires op.RemoveClient? && (pc.RmCount? || pc.RmOpenGate3?)
    ensures Lawful(op, pc, Code(op, pc))
  {
  }

  lemma RegisterLawful(op: Operation, pc: Pc)
    requires op.RegisterClient?
    ensures Lawful(op, pc, Code(op, pc))
  {
    if pc.RegStart? || pc.RegGate? {
      RegisterPublishLawful(op, pc);
    } else if pc.RegInsertLock? {
      RegisterInsertLawful(op, pc);
    } else if pc.RegFind? || pc.RegLock? || pc.RegOpenGate? {
      RegisterLockLawful(op, pc);
    } else if pc.RegDropMutex? || pc.RegDupUnlock? {
      RegisterDuplicateLawful(op, pc);
    } else if pc.RegInsertRecord? || pc.RegUnlock? {
      RegisterRecordLawful(op, pc);
    } else if pc.RegGate2? || pc.RegCount? || pc.RegOpenGate2? {
      RegisterCountLawful(op, pc);
    }
  }

  lemma TransactionLawful(op: Operation, pc: Pc)
    requires op.MakeTransaction? && (Distinct(pc) ==> Proper(op))
    ensures Lawful(op, pc, Code(op, pc))
  {
    if pc.TxGate? || pc.TxFindSender? {
      TransactionSenderLawful(op, pc);
    } else if pc.TxNoSender? || pc.TxLockSender? {
      TransactionSenderLockLawful(op, pc);
    } else if pc.TxChecks? {
      TransactionChecksLawful(op, pc);
    } else if pc.TxFindReceiver? || pc.TxProbeSender? {
      TransactionReceiverLawful(op, pc);
    } else if pc.TxEarlyUnlock? || pc.TxEarlyOpen? {
      TransactionEarlyLawful(op, pc);
    } else if pc.TxReread? {
      TransactionRereadLawful(op, pc);
    } else if pc.TxLockReceiver? || pc.TxOpenGate? {
      TransactionGateLawful(op, pc);
    } else if pc.TxLoadSender? || pc.TxLoadReceiver? || pc.TxBump? {
      TransactionRecordLawful(op, pc);
    } else if pc.TxCheckBalance? {
      TransactionCheckLawful(op, pc);
    } else if pc.TxDebit? || pc.TxCredit? {
      TransactionPayLawful(op, pc);
    } else if pc.TxUnlockSender? {
      TransactionUnlockSenderLawful(op, pc);
    } else if pc.TxUnlockReceiver? {
      TransactionUnlockReceiverLawful(op, pc);
    } else if pc.TxMeta? || pc.TxOpenMeta? {
      TransactionMetaLawful(op, pc);
    } else if pc.TxAddTransferred? || pc.TxAddCount? {
      TransactionCountLawful(op, pc);
    }
  }

  lemma RemoveLawful(op: Operation, pc: Pc)
    requires op.RemoveClient?
    ensures Lawful(op, pc, Code(op, pc))
  {
    if pc.RmGate? {
      RemoveGateLawful(op, pc);
    } else if pc.RmFind? {
      RemoveFindLawful(op, pc);
    } else if pc.RmMissing? {
      RemoveMissingLawful(op, pc);
    } else if pc.RmLock? || pc.RmOpenGate? || pc.RmCopy? {
      RemoveRecordLawful(op, pc);
    } else if pc.RmErase? || pc.RmGate2? {
      RemoveEraseLawful(op, pc);
    } else if pc.RmUnlock? {
      RemoveUnlockLawful(op, pc);
    } else if pc.RmDestroy? || pc.RmEraseEntry? {
      RemoveEntryLawful(op, pc);
    } else if pc.RmOpenGate2? || pc.RmGate3? {
      RemoveLeaveLawful(op, pc);
    } else if pc.RmCount? || pc.RmOpenGate3? {
      RemoveCountLawful(op, pc);
    }
  }

  /** Every instruction of the three programs keeps to the discipline. */
  lemma CodeLawful(op: Operation, pc: Pc)
    requires op.MakeTransaction? && Distinct(pc) ==> Proper(op)
    ensures Lawful(op, pc, Code(op, pc))
  {
    match op
    case RegisterClient(_) => RegisterLawful(op, pc);
    case MakeTransaction(_, _, _) => TransactionLawful(op, pc);
    case RemoveClient(_) => RemoveLawful(op, pc);
  }

  // ---------------------------------------------------------------------------
  // Every step keeps the lock invariant
  // ---------------------------------------------------------------------------

  function ActionOf(i: Instr, entries: map<Addr, MutexId>): Action {
    match i
    case LockGate(_) => TakeGate
    case UnlockGate(_) => GiveGate
    case LockMeta(_) => TakeMeta
    case UnlockMeta(_) => GiveMeta
    case NewMutex(_) => Allocate
    case DropMutex(_) => Discard
    case Publish(ip, _, _) => if ip in entries then See(ip) else Enter
    case Lookup(ip, _, _) => if ip in entries then Resolve(ip) else Skip
    case LockClient(_) => TakeClient
    case UnlockClient(ip, _) => GiveClient(ip)
    case DestroyMutex(_, _) => Destroy
    case EraseEntry(_, _) => Forget
    case InsertRecord(_, _) => Insert
    case EraseRecord(ip, _) => Erase(ip)
    case FindRecord(ip, _) => Touch(ip)
    case CopyRecord(ip, _) => Touch(ip)
    case BumpRequest(ip, _) => Touch(ip)
    case TestBalance(ip, _, _, _) => Touch(ip)
    case Debit(ip, _, _) => Touch(ip)
    case Credit(ip, _, _) => Touch(ip)
    case _ => Skip
  }

  /** Where an instruction goes on when nothing is amiss. */
  function Successor(s: State, i: Instr): Pc {
    match i
    case Publish(ip, added, taken) => if ip in s.entries then taken else added
    case Lookup(ip, found, missing) => if ip in s.entries then found else missing
    case TestBalance(ip, amount, enough, poor) =>
      if ip in s.records && s.records[ip].balance < amount then poor else enough
    case ReadBack(ip, present, absent) => if ip in s.records then present else absent
    case Halt => Broken
    case _ => i.next
  }

  /** What the code's law says of the branch that is taken. */
  lemma LawfulStep(s: State, op: Operation, pc: Pc, i: Instr)
    requires Lawful(op, pc, i) && !i.Halt?
    requires StanceAt(op, pc).seen.Some? ==> StanceAt(op, pc).seen.value in s.entries
    ensures Leads(op, pc, ActionOf(i, s.entries), Successor(s, i))
  {
  }

  /** The operands of an instruction are those its action stands for. */
  predicate Fits(v: Stance, i: Instr) {
    && (i.Publish? ==> i.ip == v.home)
    && (i.DestroyMutex? ==> v.claim == Vacant(i.ip))
    && (i.EraseEntry? ==> v.claim == Dangling(i.ip))
    && (i.InsertRecord? ==> v.claim == Locked(i.ip))
  }

  /** The instruction finds what it needs: its record, and enough money to debit. */
  ghost predicate Found(s: State, t: Tid, i: Instr, v: Stance) {
    && (i.LockClient? ==> v.pointer.Some? && v.pointer.value in s.mutexes)
    && (ActionOf(i, s.entries).Touch? || ActionOf(i, s.entries).Erase? ==> i.ip in s.records)
    && (i.Debit? ==> i.amount <= s.records[i.ip].balance)
  }

  /** The instruction did to the locks what its action says, and did not get stuck. */
  ghost predicate Went(s: State, t: Tid, i: Instr, v: Stance)
    requires t in s.threads && Allowed(v, ActionOf(i, s.entries))
  {
    var a, s' := ActionOf(i, s.entries), Perform(s, t, i);
    && Ready(LocksOf(s), v, a)
    && Performed(LocksOf(s), t, v, a, LocksOf(s'))
    && s'.threads[t].pc == Successor(s, i)
    && s'.threads[t].pointer == Pointed(LocksOf(s), Shift(v, a), a).pointer
  }

  /** The instructions on the database lock and the metadata lock. */
  predicate OnGates(i: Instr) {
    i.LockGate? || i.UnlockGate? || i.LockMeta? || i.UnlockMeta?
  }

  lemma PerformGates(s: State, t: Tid, i: Instr, v: Stance)
    requires t in s.threads && OnGates(i) && Runnable(s, s.threads[t], i)
    requires v.pointer == s.threads[t].pointer && StanceTrue(LocksOf(s), t, v)
    requires Allowed(v, ActionOf(i, s.entries))
    ensures Went(s, t, i, v)
  {
  }

  /** The instructions on a client's mutex. */
  predicate OnMutex(i: Instr) {
    i.LockClient? || i.UnlockClient? || i.DestroyMutex?
  }

  lemma PerformMutex(s: State, t: Tid, i: Instr, v: Stance)
    requires t in s.threads && OnMutex(i) && Runnable(s, s.threads[t], i)
    requires Fits(v, i) && v.pointer == s.threads[t].pointer && StanceTrue(LocksOf(s), t, v)
    requires Allowed(v, ActionOf(i, s.entries)) && Found(s, t, i, v)
    ensures Went(s, t, i, v)
  {
  }

  lemma PerformLocks(s: State, t: Tid, i: Instr, v: Stance)
    requires t in s.threads && !i.Halt? && !OnGates(i) && !OnMutex(i) && !i.InsertRecord? && !i.EraseRecord?
    requires !ActionOf(i, s.entries).Touch? && !ActionOf(i, s.entries).Skip? && Runnable(s, s.threads[t], i)
    requires Fits(v, i) && v.pointer == s.threads[t].pointer && StanceTrue(LocksOf(s), t, v)
    requires Allowed(v, ActionOf(i, s.entries)) && Found(s, t, i, v)
    ensures Went(s, t, i, v)
  {
  }

  lemma PerformMembership(s: State, t: Tid, i: Instr, v: Stance)
    requires t in s.threads && v.pointer == s.threads[t].pointer
    requires Fits(v, i) && StanceTrue(LocksOf(s), t, v)
    requires Allowed(v, ActionOf(i, s.entries)) && Found(s, t, i, v)
    requires i.InsertRecord? || i.EraseRecord?
    ensures Went(s, t, i, v)
  {
    if i.InsertRecord? {
      assert Perform(s, t, i).records.Keys == s.records.Keys + {i.ip};
    } else {
      assert Perform(s, t, i).records.Keys == s.records.Keys - {i.ip};
    }
  }

  lemma PerformInPlace(s: State, t: Tid, i: Instr, v: Stance)
    requires t in s.threads && !i.Halt? && v.pointer == s.threads[t].pointer
    requires Allowed(v, ActionOf(i, s.entries)) && Found(s, t, i, v)
    requires ActionOf(i, s.entries).Touch? || ActionOf(i, s.entries).Skip?
    ensures Went(s, t, i, v)
  {
    assert Perform(s, t, i).records.Keys == s.records.Keys;
  }

  /** What the lock invariant puts in place before an instruction runs. */
  lemma InstructionFinds(s: State, vs: map<Tid, Stance>, t: Tid, i: Instr)
    requires Consistent(LocksOf(s), vs) && t in vs
    requires Allowed(vs[t], ActionOf(i, s.entries))
    requires i.Debit? && i.ip in s.records ==> i.amount <= s.records[i.ip].balance
    ensures StanceTrue(LocksOf(s), t, vs[t]) && Found(s, t, i, vs[t])
  {
    var a := ActionOf(i, s.entries);
    assert StanceTrue(LocksOf(s), t, vs[t]);
    if a.Touch? || a.Erase? {
      RecordPresent(LocksOf(s), vs, t, i.ip);
    } else if i.LockClient? {
      assert EntryTrue(LocksOf(s), vs, vs[t].target.value);
    }
  }

  lemma InstructionKeeps(s: State, vs: map<Tid, Stance>, t: Tid, i: Instr)
    requires Consistent(LocksOf(s), vs) && t in vs && t in s.threads && vs[t].pointer == s.threads[t].pointer
    requires !i.Halt? && Runnable(s, s.threads[t], i) && Fits(vs[t], i) && Allowed(vs[t], ActionOf(i, s.entries))
    requires i.Debit? && i.ip in s.records ==> i.amount <= s.records[i.ip].balance
    ensures Went(s, t, i, vs[t])
    ensures var a := ActionOf(i, s.entries);
            Consistent(LocksOf(Perform(s, t, i)), vs[t := Pointed(LocksOf(s), Shift(vs[t], a), a)])
  {
    var a := ActionOf(i, s.entries);
    InstructionFinds(s, vs, t, i);
    if a.Touch? || a.Skip? {
      PerformInPlace(s, t, i, vs[t]);
    } else if i.InsertRecord? || i.EraseRecord? {
      PerformMembership(s, t, i, vs[t]);
    } else if OnGates(i) {
      PerformGates(s, t, i, vs[t]);
    } else if OnMutex(i) {
      PerformMutex(s, t, i, vs[t]);
    } else {
      PerformLocks(s, t, i, vs[t]);
    }
    ActionKeeps(LocksOf(s), vs, t, a, LocksOf(Perform(s, t, i)));
  }

  lemma CodeLeads(s: State, op: Operation, pc: Pc)
    requires op.MakeTransaction? && Distinct(pc) ==> Proper(op)
    requires StanceAt(op, pc).seen.Some? ==> StanceAt(op, pc).seen.value in s.entries
    requires !Code(op, pc).Halt?
    ensures var i := Code(op, pc);
            Fits(StanceAt(op, pc), i) && Leads(op, pc, ActionOf(i, s.entries), Successor(s, i))
  {
    CodeLawful(op, pc);
    LawfulStep(s, op, pc, Code(op, pc));
  }

  lemma DebitCovered(s: State, th: Thread)
    requires ThreadTrue(s.records, th)
    ensures var i := Code(th.op, th.pc); i.Debit? ==> i.ip in s.records && i.amount <= s.records[i.ip].balance
  {
  }

  lemma StancesFollow(s: State, t: Tid, a: Action, s': State)
    requires t in s.threads && t in s'.threads && s'.threads == s.threads[t := s'.threads[t]]
    requires s'.threads[t].op == s.threads[t].op
    requires Leads(s.threads[t].op, s.threads[t].pc, a, s'.threads[t].pc)
    requires Allowed(Stances(s)[t], a) && Ready(LocksOf(s), Stances(s)[t], a)
    requires s'.threads[t].pointer == Pointed(LocksOf(s), Shift(Stances(s)[t], a), a).pointer
    ensures Stances(s') == Stances(s)[t := Pointed(LocksOf(s), Shift(Stances(s)[t], a), a)]
  {
    var th := s.threads[t];
    assert Stances(s)[t] == StanceAt(th.op, th.pc).(pointer := th.pointer);
    assert Shift(Stances(s)[t], a) == Shift(StanceAt(th.op, th.pc), a).(pointer := th.pointer);
  }

  /** What is in place when a thread is about to execute its next instruction. */
  ghost predicate Prepared(s: State, t: Tid, i: Instr)
    requires t in s.threads
  {
    var th, v := s.threads[t], Stances(s)[t];
    && !i.Halt? && Fits(v, i) && Allowed(v, ActionOf(i, s.entries))
    && Leads(th.op, th.pc, ActionOf(i, s.entries), Successor(s, i))
    && (i.Debit? && i.ip in s.records ==> i.amount <= s.records[i.ip].balance)
  }

  lemma StepPrepared(s: State, t: Tid)
    requires Inv(s) && Enabled(s, t)
    ensures Prepared(s, t, InstrOf(s, t))
  {
    assert ThreadTrue(s.records, s.threads[t]);
    SeenListed(s, t);
    CodePrepared(s, t);
  }

  lemma CodePrepared(s: State, t: Tid)
    requires t in s.threads && ThreadTrue(s.records, s.threads[t]) && !InstrOf(s, t).Halt?
    requires var seen := StanceAt(s.threads[t].op, s.threads[t].pc).seen; seen.Some? ==> seen.value in s.entries
    ensures Prepared(s, t, InstrOf(s, t))
  {
    var th := s.threads[t];
    CodeLeads(s, th.op, th.pc);
    DebitCovered(s, th);
    PointerIdle(StanceAt(th.op, th.pc), th.pointer, Code(th.op, th.pc), ActionOf(Code(th.op, th.pc), s.entries));
  }

  /** What a thread may do does not depend on the pointer it has looked up. */
  lemma PointerIdle(v: Stance, p: Option<MutexId>, i: Instr, a: Action)
    ensures Fits(v.(pointer := p), i) <==> Fits(v, i)
    ensures Allowed(v.(pointer := p), a) <==> Allowed(v, a)
  {
  }

  lemma SeenListed(s: State, t: Tid)
    requires Inv(s) && t in s.threads
    ensures var seen := StanceAt(s.threads[t].op, s.threads[t].pc).seen; seen.Some? ==> seen.value in s.entries
  {
    assert StanceTrue(LocksOf(s), t, Stances(s)[t]);
  }

  lemma PreparedStep(s: State, t: Tid, i: Instr)
    requires Consistent(LocksOf(s), Stances(s))
    requires t in s.threads && Prepared(s, t, i) && Runnable(s, s.threads[t], i)
    ensures var s' := Perform(s, t, i);
            s'.threads[t].pc == Successor(s, i) != Broken && Consistent(LocksOf(s'), Stances(s'))
  {
    InstructionKeeps(s, Stances(s), t, i);
    StancesFollow(s, t, ActionOf(i, s.entries), Perform(s, t, i));
  }

  lemma StepLocks(s: State, t: Tid)
    requires Inv(s) && Enabled(s, t)
    ensures var s' := Exec(s, t);
            && s'.threads[t].pc == Successor(s, InstrOf(s, t)) != Broken
            && Consistent(LocksOf(s'), Stances(s'))
  {
    StepPrepared(s, t);
    PreparedStep(s, t, InstrOf(s, t));
  }

  // ---------------------------------------------------------------------------
  // Every step keeps what threads know of records
  // ---------------------------------------------------------------------------

  /** The record an instruction changes, adds or removes. */
  function Written(i: Instr): Option<Addr> {
    match i
    case InsertRecord(ip, _) => Some(ip)
    case EraseRecord(ip, _) => Some(ip)
    case BumpRequest(ip, _) => Some(ip)
    case Debit(ip, _, _) => Some(ip)
    case Credit(ip, _, _) => Some(ip)
    case _ => None
  }

  ghost predicate SameRecord(a: map<Addr, ClientRecord>, b: map<Addr, ClientRecord>, ip: Addr) {
    (ip in a <==> ip in b) && (ip in a ==> a[ip] == b[ip])
  }

  lemma PerformWrites(s: State, t: Tid, i: Instr)
    requires t in s.threads
    requires forall ip :: ip in s.records ==> s.records[ip].ip == ip
    ensures forall ip: Addr :: Written(i) != Some(ip) ==> SameRecord(s.records, Perform(s, t, i).records, ip)
    ensures forall ip :: ip in Perform(s, t, i).records ==> Perform(s, t, i).records[ip].ip == ip
  {
    if Written(i).Some? {
      PerformWritesOne(s, t, i);
    } else {
      PerformWritesNone(s, t, i);
    }
  }

  lemma PerformWritesOne(s: State, t: Tid, i: Instr)
    requires t in s.threads && Written(i).Some?
    requires forall ip :: ip in s.records ==> s.records[ip].ip == ip
    ensures forall ip: Addr :: Written(i) != Some(ip) ==> SameRecord(s.records, Perform(s, t, i).records, ip)
    ensures forall ip :: ip in Perform(s, t, i).records ==> Perform(s, t, i).records[ip].ip == ip
  {
  }

  lemma PerformWritesNone(s: State, t: Tid, i: Instr)
    requires t in s.threads && Written(i).None?
    ensures Perform(s, t, i).records == s.records
  {
    assert !i.InsertRecord? && !i.EraseRecord? && !i.BumpRequest? && !i.Debit? && !i.Credit?;
  }

  lemma WritingNeedsHolding(v: Stance, i: Instr, entries: map<Addr, MutexId>)
    requires Allowed(v, ActionOf(i, entries)) && Fits(v, i) && (v.claim.Locked? ==> v.claim.ip in v.held)
    ensures Written(i).Some? ==> Written(i).value in v.held
  {
  }

  /** Records are written by the holder of their mutex only. */
  lemma WriterHolds(s: State, t: Tid)
    requires Inv(s) && Enabled(s, t) && Written(InstrOf(s, t)).Some?
    ensures Written(InstrOf(s, t)).value in Stances(s)[t].held
  {
    var th := s.threads[t];
    assert ThreadTrue(s.records, th) && StanceTrue(LocksOf(s), t, Stances(s)[t]);
    CodeLeads(s, th.op, th.pc);
    WritingNeedsHolding(StanceAt(th.op, th.pc), Code(th.op, th.pc), s.entries);
  }

  /** The client whose record a thread relies on, if any. */
  function Relied(th: Thread): Option<Addr> {
    if th.op.MakeTransaction? && (th.pc.TxDebit? || th.pc.TxCredit?) then Some(th.op.sender)
    else if th.op.RemoveClient? && th.pc.RmErase? then Some(th.op.client)
    else None
  }

  lemma ReliedHeld(th: Thread)
    ensures Relied(th).Some? ==> Relied(th).value in StanceOf(th).held
  {
  }

  lemma HeldApart(s: State, t: Tid, u: Tid, ip: Addr)
    requires Inv(s) && t in s.threads && u in s.threads && t != u && ip in Stances(s)[t].held
    ensures ip !in Stances(s)[u].held
  {
    assert StanceTrue(LocksOf(s), t, Stances(s)[t]) && StanceTrue(LocksOf(s), u, Stances(s)[u]);
  }

  lemma OthersKeep(s: State, t: Tid, u: Tid)
    requires Inv(s) && Enabled(s, t) && u in s.threads && u != t
    ensures ThreadTrue(Exec(s, t).records, s.threads[u])
  {
    var i, th := InstrOf(s, t), s.threads[u];
    assert ThreadTrue(s.records, th);
    PerformWrites(s, t, i);
    if Written(i).Some? {
      WriterHolds(s, t);
      HeldApart(s, t, u, Written(i).value);
    }
    if Relied(th).Some? {
      ReliedHeld(th);
      assert SameRecord(s.records, Exec(s, t).records, Relied(th).value);
    }
  }

  /** The program goes on, or has finished. */
  lemma GoesOn(s: State, op: Operation, pc: Pc)
    requires !Code(op, pc).Halt? && Successor(s, Code(op, pc)) != Broken
    ensures var next := Successor(s, Code(op, pc)); Code(op, next).Halt? ==> Ended(next)
  {
    match op
    case RegisterClient(_) => RegistrationGoesOn(s, op, pc);
    case MakeTransaction(_, _, _) => TransactionGoesOn(s, op, pc);
    case RemoveClient(_) => RemovalGoesOn(s, op, pc);
  }

  ghost predicate Proceeds(s: State, op: Operation, pc: Pc) {
    var next := Successor(s, Code(op, pc));
    next != Broken && Code(op, next).Halt? ==> Ended(next)
  }

  lemma RegistrationGoesOn(s: State, op: Operation, pc: Pc)
    requires op.RegisterClient? && !Code(op, pc).Halt?
    ensures Proceeds(s, op, pc)
  {
  }

  lemma TransactionGoesOn(s: State, op: Operation, pc: Pc)
    requires op.MakeTransaction? && !Code(op, pc).Halt?
    ensures Proceeds(s, op, pc)
  {
  }

  lemma RemovalGoesOn(s: State, op: Operation, pc: Pc)
    requires op.RemoveClient? && !Code(op, pc).Halt?
    ensures Proceeds(s, op, pc)
  {
  }

  lemma StaysDistinct(s: State, op: Operation, pc: Pc)
    requires op.MakeTransaction? && !Code(op, pc).Halt? && (Distinct(pc) ==> Proper(op))
    ensures Distinct(Successor(s, Code(op, pc))) ==> Proper(op)
  {
  }

  lemma StaysAffordable(s: State, t: Tid)
    requires t in s.threads && s.threads[t].op.MakeTransaction?
    requires Enabled(s, t) && Exec(s, t).threads[t].pc == Successor(s, InstrOf(s, t)) != Broken
    ensures var th, records := Exec(s, t).threads[t], Exec(s, t).records;
            th.pc.TxDebit? ==> th.op.sender in records && th.op.amount <= records[th.op.sender].balance
  {
    var op, pc := s.threads[t].op, s.threads[t].pc;
    assert Successor(s, Code(op, pc)).TxDebit? ==> pc.TxCheckBalance?;
  }

  lemma StaysCreditable(s: State, t: Tid)
    requires t in s.threads && s.threads[t].op.MakeTransaction?
    requires Enabled(s, t) && Exec(s, t).threads[t].pc == Successor(s, InstrOf(s, t)) != Broken
    ensures var th, records := Exec(s, t).threads[t], Exec(s, t).records;
            th.pc.TxCredit? ==> th.op.sender in records && records[th.op.sender].balance + th.op.amount < TWO64
  {
    var op, pc := s.threads[t].op, s.threads[t].pc;
    assert Successor(s, Code(op, pc)).TxCredit? ==> pc.TxDebit?;
  }

  lemma StaysCopied(s: State, t: Tid)
    requires t in s.threads && s.threads[t].op.RemoveClient?
    requires Enabled(s, t) && Exec(s, t).threads[t].pc == Successor(s, InstrOf(s, t)) != Broken
    ensures var th, records := Exec(s, t).threads[t], Exec(s, t).records;
            th.pc.RmErase? ==> th.op.client in records && records[th.op.client] == th.copy
  {
    var op, pc := s.threads[t].op, s.threads[t].pc;
    assert Successor(s, Code(op, pc)).RmErase? ==> pc.RmCopy?;
  }

  // ---------------------------------------------------------------------------
  // The invariant holds in every reachable state
  // ---------------------------------------------------------------------------

  lemma InitialInv(l: Ledger)
    requires Sound(l)
    ensures Inv(Initial(l))
  {
  }

  lemma SpawnInv(s: State, t: Tid, op: Operation)
    requires Inv(s) && CanSpawn(s, t)
    ensures Inv(Spawn(s, t, op))
  {
    var s' := Spawn(s, t, op);
    KeepSpawn(LocksOf(s), Stances(s), t, StanceOf(s'.threads[t]));
    assert Stances(s') == Stances(s)[t := StanceOf(s'.threads[t])];
    forall u | u in s'.threads ensures ThreadTrue(s'.records, s'.threads[u]) {
      if u == t {
        EntryFacts(s.records, s'.threads[t]);
      } else {
        assert ThreadTrue(s.records, s.threads[u]);
      }
    }
  }

  lemma EntryFacts(records: map<Addr, ClientRecord>, th: Thread)
    requires th.pc == Entry(th.op)
    ensures ThreadTrue(records, th)
  {
  }

  lemma OwnFactsKept(s: State, t: Tid)
    requires Inv(s) && Enabled(s, t) && Exec(s, t).threads[t].pc == Successor(s, InstrOf(s, t)) != Broken
    ensures ThreadTrue(Exec(s, t).records, Exec(s, t).threads[t])
  {
    var op, pc := s.threads[t].op, s.threads[t].pc;
    assert ThreadTrue(s.records, s.threads[t]);
    GoesOn(s, op, pc);
    if op.MakeTransaction? {
      StaysDistinct(s, op, pc);
      StaysAffordable(s, t);
      StaysCreditable(s, t);
    } else if op.RemoveClient? {
      StaysCopied(s, t);
    }
  }

  lemma StepInv(s: State, t: Tid)
    requires Inv(s) && Enabled(s, t)
    ensures Inv(Exec(s, t))
  {
    StepLocks(s, t);
    OwnFactsKept(s, t);
    forall u | u in s.threads && u != t ensures ThreadTrue(Exec(s, t).records, s.threads[u]) {
      OthersKeep(s, t, u);
    }
    PerformWrites(s, t, InstrOf(s, t));
  }
}
