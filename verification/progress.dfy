/** What never goes wrong, and exactly how the threads can come to a standstill. */
module Progress {
  import opened MachineInts
  import opened Wrappers
  import opened MapSums
  import opened Ledgers
  import opened LockProtocol
  import opened LedgerProgram
  import opened ProgramInvariant
  import opened Refinement
  import opened Interleavings
  import opened Conservation

  // ---------------------------------------------------------------------------
  // Lock map and record map
  // ---------------------------------------------------------------------------

  /** A registration that has entered its mutex and has yet to insert its record. */
  predicate Registering(th: Thread, ip: Addr) {
    && th.op == RegisterClient(ip)
    && (th.pc == RegFind(true) || th.pc == RegLock(true) || th.pc == RegOpenGate(true) || th.pc.RegInsertRecord?)
  }

  /** A removal that has erased its record and has yet to erase its mutex. */
  predicate Removing(th: Thread, ip: Addr) {
    && th.op == RemoveClient(ip)
    && (th.pc.RmGate2? || th.pc.RmUnlock? || th.pc.RmDestroy? || th.pc.RmEraseEntry?)
  }

  lemma ClaimMeans(th: Thread, ip: Addr)
    ensures Registering(th, ip) || Removing(th, ip) <==> !StanceOf(th).claim.Nothing? && StanceOf(th).claim.ip == ip
  {
  }

  /** Every record has a mutex, and a mutex lacks its record only on account of a registration about to insert
      it or a removal that has erased it. */
  lemma MapsAgree(s: State, ip: Addr)
    requires Inv(s)
    ensures ip in s.records ==> ip in s.entries
    ensures ip in s.entries && ip !in s.records <==>
              exists t :: t in s.threads && (Registering(s.threads[t], ip) || Removing(s.threads[t], ip))
  {
    var locks, vs := LocksOf(s), Stances(s);
    assert locks.members <= locks.entries.Keys;
    if ip in s.entries && ip !in s.records {
      assert EntryTrue(locks, vs, ip);
      var t :| Claims(vs, t, ip);
      ClaimMeans(s.threads[t], ip);
    }
    forall t | t in s.threads && (Registering(s.threads[t], ip) || Removing(s.threads[t], ip))
      ensures ip in s.entries && ip !in s.records
    {
      ClaimMeans(s.threads[t], ip);
      assert StanceTrue(locks, t, vs[t]);
    }
  }

  /** No branch the source calls impossible is taken, no mutex is misused, and no lookup fails uncaught but, possibly,
      the one that an answer reads the sender's record by after all locks were given back. */
  lemma NothingBreaks(l: Ledger, moves: seq<Move>, t: Tid)
    requires Sound(l) && Feasible(Initial(l), moves) && t in Final(Initial(l), moves).threads
    ensures Final(Initial(l), moves).threads[t].pc != Broken
  {
    RunInv(l, moves);
    Unbroken(Final(Initial(l), moves), t);
  }

  lemma Unbroken(s: State, t: Tid)
    requires Inv(s) && t in s.threads
    ensures s.threads[t].pc != Broken
  {
    assert ThreadTrue(s.records, s.threads[t]);
  }

  /** The mutex a thread is about to destroy. */
  function Doomed(s: State, t: Tid): Option<MutexId>
    requires t in s.threads
  {
    match InstrOf(s, t)
    case DropMutex(_) => Some(Created(t))
    case DestroyMutex(ip, _) => if ip in s.entries then Some(s.entries[ip]) else None
    case _ => None
  }

  predicate WaitsFor(s: State, t: Tid, m: MutexId)
    requires t in s.threads
  {
    InstrOf(s, t).LockClient? && s.threads[t].pointer == Some(m)
  }

  lemma WaitsWithTarget(th: Thread)
    ensures Code(th.op, th.pc).LockClient? <==> StanceOf(th).target.Some?
  {
  }

  ghost predicate DoomsOwn(op: Operation, pc: Pc) {
    && (Code(op, pc).DropMutex? ==> StanceAt(op, pc).stage.Private? && StanceAt(op, pc).target.None?)
    && (Code(op, pc).DestroyMutex? ==>
         StanceAt(op, pc).claim == Vacant(Code(op, pc).ip) && StanceAt(op, pc).target.None?)
  }

  lemma DoomedStance(op: Operation, pc: Pc)
    ensures DoomsOwn(op, pc)
  {
    match op
    case RegisterClient(_) => RegistrationDooms(op, pc);
    case MakeTransaction(_, _, _) => TransactionDooms(op, pc);
    case RemoveClient(_) => RemovalDooms(op, pc);
  }

  lemma RegistrationDooms(op: Operation, pc: Pc)
    requires op.RegisterClient?
    ensures DoomsOwn(op, pc)
  {
    assert !Code(op, pc).DestroyMutex?;
    assert Code(op, pc).DropMutex? ==> pc.RegDropMutex?;
  }

  lemma TransactionDooms(op: Operation, pc: Pc)
    requires op.MakeTransaction?
    ensures DoomsOwn(op, pc)
  {
    if Locking(pc) {
      TransactionDoomsFirst(op, pc);
    } else {
      TransactionDoomsThen(op, pc);
    }
  }

  lemma TransactionDoomsFirst(op: Operation, pc: Pc)
    requires op.MakeTransaction?
    requires Locking(pc)
    ensures DoomsOwn(op, pc)
  {
  }

  lemma TransactionDoomsThen(op: Operation, pc: Pc)
    requires op.MakeTransaction?
    requires !Locking(pc)
    ensures DoomsOwn(op, pc)
  {
  }

  lemma RemovalDooms(op: Operation, pc: Pc)
    requires op.RemoveClient?
    ensures DoomsOwn(op, pc)
  {
  }

  /** A mutex is destroyed only while no thread holds it and no thread is about to lock it. */
  lemma DestroyIsSafe(s: State, t: Tid, u: Tid)
    requires Inv(s) && t in s.threads && u in s.threads && Doomed(s, t).Some?
    ensures var m := Doomed(s, t).value;
            m in s.mutexes && s.mutexes[m] == None && !WaitsFor(s, u, m)
  {
    var locks, vs, m := LocksOf(s), Stances(s), Doomed(s, t).value;
    DoomedStance(s.threads[t].op, s.threads[t].pc);
    WaitsWithTarget(s.threads[u]);
    assert StanceTrue(locks, t, vs[t]);
    DestroyedUnused(locks, vs, t, m, u);
  }

  /** A transfer takes effect while its thread holds both clients, and nobody else holds either. */
  lemma EffectHoldsBoth(s: State, t: Tid, u: Tid)
    requires Inv(s) && t in s.threads && u in s.threads && u != t
    requires s.threads[t].op.MakeTransaction?
    requires Effective(s.threads[t].op, s.threads[t].pc, Successor(s, InstrOf(s, t)))
    ensures {s.threads[t].op.sender, s.threads[t].op.receiver} == Stances(s)[t].held
    ensures Stances(s)[t].held !! Stances(s)[u].held
  {
    assert StanceTrue(LocksOf(s), t, Stances(s)[t]);
    forall ip | ip in Stances(s)[t].held ensures ip !in Stances(s)[u].held {
      HeldApart(s, t, u, ip);
    }
  }

  // ---------------------------------------------------------------------------
  // Standstill
  // ---------------------------------------------------------------------------

  /** The one way to stand still: the owner of the database lock waits for a client mutex whose holder, a
      removal, is waiting for the database lock. */
  ghost predicate Cycle(s: State, g: Tid, h: Tid) {
    && g in s.threads && h in s.threads && g != h
    && s.gate == Some(g)
    && InstrOf(s, g).LockClient? && s.threads[g].pointer.Some?
    && Holds(LocksOf(s), s.threads[g].pointer.value, h)
    && s.threads[h].op.RemoveClient? && s.threads[h].pc.RmGate2?
  }

  ghost predicate SomeEnabled(s: State) {
    exists t :: Enabled(s, t)
  }

  ghost predicate Deadlocked(s: State) {
    exists g, h :: Cycle(s, g, h)
  }

  lemma MetaCode(op: Operation, pc: Pc)
    requires StanceAt(op, pc).meta
    ensures var i := Code(op, pc); i.CountTransferred? || i.CountTransaction? || i.UnlockMeta?
  {
    if !op.MakeTransaction? {
      OnlyTransactionsCount(op, pc);
    }
  }

  lemma OnlyTransactionsCount(op: Operation, pc: Pc)
    requires !op.MakeTransaction?
    ensures !StanceAt(op, pc).meta
  {
    match op
    case RegisterClient(ip) => assert !RegisterStance(ip, pc).meta;
    case RemoveClient(ip) => assert !RemoveStance(ip, pc).meta;
  }

  lemma MetaOwnerRuns(s: State)
    requires Inv(s) && s.meta.Some?
    ensures SomeEnabled(s)
  {
    var m := s.meta.value;
    assert m in Stances(s) && StanceTrue(LocksOf(s), m, Stances(s)[m]);
    MetaCode(s.threads[m].op, s.threads[m].pc);
    assert Enabled(s, m);
  }

  lemma GateFreeRuns(s: State, t: Tid)
    requires Inv(s) && t in s.threads && !Ended(s.threads[t].pc) && s.gate == None && s.meta == None
    ensures SomeEnabled(s)
  {
    assert StanceTrue(LocksOf(s), t, Stances(s)[t]) && ThreadTrue(s.records, s.threads[t]);
    WaitsWithTarget(s.threads[t]);
    assert Enabled(s, t);
  }

  lemma GatedCode(op: Operation, pc: Pc)
    requires StanceAt(op, pc).gate && (op.MakeTransaction? && Distinct(pc) ==> Proper(op))
    ensures var i := Code(op, pc); !i.Halt? && !i.LockGate? && !i.LockMeta?
    ensures StanceAt(op, pc).target.Some? ==> StanceAt(op, pc).target.value !in StanceAt(op, pc).held
  {
    match op
    case RegisterClient(_) => RegistrationGated(op, pc);
    case MakeTransaction(_, _, _) => TransactionGated(op, pc);
    case RemoveClient(_) => RemovalGated(op, pc);
  }

  /** The owner of the gate wants no lock but that of a client, which it does not hold yet. */
  ghost predicate GateOnly(op: Operation, pc: Pc) {
    var i, v := Code(op, pc), StanceAt(op, pc);
    !i.Halt? && !i.LockGate? && !i.LockMeta? && (v.target.Some? ==> v.target.value !in v.held)
  }

  lemma RegistrationGated(op: Operation, pc: Pc)
    requires op.RegisterClient? && StanceAt(op, pc).gate
    ensures GateOnly(op, pc)
  {
  }

  lemma TransactionGated(op: Operation, pc: Pc)
    requires op.MakeTransaction? && StanceAt(op, pc).gate && (Distinct(pc) ==> Proper(op))
    ensures GateOnly(op, pc)
  {
    GatedIsLocking(op, pc);
    TransactionLocking(op, pc);
  }

  lemma GatedIsLocking(op: Operation, pc: Pc)
    requires op.MakeTransaction? && StanceAt(op, pc).gate
    ensures Locking(pc)
  {
  }

  lemma TransactionLocking(op: Operation, pc: Pc)
    requires op.MakeTransaction? && StanceAt(op, pc).gate && (Distinct(pc) ==> Proper(op)) && Locking(pc)
    ensures GateOnly(op, pc)
  {
  }

  lemma RemovalGated(op: Operation, pc: Pc)
    requires op.RemoveClient? && StanceAt(op, pc).gate
    ensures GateOnly(op, pc)
  {
  }

  /** The owner of the gate can only be kept waiting by another thread that holds the client it wants. */
  lemma GateOwnerBlocked(s: State, g: Tid) returns (h: Tid)
    requires Inv(s) && s.gate == Some(g) && g in s.threads && !Enabled(s, g)
    ensures InstrOf(s, g).LockClient? && s.threads[g].pointer.Some? && h in s.threads && h != g
    ensures Holds(LocksOf(s), s.threads[g].pointer.value, h) && Stances(s)[h].held != {}
  {
    var locks, vs := LocksOf(s), Stances(s);
    assert StanceTrue(locks, g, vs[g]) && ThreadTrue(s.records, s.threads[g]);
    GatedCode(s.threads[g].op, s.threads[g].pc);
    WaitsWithTarget(s.threads[g]);
    var ip := vs[g].target.value;
    h := s.mutexes[s.entries[ip]].value;
    assert EntryTrue(locks, vs, ip) && MutexTrue(locks, vs, s.entries[ip]);
  }

  lemma HoldingCode(op: Operation, pc: Pc)
    requires StanceAt(op, pc).held != {} && !StanceAt(op, pc).gate
    ensures var i := Code(op, pc); !i.LockMeta? && !i.LockClient? && !i.Halt?
    ensures Code(op, pc).LockGate? ==> op.RemoveClient? && pc.RmGate2?
  {
    match op
    case RegisterClient(_) => RegistrationHolds(op, pc);
    case MakeTransaction(_, _, _) => TransactionHolds(op, pc);
    case RemoveClient(_) => RemovalHolds(op, pc);
  }

  /** A thread that holds a client without holding the gate waits for nothing but, in a removal, the gate. */
  ghost predicate HoldsAndRuns(op: Operation, pc: Pc) {
    var i := Code(op, pc);
    !i.LockMeta? && !i.LockClient? && !i.Halt? && (i.LockGate? ==> op.RemoveClient? && pc.RmGate2?)
  }

  lemma RegistrationHolds(op: Operation, pc: Pc)
    requires op.RegisterClient? && StanceAt(op, pc).held != {} && !StanceAt(op, pc).gate
    ensures HoldsAndRuns(op, pc)
  {
  }

  lemma TransactionHolds(op: Operation, pc: Pc)
    requires op.MakeTransaction? && StanceAt(op, pc).held != {} && !StanceAt(op, pc).gate
    ensures HoldsAndRuns(op, pc)
  {
    LockingIsGated(op, pc);
    if !Locking(pc) {
      TransactionHoldsThen(op, pc);
    }
  }

  lemma LockingIsGated(op: Operation, pc: Pc)
    requires op.MakeTransaction?
    ensures Locking(pc) && StanceAt(op, pc).held != {} ==> StanceAt(op, pc).gate
  {
  }

  lemma TransactionHoldsThen(op: Operation, pc: Pc)
    requires op.MakeTransaction? && StanceAt(op, pc).held != {} && !StanceAt(op, pc).gate
    requires !Locking(pc)
    ensures HoldsAndRuns(op, pc)
  {
  }

  lemma RemovalHolds(op: Operation, pc: Pc)
    requires op.RemoveClient? && StanceAt(op, pc).held != {} && !StanceAt(op, pc).gate
    ensures HoldsAndRuns(op, pc)
  {
  }

  /** Every state of every run in which some call has not returned has a thread that can go on, or is deadlocked. */
  lemma GoesOnOrDeadlocked(s: State, t: Tid)
    requires Inv(s) && t in s.threads && !Ended(s.threads[t].pc)
    ensures SomeEnabled(s) || Deadlocked(s)
  {
    if s.meta.Some? {
      MetaOwnerRuns(s);
    } else if s.gate == None {
      GateFreeRuns(s, t);
    } else {
      var g := s.gate.value;
      assert g in Stances(s);
      if !Enabled(s, g) {
        var h := GateOwnerBlocked(s, g);
        assert StanceTrue(LocksOf(s), h, Stances(s)[h]);
        HoldingCode(s.threads[h].op, s.threads[h].pc);
        assert Enabled(s, h) || Cycle(s, g, h);
      }
    }
  }

  lemma GateStays(s: State, t: Tid, i: Instr, g: Tid)
    requires t in s.threads && t != g && s.gate == Some(g) && Runnable(s, s.threads[t], i)
    ensures Perform(s, t, i).gate == Some(g)
  {
  }

  lemma MutexStays(s: State, t: Tid, i: Instr, m: MutexId, h: Tid)
    requires t in s.threads && t != h && Holds(LocksOf(s), m, h) && Runnable(s, s.threads[t], i)
    ensures Holds(LocksOf(Perform(s, t, i)), m, h)
  {
    if i.LockClient? || i.UnlockClient? {
      HolderKept(s, t, i, m, h);
    } else if !i.NewMutex? && !i.DropMutex? && !i.DestroyMutex? {
      MutexesSame(s, t, i);
    }
  }

  lemma HolderKept(s: State, t: Tid, i: Instr, m: MutexId, h: Tid)
    requires t in s.threads && t != h && Holds(LocksOf(s), m, h) && Runnable(s, s.threads[t], i)
    requires i.LockClient? || i.UnlockClient?
    ensures Holds(LocksOf(Perform(s, t, i)), m, h)
  {
  }

  lemma MutexesSame(s: State, t: Tid, i: Instr)
    requires t in s.threads
    requires !i.NewMutex? && !i.DropMutex? && !i.LockClient? && !i.UnlockClient? && !i.DestroyMutex?
    ensures Perform(s, t, i).mutexes == s.mutexes
  {
  }

  /** A deadlock is for ever: whatever else is called or goes on, these two threads stay where they are. */
  lemma DeadlockStays(s: State, g: Tid, h: Tid, m: Move)
    requires Cycle(s, g, h) && CanMove(s, m)
    ensures After(s, m).threads[g] == s.threads[g] && After(s, m).threads[h] == s.threads[h]
    ensures Cycle(After(s, m), g, h)
  {
    if m.Step? {
      assert !Enabled(s, g) && !Enabled(s, h);
      GateStays(s, m.stepper, InstrOf(s, m.stepper), g);
      MutexStays(s, m.stepper, InstrOf(s, m.stepper), s.threads[g].pointer.value, h);
    }
  }

  // ---------------------------------------------------------------------------
  // Every run ends
  // ---------------------------------------------------------------------------

  /** The most instructions that a thread can still execute. */
  function InstructionsLeft(pc: Pc): nat {
    match pc
    case RegStart => 11
    case RegGate => 10
    case RegInsertLock => 9
    case RegFind(_) => 8
    case RegLock(_) => 7
    case RegOpenGate(_) => 6
    case RegDropMutex => 2
    case RegDupUnlock => 1
    case RegInsertRecord => 5
    case RegUnlock => 4
    case RegGate2 => 3
    case RegCount => 2
    case RegOpenGate2 => 1
    case TxGate => 19
    case TxFindSender => 18
    case TxNoSender => 1
    case TxLockSender => 17
    case TxChecks => 16
    case TxFindReceiver => 15
    case TxProbeSender => 4
    case TxEarlyUnlock(_) => 3
    case TxEarlyOpen(_) => 2
    case TxReread(_) => 1
    case TxLockReceiver => 14
    case TxOpenGate => 13
    case TxLoadSender => 12
    case TxLoadReceiver => 11
    case TxBump => 10
    case TxCheckBalance => 9
    case TxDebit => 8
    case TxCredit => 7
    case TxUnlockSender(_) => 6
    case TxUnlockReceiver(_) => 5
    case TxMeta => 4
    case TxAddTransferred => 3
    case TxAddCount => 2
    case TxOpenMeta => 1
    case RmGate => 14
    case RmFind => 13
    case RmMissing => 1
    case RmLock => 12
    case RmOpenGate => 11
    case RmCopy => 10
    case RmErase => 9
    case RmGate2 => 8
    case RmUnlock => 7
    case RmDestroy => 6
    case RmEraseEntry => 5
    case RmOpenGate2 => 4
    case RmGate3 => 3
    case RmCount => 2
    case RmOpenGate3 => 1
    case Done(_) => 0
    case Thrown(_) => 0
    case Broken => 0
  }

  function Remaining(th: Thread): int {
    InstructionsLeft(th.pc)
  }

  const LONGEST := 19

  lemma CodeGoesDown(s: State, th: Thread, next: Pc)
    requires GoesTo(s, th, next)
    ensures InstructionsLeft(next) < InstructionsLeft(th.pc)
  {
    match th.op
    case RegisterClient(_) => RegistrationGoesDown(s, th, next);
    case MakeTransaction(_, _, _) => TransactionGoesDown(s, th, next);
    case RemoveClient(_) => RemovalGoesDown(s, th, next);
  }

  lemma RegistrationGoesDown(s: State, th: Thread, next: Pc)
    requires th.op.RegisterClient? && GoesTo(s, th, next)
    ensures InstructionsLeft(next) < InstructionsLeft(th.pc)
  {
  }

  lemma TransactionGoesDown(s: State, th: Thread, next: Pc)
    requires th.op.MakeTransaction? && GoesTo(s, th, next)
    ensures InstructionsLeft(next) < InstructionsLeft(th.pc)
  {
    if Locking(th.pc) {
      TransactionGoesDownFirst(s, th, next);
    } else {
      TransactionGoesDownThen(s, th, next);
    }
  }

  lemma TransactionGoesDownFirst(s: State, th: Thread, next: Pc)
    requires th.op.MakeTransaction? && GoesTo(s, th, next)
    requires Locking(th.pc)
    ensures InstructionsLeft(next) < InstructionsLeft(th.pc)
  {
  }

  lemma TransactionGoesDownThen(s: State, th: Thread, next: Pc)
    requires th.op.MakeTransaction? && GoesTo(s, th, next)
    requires !Locking(th.pc)
    ensures InstructionsLeft(next) < InstructionsLeft(th.pc)
  {
  }

  lemma RemovalGoesDown(s: State, th: Thread, next: Pc)
    requires th.op.RemoveClient? && GoesTo(s, th, next)
    ensures InstructionsLeft(next) < InstructionsLeft(th.pc)
  {
  }

  lemma StepGoesDown(s: State, t: Tid)
    requires Inv(s) && Enabled(s, t)
    ensures Remaining(Exec(s, t).threads[t]) < Remaining(s.threads[t])
  {
    StepLocks(s, t);
    NextGoesDown(s, t, Exec(s, t).threads[t].pc);
  }

  lemma NextGoesDown(s: State, t: Tid, next: Pc)
    requires Enabled(s, t) && next == Successor(s, InstrOf(s, t)) != Broken
    ensures InstructionsLeft(next) < InstructionsLeft(s.threads[t].pc)
  {
    CodeGoesDown(s, s.threads[t], next);
  }

  function Steps(moves: seq<Move>): nat {
    if moves == [] then 0 else Steps(moves[..|moves| - 1]) + (if moves[|moves| - 1].Step? then 1 else 0)
  }

  function CallsIn(moves: seq<Move>): nat {
    if moves == [] then 0 else CallsIn(moves[..|moves| - 1]) + (if moves[|moves| - 1].Call? then 1 else 0)
  }

  ghost function Left(s: State): int {
    Total<Tid, Thread>(s.threads, Remaining)
  }

  lemma MoveLeft(s: State, m: Move)
    requires Inv(s) && CanMove(s, m)
    ensures Left(After(s, m)) <= if m.Call? then Left(s) + LONGEST else Left(s) - 1
  {
    match m
    case Call(t, op) => TotalUpdate<Tid, Thread>(s.threads, Remaining, t, Spawn(s, t, op).threads[t]);
    case Step(t) =>
      StepGoesDown(s, t);
      TotalUpdate<Tid, Thread>(s.threads, Remaining, t, Exec(s, t).threads[t]);
  }

  lemma {:induction false} LeftIsNat(threads: map<Tid, Thread>)
    ensures Total<Tid, Thread>(threads, Remaining) >= 0
    decreases |threads|
  {
    if threads != map[] {
      var t: Tid :| t in threads;
      TotalRemove<Tid, Thread>(threads, Remaining, t);
      assert (threads - {t}).Keys == threads.Keys - {t};
      LeftIsNat(threads - {t});
    }
  }

  lemma {:induction false} StepsCounted(l: Ledger, moves: seq<Move>)
    requires Sound(l) && Feasible(Initial(l), moves)
    ensures Steps(moves) + Left(Final(Initial(l), moves)) <= LONGEST * CallsIn(moves)
    decreases |moves|
  {
    if moves != [] {
      var before := moves[..|moves| - 1];
      StepsCounted(l, before);
      RunInv(l, before);
      MoveLeft(Final(Initial(l), before), moves[|moves| - 1]);
    }
  }

  /** No run is endless: n calls take at most 19 n steps.  And a run that cannot be continued has brought every call
      to its end, unless it is deadlocked. */
  lemma RunsEnd(l: Ledger, moves: seq<Move>)
    requires Sound(l) && Feasible(Initial(l), moves)
    ensures Steps(moves) <= LONGEST * CallsIn(moves)
    ensures var s := Final(Initial(l), moves); !SomeEnabled(s) && !Deadlocked(s) ==> AtRest(s)
  {
    var s := Final(Initial(l), moves);
    StepsCounted(l, moves);
    LeftIsNat(s.threads);
    RunInv(l, moves);
    if !SomeEnabled(s) && !Deadlocked(s) {
      forall t | t in s.threads ensures Ended(s.threads[t].pc) {
        if !Ended(s.threads[t].pc) {
          GoesOnOrDeadlocked(s, t);
        }
      }
    }
  }
}
