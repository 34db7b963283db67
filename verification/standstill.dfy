/** Which calls can bring the threads to a standstill: exactly those in which a removal has a client that another call
    reaches for. */
module Standstill {
  import opened MachineInts
  import opened Wrappers
  import opened Ledgers
  import opened LockProtocol
  import opened LedgerProgram
  import opened ProgramInvariant
  import opened Interleavings
  import opened Progress

  // ---------------------------------------------------------------------------
  // Runs of given calls
  // ---------------------------------------------------------------------------

  /** Thread `t` makes the call `calls[t]`, if it makes one at all. */
  ghost predicate Among(calls: seq<Operation>, moves: seq<Move>) {
    forall m :: m in moves && m.Call? ==> m.caller < |calls| && m.op == calls[m.caller]
  }

  ghost predicate RunOf(l: Ledger, calls: seq<Operation>, moves: seq<Move>) {
    Feasible(Initial(l), moves) && Among(calls, moves)
  }

  lemma {:induction false} ThreadsAmong(l: Ledger, calls: seq<Operation>, moves: seq<Move>)
    requires RunOf(l, calls, moves)
    ensures var s := Final(Initial(l), moves);
            forall t :: t in s.threads ==> t < |calls| && s.threads[t].op == calls[t]
    decreases |moves|
  {
    if moves != [] {
      ThreadsAmong(l, calls, moves[..|moves| - 1]);
      assert moves[|moves| - 1] in moves;
    }
  }

  lemma Extend(l: Ledger, calls: seq<Operation>, moves: seq<Move>, m: Move)
    requires RunOf(l, calls, moves) && CanMove(Final(Initial(l), moves), m)
    requires m.Call? ==> m.caller < |calls| && m.op == calls[m.caller]
    ensures RunOf(l, calls, moves + [m])
    ensures Final(Initial(l), moves + [m]) == After(Final(Initial(l), moves), m)
  {
    assert (moves + [m])[..|moves + [m]| - 1] == moves;
  }

  // ---------------------------------------------------------------------------
  // Where mutexes come from
  // ---------------------------------------------------------------------------

  /** A registration that has entered its mutex into the map. */
  predicate Entered(th: Thread, ip: Addr) {
    th.op == RegisterClient(ip) && StanceOf(th).stage.Published?
  }

  ghost predicate Known(l: Ledger, s: State, ip: Addr) {
    ip in l.records || exists t :: t in s.threads && Entered(s.threads[t], ip)
  }

  ghost predicate LoadedFrom(l: Ledger, s: State) {
    forall ip :: ip in s.entries && s.entries[ip].Loaded? ==> s.entries[ip].ip in l.records
  }

  lemma {:induction false} RunLoadedFrom(l: Ledger, moves: seq<Move>)
    requires Feasible(Initial(l), moves)
    ensures LoadedFrom(l, Final(Initial(l), moves))
    decreases |moves|
  {
    if moves != [] {
      RunLoadedFrom(l, moves[..|moves| - 1]);
      match moves[|moves| - 1]
      case Call(_, _) =>
      case Step(t) =>
        var s := Final(Initial(l), moves[..|moves| - 1]);
        EntriesCome(s, t, InstrOf(s, t));
    }
  }

  lemma EntriesCome(s: State, t: Tid, i: Instr)
    requires t in s.threads
    ensures forall ip :: ip in Perform(s, t, i).entries ==>
              Perform(s, t, i).entries[ip] == Created(t) ||
              (ip in s.entries && Perform(s, t, i).entries[ip] == s.entries[ip])
  {
    if !i.Publish? && !i.EraseEntry? {
      EntriesSame(s, t, i);
    }
  }

  lemma EntriesSame(s: State, t: Tid, i: Instr)
    requires t in s.threads && !i.Publish? && !i.EraseEntry?
    ensures Perform(s, t, i).entries == s.entries
  {
  }

  lemma OnlyRegistrationsPublish(th: Thread, ip: Addr)
    ensures StanceOf(th).stage.Published? && StanceOf(th).home == ip ==> Entered(th, ip)
  {
  }

  /** A client with a mutex was there from the start, or has been registered. */
  lemma EntryKnown(l: Ledger, s: State, ip: Addr)
    requires Inv(s) && LoadedFrom(l, s) && ip in s.entries
    ensures Known(l, s, ip)
  {
    var vs := Stances(s);
    assert EntryTrue(LocksOf(s), vs, ip);
    if s.entries[ip].Created? {
      var t := s.entries[ip].creator;
      OnlyRegistrationsPublish(s.threads[t], ip);
    }
  }

  // ---------------------------------------------------------------------------
  // What a deadlock needs
  // ---------------------------------------------------------------------------

  /** The call may have to wait for this client's mutex while it holds the database lock. */
  predicate Reaches(op: Operation, ip: Addr) {
    match op
    case RegisterClient(x) => x == ip
    case MakeTransaction(sender, receiver, amount) => sender == ip || (receiver == ip && amount != 0)
    case RemoveClient(x) => x == ip
  }

  /** The client is in the ledger, or some call other than these two registers it. */
  ghost predicate Available(l: Ledger, calls: seq<Operation>, ip: Addr, i: Tid, j: Tid) {
    ip in l.records || exists k: Tid :: k < |calls| && k != i && k != j && calls[k] == RegisterClient(ip)
  }

  /** Call `i` reaches for the client that call `j` removes, and gets that far. */
  ghost predicate Collide(l: Ledger, calls: seq<Operation>, i: Tid, j: Tid) {
    && i < |calls| && j < |calls| && i != j && calls[j].RemoveClient?
    && Reaches(calls[i], calls[j].client)
    && Available(l, calls, calls[j].client, i, j)
    && (calls[i].MakeTransaction? ==> Available(l, calls, calls[i].sender, i, j))
  }

  ghost predicate CanDeadlock(l: Ledger, calls: seq<Operation>) {
    exists moves :: RunOf(l, calls, moves) && Deadlocked(Final(Initial(l), moves))
  }

  /** The client whose mutex a thread is about to lock. */
  lemma WaitingCode(op: Operation, pc: Pc)
    requires Code(op, pc).LockClient? && (op.MakeTransaction? && Distinct(pc) ==> Proper(op))
    ensures StanceAt(op, pc).target.Some? && Reaches(op, StanceAt(op, pc).target.value)
    ensures op.RegisterClient? ==>
              StanceAt(op, pc).claim == Vacant(op.ip) ||
              (StanceAt(op, pc).claim == Nothing && StanceAt(op, pc).stage.Private?)
    ensures op.MakeTransaction? ==>
              StanceAt(op, pc).target == Some(op.sender) || StanceAt(op, pc).held == {op.sender}
  {
    match op
    case RegisterClient(_) => assert pc.RegLock?;
    case MakeTransaction(_, _, _) => assert pc.TxLockSender? || pc.TxLockReceiver?;
    case RemoveClient(_) => assert pc.RmLock?;
  }

  /** In a deadlock the waiting call reaches for the very client that is being removed. */
  lemma CycleNames(s: State, g: Tid, h: Tid)
    requires Inv(s) && Cycle(s, g, h)
    ensures var ip := s.threads[h].op.client;
            && Stances(s)[g].target == Some(ip) && Reaches(s.threads[g].op, ip)
            && ip in s.entries && Stances(s)[h].held == {ip}
  {
    var locks, vs := LocksOf(s), Stances(s);
    assert ThreadTrue(s.records, s.threads[g]);
    WaitingCode(s.threads[g].op, s.threads[g].pc);
    WaitingRemoval(s.threads[h]);
    TargetHeld(locks, vs, g, h);
  }

  /** The mutex that one thread waits for and another holds is that of a client the other holds. */
  lemma TargetHeld(locks: Locks, vs: map<Tid, Stance>, g: Tid, h: Tid)
    requires Consistent(locks, vs) && g in vs && h in vs && vs[g].target.Some?
    requires vs[g].pointer.Some? && Holds(locks, vs[g].pointer.value, h)
    ensures vs[g].target.value in vs[h].held && vs[g].target.value in locks.entries
  {
    var x := vs[g].target.value;
    assert StanceTrue(locks, g, vs[g]);
    assert EntryTrue(locks, vs, x) && MutexTrue(locks, vs, locks.entries[x]);
  }

  /** A registration that waits has not entered a mutex of its own. */
  lemma CycleNotOwn(s: State, g: Tid, h: Tid)
    requires Inv(s) && Cycle(s, g, h)
    ensures !Entered(s.threads[g], s.threads[h].op.client)
  {
    var ip := s.threads[h].op.client;
    CycleNames(s, g, h);
    assert ThreadTrue(s.records, s.threads[g]);
    WaitingCode(s.threads[g].op, s.threads[g].pc);
    if s.threads[g].op == RegisterClient(ip) && Stances(s)[g].claim == Vacant(ip) {
      ClaimantIsHolder(LocksOf(s), Stances(s), h, g, ip);
    }
  }

  lemma KnownAvailable(l: Ledger, calls: seq<Operation>, s: State, ip: Addr, i: Tid, j: Tid)
    requires Known(l, s, ip) && forall t :: t in s.threads ==> t < |calls| && s.threads[t].op == calls[t]
    requires forall t :: t in s.threads && Entered(s.threads[t], ip) ==> t != i && t != j
    ensures Available(l, calls, ip, i, j)
  {
  }

  lemma DeadlockCollides(l: Ledger, calls: seq<Operation>, moves: seq<Move>, g: Tid, h: Tid)
    requires Sound(l) && RunOf(l, calls, moves) && Cycle(Final(Initial(l), moves), g, h)
    ensures Collide(l, calls, g, h)
  {
    RunFacts(l, calls, moves);
    CycleCollides(l, calls, Final(Initial(l), moves), g, h);
  }

  ghost predicate StateOf(l: Ledger, calls: seq<Operation>, s: State) {
    && Inv(s) && LoadedFrom(l, s)
    && forall t :: t in s.threads ==> t < |calls| && s.threads[t].op == calls[t]
  }

  lemma RunFacts(l: Ledger, calls: seq<Operation>, moves: seq<Move>)
    requires Sound(l) && RunOf(l, calls, moves)
    ensures StateOf(l, calls, Final(Initial(l), moves))
  {
    RunInv(l, moves);
    RunLoadedFrom(l, moves);
    ThreadsAmong(l, calls, moves);
  }

  lemma CycleCollides(l: Ledger, calls: seq<Operation>, s: State, g: Tid, h: Tid)
    requires StateOf(l, calls, s) && Cycle(s, g, h)
    ensures Collide(l, calls, g, h)
  {
    CycleNames(s, g, h);
    CycleNotOwn(s, g, h);
    EntryKnown(l, s, s.threads[h].op.client);
    KnownAvailable(l, calls, s, s.threads[h].op.client, g, h);
    if s.threads[g].op.MakeTransaction? {
      SenderListed(s, g);
      EntryKnown(l, s, s.threads[g].op.sender);
      KnownAvailable(l, calls, s, s.threads[g].op.sender, g, h);
    }
  }

  lemma SenderListed(s: State, g: Tid)
    requires Inv(s) && g in s.threads && s.threads[g].op.MakeTransaction? && InstrOf(s, g).LockClient?
    ensures s.threads[g].op.sender in s.entries
  {
    assert ThreadTrue(s.records, s.threads[g]) && StanceTrue(LocksOf(s), g, Stances(s)[g]);
    WaitingCode(s.threads[g].op, s.threads[g].pc);
  }

  /** A run in which no removal's client is reached for by another call never stands still. */
  lemma ApartNeverDeadlock(l: Ledger, moves: seq<Move>, t: Tid)
    requires Sound(l) && Feasible(Initial(l), moves)
    requires var threads := Final(Initial(l), moves).threads;
             && t in threads && !Ended(threads[t].pc)
             && forall u, v :: u in threads && v in threads && u != v && threads[v].op.RemoveClient? ==>
                  !Reaches(threads[u].op, threads[v].op.client)
    ensures SomeEnabled(Final(Initial(l), moves))
  {
    var s := Final(Initial(l), moves);
    RunInv(l, moves);
    GoesOnOrDeadlocked(s, t);
    forall g, h ensures !Cycle(s, g, h) {
      if Cycle(s, g, h) {
        CycleNames(s, g, h);
      }
    }
  }

  // ---------------------------------------------------------------------------
  // One thread at a time
  // ---------------------------------------------------------------------------

  /** Nothing held, and nothing wanted: at the end, or just before the answer is read. */
  predicate Parked(th: Thread) {
    Ended(th.pc) || (th.op.MakeTransaction? && th.pc.TxReread?)
  }

  ghost predicate Alone(s: State, k: Tid) {
    Inv(s) && k in s.threads && forall t :: t in s.threads && t != k ==> Parked(s.threads[t])
  }

  lemma ParkedStance(th: Thread)
    requires Parked(th)
    ensures var v := StanceOf(th); !v.gate && !v.meta && v.held == {} && v.claim.Nothing?
  {
  }

  lemma AloneGates(s: State, k: Tid)
    requires Alone(s, k)
    ensures s.gate == None || s.gate == Some(k)
    ensures s.meta == None || s.meta == Some(k)
  {
    var locks, vs := LocksOf(s), Stances(s);
    forall t | t in s.threads && t != k ensures s.gate != Some(t) && s.meta != Some(t) {
      ParkedStance(s.threads[t]);
      assert StanceTrue(locks, t, vs[t]);
    }
    assert s.gate.Some? ==> s.gate.value in vs;
    assert s.meta.Some? ==> s.meta.value in vs;
  }

  /** A mutex is free unless the one thread at work holds its client. */
  lemma AloneMutex(s: State, k: Tid, ip: Addr)
    requires Alone(s, k) && ip in s.entries && s.entries[ip] in s.mutexes && ip !in Stances(s)[k].held
    ensures s.mutexes[s.entries[ip]] == None
  {
    var locks, vs := LocksOf(s), Stances(s);
    assert EntryTrue(locks, vs, ip) && MutexTrue(locks, vs, s.entries[ip]);
    forall t | t in s.threads && t != k ensures vs[t].held == {} {
      ParkedStance(s.threads[t]);
    }
  }

  lemma GateCode(op: Operation, pc: Pc)
    ensures Code(op, pc).LockGate? ==> !StanceAt(op, pc).gate
    ensures Code(op, pc).LockMeta? ==> !StanceAt(op, pc).meta
    ensures Code(op, pc).Halt? || !Ended(pc)
  {
    match op
    case RegisterClient(_) => RegistrationGates(op, pc);
    case MakeTransaction(_, _, _) => TransactionGates(op, pc);
    case RemoveClient(_) => RemovalGates(op, pc);
  }

  ghost predicate GatesOpen(op: Operation, pc: Pc) {
    && (Code(op, pc).LockGate? ==> !StanceAt(op, pc).gate)
    && (Code(op, pc).LockMeta? ==> !StanceAt(op, pc).meta)
    && (Code(op, pc).Halt? || !Ended(pc))
  }

  lemma RegistrationGates(op: Operation, pc: Pc)
    requires op.RegisterClient?
    ensures GatesOpen(op, pc)
  {
    assert Code(op, pc).LockGate? ==> pc.RegGate? || pc.RegGate2?;
    assert !Code(op, pc).LockMeta?;
  }

  lemma TransactionGates(op: Operation, pc: Pc)
    requires op.MakeTransaction?
    ensures GatesOpen(op, pc)
  {
    if Locking(pc) {
      TransactionGatesFirst(op, pc);
    } else {
      TransactionGatesThen(op, pc);
    }
  }

  lemma TransactionGatesFirst(op: Operation, pc: Pc)
    requires op.MakeTransaction?
    requires Locking(pc)
    ensures GatesOpen(op, pc)
  {
  }

  lemma TransactionGatesThen(op: Operation, pc: Pc)
    requires op.MakeTransaction?
    requires !Locking(pc)
    ensures GatesOpen(op, pc)
  {
    assert !Code(op, pc).LockGate?;
    assert Code(op, pc).LockMeta? ==> pc.TxMeta?;
  }

  lemma RemovalGates(op: Operation, pc: Pc)
    requires op.RemoveClient?
    ensures GatesOpen(op, pc)
  {
  }

  /** A thread with nobody else at work is never kept waiting. */
  lemma AloneGoesOn(s: State, k: Tid)
    requires Alone(s, k) && !Ended(s.threads[k].pc)
    ensures Enabled(s, k)
  {
    var locks, vs, th := LocksOf(s), Stances(s), s.threads[k];
    assert ThreadTrue(s.records, th) && StanceTrue(locks, k, vs[k]);
    AloneGates(s, k);
    GateCode(th.op, th.pc);
    WaitsWithTarget(th);
    if InstrOf(s, k).LockClient? {
      var ip := vs[k].target.value;
      GatedCode(th.op, th.pc);
      assert EntryTrue(locks, vs, ip);
      AloneMutex(s, k, ip);
    }
  }

  lemma AloneStep(s: State, k: Tid)
    requires Alone(s, k) && !Ended(s.threads[k].pc)
    ensures Enabled(s, k) && Alone(Exec(s, k), k)
    ensures Exec(s, k).threads[k].pc == Successor(s, InstrOf(s, k))
    ensures InstructionsLeft(Exec(s, k).threads[k].pc) < InstructionsLeft(s.threads[k].pc)
  {
    AloneGoesOn(s, k);
    StepInv(s, k);
    StepLocks(s, k);
    StepGoesDown(s, k);
  }

  /** The state at the end of a run of these calls in which all threads are parked. */
  ghost predicate Resting(l: Ledger, calls: seq<Operation>, moves: seq<Move>) {
    && RunOf(l, calls, moves) && Inv(Final(Initial(l), moves))
    && forall t :: t in Final(Initial(l), moves).threads ==> Parked(Final(Initial(l), moves).threads[t])
  }

  /** A run of these calls in which all threads but one are parked. */
  ghost predicate Working(l: Ledger, calls: seq<Operation>, moves: seq<Move>, k: Tid) {
    RunOf(l, calls, moves) && Alone(Final(Initial(l), moves), k)
  }

  lemma CallOne(l: Ledger, calls: seq<Operation>, moves: seq<Move>, k: Tid) returns (more: seq<Move>)
    requires Resting(l, calls, moves) && k < |calls| && k !in Final(Initial(l), moves).threads
    ensures Working(l, calls, more, k)
    ensures Final(Initial(l), more) == Spawn(Final(Initial(l), moves), k, calls[k])
  {
    var s := Final(Initial(l), moves);
    Extend(l, calls, moves, Call(k, calls[k]));
    SpawnInv(s, k, calls[k]);
    more := moves + [Call(k, calls[k])];
  }

  ghost predicate Arrives(l: Ledger, calls: seq<Operation>, moves: seq<Move>, s: State) {
    RunOf(l, calls, moves) && Final(Initial(l), moves) == s
  }

  lemma StepTo(l: Ledger, calls: seq<Operation>, moves: seq<Move>, s: State, k: Tid) returns (more: seq<Move>)
    requires Arrives(l, calls, moves, s) && Enabled(s, k)
    ensures Arrives(l, calls, more, Exec(s, k))
  {
    Extend(l, calls, moves, Step(k));
    more := moves + [Step(k)];
  }

  lemma StepOne(l: Ledger, calls: seq<Operation>, moves: seq<Move>, k: Tid) returns (more: seq<Move>)
    requires Working(l, calls, moves, k) && !Ended(Final(Initial(l), moves).threads[k].pc)
    ensures Working(l, calls, more, k)
    ensures Final(Initial(l), more) == Exec(Final(Initial(l), moves), k)
  {
    AloneStep(Final(Initial(l), moves), k);
    Extend(l, calls, moves, Step(k));
    more := moves + [Step(k)];
  }

  // ---------------------------------------------------------------------------
  // A registration by itself
  // ---------------------------------------------------------------------------

  predicate BeforePublishing(pc: Pc) {
    pc.RegStart? || pc.RegGate? || pc.RegInsertLock?
  }

  lemma RegistrationKeepsEntries(s: State, k: Tid)
    requires k in s.threads && s.threads[k].op.RegisterClient?
    requires Exec(s, k).threads[k].pc == Successor(s, InstrOf(s, k))
    ensures s.entries.Keys <= Exec(s, k).entries.Keys
    ensures BeforePublishing(s.threads[k].pc) && !BeforePublishing(Exec(s, k).threads[k].pc) ==>
              s.threads[k].op.ip in Exec(s, k).entries || Exec(s, k).threads[k].pc == Broken
  {
    assert !InstrOf(s, k).EraseEntry?;
    EntriesKept(s, k, InstrOf(s, k));
    if BeforePublishing(s.threads[k].pc) {
      PublishingKnown(s, k);
    }
  }

  lemma EntriesKept(s: State, k: Tid, i: Instr)
    requires k in s.threads && !i.EraseEntry?
    ensures s.entries.Keys <= Perform(s, k, i).entries.Keys
  {
  }

  lemma PublishingKnown(s: State, k: Tid)
    requires k in s.threads && s.threads[k].op.RegisterClient? && BeforePublishing(s.threads[k].pc)
    ensures !BeforePublishing(Exec(s, k).threads[k].pc) ==>
              s.threads[k].op.ip in Exec(s, k).entries || Exec(s, k).threads[k].pc == Broken
  {
  }

  ghost predicate Registers(s: State, k: Tid, ip: Addr) {
    && k in s.threads && s.threads[k].op == RegisterClient(ip)
    && (BeforePublishing(s.threads[k].pc) || ip in s.entries)
  }

  lemma RegistrationStep(s: State, k: Tid, ip: Addr)
    requires Alone(s, k) && Registers(s, k, ip) && !Ended(s.threads[k].pc)
    ensures Registers(Exec(s, k), k, ip) && s.entries.Keys <= Exec(s, k).entries.Keys
  {
    AloneStep(s, k);
    StepLocks(s, k);
    RegistrationKeepsEntries(s, k);
  }

  lemma RegistrationRunsOne(l: Ledger, calls: seq<Operation>, moves: seq<Move>, s: State, k: Tid, ip: Addr)
    returns (more: seq<Move>, next: State)
    requires Arrives(l, calls, moves, s) && Alone(s, k) && Registers(s, k, ip) && !Ended(s.threads[k].pc)
    ensures Arrives(l, calls, more, next) && Alone(next, k) && Registers(next, k, ip)
    ensures next.threads.Keys == s.threads.Keys && s.entries.Keys <= next.entries.Keys
    ensures InstructionsLeft(next.threads[k].pc) < InstructionsLeft(s.threads[k].pc)
  {
    AloneStep(s, k);
    RegistrationStep(s, k, ip);
    more := StepTo(l, calls, moves, s, k);
    next := Exec(s, k);
  }

  lemma {:induction false} RegistrationRuns(
    l: Ledger, calls: seq<Operation>, moves: seq<Move>, s: State, k: Tid, ip: Addr)
    returns (more: seq<Move>, s': State)
    requires Arrives(l, calls, moves, s) && Alone(s, k) && Registers(s, k, ip)
    ensures Arrives(l, calls, more, s') && Alone(s', k) && Ended(s'.threads[k].pc) && ip in s'.entries
    ensures s'.threads.Keys == s.threads.Keys && s.entries.Keys <= s'.entries.Keys
    decreases InstructionsLeft(s.threads[k].pc)
  {
    if Ended(s.threads[k].pc) {
      more, s' := moves, s;
    } else {
      var one, next := RegistrationRunsOne(l, calls, moves, s, k, ip);
      more, s' := RegistrationRuns(l, calls, one, next, k, ip);
    }
  }

  /** A client that is available can be made present, with nothing of these two calls done. */
  lemma MakePresent(l: Ledger, calls: seq<Operation>, moves: seq<Move>, ip: Addr, i: Tid, j: Tid)
    returns (more: seq<Move>)
    requires Resting(l, calls, moves) && Available(l, calls, ip, i, j)
    requires var s := Final(Initial(l), moves);
             && i !in s.threads && j !in s.threads
             && (ip in l.records ==> ip in s.entries)
             && forall k :: k in s.threads && s.threads[k].op == RegisterClient(ip) ==> ip in s.entries
    ensures Resting(l, calls, more)
    ensures var s, s' := Final(Initial(l), moves), Final(Initial(l), more);
            && i !in s'.threads && j !in s'.threads && ip in s'.entries && s.entries.Keys <= s'.entries.Keys
            && forall k :: k in s'.threads ==> k in s.threads || s'.threads[k].op == RegisterClient(ip)
  {
    var s := Final(Initial(l), moves);
    if ip in s.entries {
      more := moves;
    } else {
      var k: Tid :| k < |calls| && k != i && k != j && calls[k] == RegisterClient(ip);
      ThreadsAmong(l, calls, moves);
      var called := CallOne(l, calls, moves, k);
      var rested: State;
      more, rested := RegistrationRuns(l, calls, called, Final(Initial(l), called), k, ip);
      ThreadsAmong(l, calls, more);
    }
  }

  // ---------------------------------------------------------------------------
  // A removal up to the point where it asks for the database lock again
  // ---------------------------------------------------------------------------

  predicate BeforeErased(pc: Pc) {
    pc.RmGate? || pc.RmFind? || pc.RmLock? || pc.RmOpenGate? || pc.RmCopy? || pc.RmErase?
  }

  ghost predicate Removes(s: State, j: Tid, ip: Addr) {
    j in s.threads && s.threads[j].op == RemoveClient(ip) && ip in s.entries
  }

  lemma RemovalFinds(s: State, j: Tid, ip: Addr)
    requires Removes(s, j, ip) && (s.threads[j].pc.RmGate? || s.threads[j].pc.RmFind? || s.threads[j].pc.RmLock?)
    requires Exec(s, j).threads[j].pc == Successor(s, InstrOf(s, j)) != Broken
    ensures Exec(s, j).entries == s.entries
    ensures BeforeErased(Exec(s, j).threads[j].pc)
  {
  }

  lemma RemovalGoes(s: State, j: Tid, ip: Addr)
    requires Removes(s, j, ip) && BeforeErased(s.threads[j].pc)
    requires Exec(s, j).threads[j].pc == Successor(s, InstrOf(s, j)) != Broken
    ensures Exec(s, j).entries == s.entries
    ensures BeforeErased(Exec(s, j).threads[j].pc) || Exec(s, j).threads[j].pc.RmGate2?
  {
    if s.threads[j].pc.RmGate? || s.threads[j].pc.RmFind? || s.threads[j].pc.RmLock? {
      RemovalFinds(s, j, ip);
    }
  }

  lemma RemovalStep(s: State, j: Tid, ip: Addr)
    requires Alone(s, j) && Removes(s, j, ip) && BeforeErased(s.threads[j].pc)
    ensures Enabled(s, j) && Alone(Exec(s, j), j) && Removes(Exec(s, j), j, ip) && Exec(s, j).entries == s.entries
    ensures BeforeErased(Exec(s, j).threads[j].pc) || Exec(s, j).threads[j].pc.RmGate2?
    ensures InstructionsLeft(Exec(s, j).threads[j].pc) < InstructionsLeft(s.threads[j].pc)
  {
    AloneStep(s, j);
    StepLocks(s, j);
    RemovalGoes(s, j, ip);
  }

  lemma RemovalRunsOne(l: Ledger, calls: seq<Operation>, moves: seq<Move>, s: State, j: Tid, ip: Addr, i: Tid)
    returns (more: seq<Move>, next: State)
    requires Arrives(l, calls, moves, s) && Alone(s, j) && Removes(s, j, ip) && BeforeErased(s.threads[j].pc) && i != j
    ensures Arrives(l, calls, more, next) && Alone(next, j) && Removes(next, j, ip) && next.entries == s.entries
    ensures next.threads.Keys == s.threads.Keys && (i in s.threads ==> next.threads[i] == s.threads[i])
    ensures BeforeErased(next.threads[j].pc) || next.threads[j].pc.RmGate2?
    ensures InstructionsLeft(next.threads[j].pc) < InstructionsLeft(s.threads[j].pc)
  {
    RemovalStep(s, j, ip);
    ExecSpares(s, j, i);
    more := StepTo(l, calls, moves, s, j);
    next := Exec(s, j);
  }

  lemma ExecSpares(s: State, j: Tid, i: Tid)
    requires j in s.threads && i != j
    ensures Exec(s, j).threads.Keys == s.threads.Keys
    ensures i in s.threads ==> Exec(s, j).threads[i] == s.threads[i]
  {
  }

  /** The rest of the way, from the state that the run has arrived at.  Thread `i` stays as it is. */
  lemma {:induction false} RemovalRuns(
    l: Ledger, calls: seq<Operation>, moves: seq<Move>, s: State, j: Tid, ip: Addr, i: Tid)
    returns (more: seq<Move>, s': State)
    requires Arrives(l, calls, moves, s) && Alone(s, j) && Removes(s, j, ip) && i != j
    requires BeforeErased(s.threads[j].pc) || s.threads[j].pc.RmGate2?
    ensures Arrives(l, calls, more, s') && Alone(s', j) && Removes(s', j, ip) && s'.threads[j].pc.RmGate2?
    ensures s'.entries == s.entries && s'.threads.Keys == s.threads.Keys
    ensures i in s.threads ==> s'.threads[i] == s.threads[i]
    decreases InstructionsLeft(s.threads[j].pc)
  {
    if s.threads[j].pc.RmGate2? {
      more, s' := moves, s;
    } else {
      var one, next := RemovalRunsOne(l, calls, moves, s, j, ip, i);
      more, s' := RemovalRuns(l, calls, one, next, j, ip, i);
    }
  }

  // ---------------------------------------------------------------------------
  // The call that runs into it
  // ---------------------------------------------------------------------------

  /** A removal waits for the database lock with its client's mutex in hand; call `i` is on its way to that mutex. */
  ghost predicate Approaching(s: State, i: Tid, j: Tid, ip: Addr) {
    && Inv(s) && i != j && i in s.threads && Removes(s, j, ip) && s.threads[j].pc.RmGate2?
    && (forall t :: t in s.threads && t != i && t != j ==> Parked(s.threads[t]))
    && Reaches(s.threads[i].op, ip)
    && (s.threads[i].op.MakeTransaction? ==> s.threads[i].op.sender in s.entries)
    && OnTheWay(s.threads[i].op, s.threads[i].pc, ip)
  }

  predicate OnTheWay(op: Operation, pc: Pc, ip: Addr) {
    match op
    case RegisterClient(_) =>
      pc.RegStart? || pc.RegGate? || pc.RegInsertLock? || pc == RegFind(false) || pc == RegLock(false)
    case MakeTransaction(sender, _, _) =>
      || pc.TxGate? || pc.TxFindSender? || pc.TxLockSender?
      || (sender != ip && (pc.TxChecks? || pc.TxFindReceiver? || pc.TxLockReceiver?))
    case RemoveClient(_) => pc.RmGate? || pc.RmFind? || pc.RmLock?
  }

  predicate Arrived(op: Operation, pc: Pc, ip: Addr) {
    match op
    case RegisterClient(_) => pc.RegLock?
    case MakeTransaction(sender, _, _) => if sender == ip then pc.TxLockSender? else pc.TxLockReceiver?
    case RemoveClient(_) => pc.RmLock?
  }

  lemma WayGoesOn(s: State, op: Operation, pc: Pc, ip: Addr)
    requires OnTheWay(op, pc, ip) && !Arrived(op, pc, ip) && Reaches(op, ip) && ip in s.entries
    requires op.MakeTransaction? ==> op.sender in s.entries
    ensures !Code(op, pc).Halt? && !Code(op, pc).LockMeta?
    ensures Code(op, pc).LockClient? ==>
              op.MakeTransaction? && op.sender != ip && StanceAt(op, pc).target == Some(op.sender)
    ensures OnTheWay(op, Successor(s, Code(op, pc)), ip)
  {
  }

  lemma ApproachGates(s: State, i: Tid, j: Tid, ip: Addr)
    requires Approaching(s, i, j, ip)
    ensures s.gate == None || s.gate == Some(i)
  {
    var locks, vs := LocksOf(s), Stances(s);
    forall t | t in s.threads && t != i ensures s.gate != Some(t) {
      BystanderStance(s, i, j, ip, t);
      assert StanceTrue(locks, t, vs[t]);
    }
    assert s.gate.Some? ==> s.gate.value in vs;
  }

  /** All but the approaching call hold nothing but the removed client. */
  lemma BystanderStance(s: State, i: Tid, j: Tid, ip: Addr, t: Tid)
    requires Approaching(s, i, j, ip) && t in s.threads && t != i
    ensures !Stances(s)[t].gate && Stances(s)[t].held == if t == j then {ip} else {}
  {
    if t == j {
      WaitingRemoval(s.threads[t]);
    } else {
      ParkedStance(s.threads[t]);
    }
  }

  lemma WaitingRemoval(th: Thread)
    requires th.op.RemoveClient? && th.pc.RmGate2?
    ensures !StanceOf(th).gate && StanceOf(th).held == {th.op.client}
  {
  }

  lemma ApproachMutex(s: State, i: Tid, j: Tid, ip: Addr, x: Addr)
    requires Approaching(s, i, j, ip) && x != ip && x in s.entries && s.entries[x] in s.mutexes
    requires x !in Stances(s)[i].held
    ensures s.mutexes[s.entries[x]] == None
  {
    var locks, vs := LocksOf(s), Stances(s);
    assert EntryTrue(locks, vs, x) && MutexTrue(locks, vs, s.entries[x]);
    forall t | t in s.threads && t != i ensures x !in vs[t].held {
      BystanderStance(s, i, j, ip, t);
    }
  }

  lemma ApproachGoesOn(s: State, i: Tid, j: Tid, ip: Addr)
    requires Approaching(s, i, j, ip) && !Arrived(s.threads[i].op, s.threads[i].pc, ip)
    ensures Enabled(s, i)
  {
    var locks, vs, th := LocksOf(s), Stances(s), s.threads[i];
    assert StanceTrue(locks, i, vs[i]) && ThreadTrue(s.records, th);
    WayGoesOn(s, th.op, th.pc, ip);
    GateCode(th.op, th.pc);
    ApproachGates(s, i, j, ip);
    if InstrOf(s, i).LockClient? {
      GatedCode(th.op, th.pc);
      assert EntryTrue(locks, vs, th.op.sender);
      ApproachMutex(s, i, j, ip, th.op.sender);
    }
  }

  lemma WayKeepsEntries(s: State, t: Tid, ip: Addr)
    requires t in s.threads && OnTheWay(s.threads[t].op, s.threads[t].pc, ip)
    ensures s.entries.Keys <= Exec(s, t).entries.Keys
  {
  }

  lemma ApproachStep(s: State, i: Tid, j: Tid, ip: Addr)
    requires Approaching(s, i, j, ip) && !Arrived(s.threads[i].op, s.threads[i].pc, ip)
    ensures Enabled(s, i) && Approaching(Exec(s, i), i, j, ip)
    ensures InstructionsLeft(Exec(s, i).threads[i].pc) < InstructionsLeft(s.threads[i].pc)
  {
    ApproachGoesOn(s, i, j, ip);
    StepInv(s, i);
    StepLocks(s, i);
    StepGoesDown(s, i);
    WayGoesOn(s, s.threads[i].op, s.threads[i].pc, ip);
    WayKeepsEntries(s, i, ip);
  }

  lemma ArrivedCode(op: Operation, pc: Pc, ip: Addr)
    requires OnTheWay(op, pc, ip) && Arrived(op, pc, ip) && Reaches(op, ip)
    ensures Code(op, pc).LockClient? && StanceAt(op, pc).gate && StanceAt(op, pc).target == Some(ip)
  {
  }

  lemma ArrivalDeadlocks(s: State, i: Tid, j: Tid, ip: Addr)
    requires Approaching(s, i, j, ip) && Arrived(s.threads[i].op, s.threads[i].pc, ip)
    ensures Cycle(s, i, j)
  {
    var locks, vs := LocksOf(s), Stances(s);
    BystanderStance(s, i, j, ip, j);
    assert StanceTrue(locks, i, vs[i]) && StanceTrue(locks, j, vs[j]);
    ArrivedCode(s.threads[i].op, s.threads[i].pc, ip);
  }

  lemma {:induction false} ApproachRuns(l: Ledger, calls: seq<Operation>, moves: seq<Move>, i: Tid, j: Tid, ip: Addr)
    returns (more: seq<Move>)
    requires RunOf(l, calls, moves) && Approaching(Final(Initial(l), moves), i, j, ip)
    ensures RunOf(l, calls, more) && Cycle(Final(Initial(l), more), i, j)
    decreases InstructionsLeft(Final(Initial(l), moves).threads[i].pc)
  {
    var s := Final(Initial(l), moves);
    if Arrived(s.threads[i].op, s.threads[i].pc, ip) {
      ArrivalDeadlocks(s, i, j, ip);
      more := moves;
    } else {
      ApproachStep(s, i, j, ip);
      Extend(l, calls, moves, Step(i));
      more := ApproachRuns(l, calls, moves + [Step(i)], i, j, ip);
    }
  }

  /** The second call is made while the removal waits. */
  lemma ApproachBegins(l: Ledger, calls: seq<Operation>, moves: seq<Move>, i: Tid, j: Tid, ip: Addr)
    returns (more: seq<Move>)
    requires Working(l, calls, moves, j) && i < |calls| && i !in Final(Initial(l), moves).threads
    requires Removes(Final(Initial(l), moves), j, ip) && Final(Initial(l), moves).threads[j].pc.RmGate2?
    requires Reaches(calls[i], ip)
    requires calls[i].MakeTransaction? ==> calls[i].sender in Final(Initial(l), moves).entries
    ensures RunOf(l, calls, more) && Approaching(Final(Initial(l), more), i, j, ip)
  {
    var s := Final(Initial(l), moves);
    ThreadsAmong(l, calls, moves);
    Extend(l, calls, moves, Call(i, calls[i]));
    SpawnApproaches(s, i, j, calls[j].client, calls[i]);
    more := moves + [Call(i, calls[i])];
  }

  lemma SpawnApproaches(s: State, i: Tid, j: Tid, ip: Addr, op: Operation)
    requires Alone(s, j) && i !in s.threads && Removes(s, j, ip) && s.threads[j].pc.RmGate2? && Reaches(op, ip)
    requires op.MakeTransaction? ==> op.sender in s.entries
    ensures Approaching(Spawn(s, i, op), i, j, ip)
  {
    SpawnInv(s, i, op);
  }

  // ---------------------------------------------------------------------------
  // Exactly when calls can deadlock
  // ---------------------------------------------------------------------------

  lemma Begin(l: Ledger, calls: seq<Operation>)
    requires Sound(l)
    ensures Resting(l, calls, []) && Final(Initial(l), []) == Initial(l)
  {
    InitialInv(l);
  }

  /** The clients that the second call needs are made present. */
  lemma StageSet(l: Ledger, calls: seq<Operation>, i: Tid, j: Tid) returns (moves: seq<Move>)
    requires Sound(l) && Collide(l, calls, i, j)
    ensures Resting(l, calls, moves)
    ensures var s := Final(Initial(l), moves);
            && i !in s.threads && j !in s.threads && calls[j].client in s.entries
            && (calls[i].MakeTransaction? ==> calls[i].sender in s.entries)
  {
    Begin(l, calls);
    moves := MakePresent(l, calls, [], calls[j].client, i, j);
    if calls[i].MakeTransaction? && calls[i].sender != calls[j].client {
      moves := MakePresent(l, calls, moves, calls[i].sender, i, j);
    }
  }

  lemma CollisionDeadlocks(l: Ledger, calls: seq<Operation>, i: Tid, j: Tid) returns (moves: seq<Move>)
    requires Sound(l) && Collide(l, calls, i, j)
    ensures RunOf(l, calls, moves) && Cycle(Final(Initial(l), moves), i, j)
  {
    var ip := calls[j].client;
    var staged := StageSet(l, calls, i, j);
    var called := CallOne(l, calls, staged, j);
    var erased, _ := RemovalRuns(l, calls, called, Final(Initial(l), called), j, ip, i);
    var approaching := ApproachBegins(l, calls, erased, i, j, ip);
    moves := ApproachRuns(l, calls, approaching, i, j, ip);
  }

  /** A list of calls can come to a standstill exactly when one of them reaches for a client that another removes,
      and the clients it needs to get there are registered or get registered. */
  lemma DeadlockExactly(l: Ledger, calls: seq<Operation>)
    requires Sound(l)
    ensures CanDeadlock(l, calls) <==> exists i, j :: Collide(l, calls, i, j)
  {
    if CanDeadlock(l, calls) {
      var moves :| RunOf(l, calls, moves) && Deadlocked(Final(Initial(l), moves));
      var g, h :| Cycle(Final(Initial(l), moves), g, h);
      DeadlockCollides(l, calls, moves, g, h);
    }
    if i, j :| Collide(l, calls, i, j) {
      var moves := CollisionDeadlocks(l, calls, i, j);
    }
  }
}
