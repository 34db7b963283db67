/** The one lookup that nothing catches: an answer reads the sender's record after all locks were given back.  It can
    fail exactly when another call removes that sender. */
module LateReads {
  import opened MachineInts
  import opened Ledgers
  import opened LockProtocol
  import opened LedgerProgram
  import opened ProgramInvariant
  import opened Refinement
  import opened Interleavings
  import opened Progress
  import opened Standstill

  /** A balance check, or a transfer to oneself. */
  predicate Rereads(op: Operation) {
    op.MakeTransaction? && (op.amount == 0 || op.sender == op.receiver)
  }

  predicate Early(status: Status) {
    status == BALANCE_CHECK || status == DUPLICATE_IP
  }

  /** Settled as one of these two, with the sender still to be read, or found missing. */
  predicate Late(th: Thread) {
    && th.op.MakeTransaction?
    && match th.pc
       case TxEarlyUnlock(status) => Early(status)
       case TxEarlyOpen(status) => Early(status)
       case TxReread(_) => true
       case Thrown(_) => true
       case _ => false
  }

  ghost predicate RemovalCalled(s: State, ip: Addr) {
    exists u :: u in s.threads && s.threads[u].op == RemoveClient(ip)
  }

  /** The sender of such a call was there, and if it is not there any more, some call removed it. */
  ghost predicate LateTrue(l: Ledger, s: State, th: Thread) {
    Late(th) ==>
      && Rereads(th.op) && Known(l, s, th.op.sender)
      && (th.op.sender in s.records || RemovalCalled(s, th.op.sender))
      && (th.pc.Thrown? ==> RemovalCalled(s, th.op.sender))
  }

  ghost predicate AllLate(l: Ledger, s: State) {
    forall t :: t in s.threads ==> LateTrue(l, s, s.threads[t]) && (s.threads[t].pc.Thrown? ==> Late(s.threads[t]))
  }

  lemma LateCode(s: State, th: Thread, next: Pc)
    requires GoesTo(s, th, next)
    ensures next.Thrown? ==> th.op.MakeTransaction? && th.pc.TxReread? && th.op.sender !in s.records
    ensures th.op.MakeTransaction? && Late(th.(pc := next)) ==> Late(th) || (th.pc.TxChecks? && Rereads(th.op))
  {
  }

  lemma StageStays(s: State, th: Thread, next: Pc)
    requires th.op.RegisterClient? && GoesTo(s, th, next) && StanceAt(th.op, th.pc).stage.Published?
    ensures StanceAt(th.op, next).stage.Published?
  {
  }

  lemma EnteredStays(s: State, t: Tid, ip: Addr)
    requires Inv(s) && Enabled(s, t) && Entered(s.threads[t], ip)
    ensures Entered(Exec(s, t).threads[t], ip)
  {
    StepLocks(s, t);
    StageStays(s, s.threads[t], Exec(s, t).threads[t].pc);
  }

  lemma KnownStays(l: Ledger, s: State, t: Tid, ip: Addr)
    requires Inv(s) && Enabled(s, t) && Known(l, s, ip)
    ensures Known(l, Exec(s, t), ip)
  {
    if ip !in l.records {
      var u :| u in s.threads && Entered(s.threads[u], ip);
      if u == t {
        EnteredStays(s, t, ip);
      }
      assert u in Exec(s, t).threads && Entered(Exec(s, t).threads[u], ip);
    }
  }

  lemma RemovingStays(s: State, t: Tid, ip: Addr)
    requires t in s.threads && RemovalCalled(s, ip)
    ensures RemovalCalled(Exec(s, t), ip)
  {
    var u :| u in s.threads && s.threads[u].op == RemoveClient(ip);
    assert u in Exec(s, t).threads && Exec(s, t).threads[u].op == RemoveClient(ip);
  }

  lemma RecordsGo(s: State, t: Tid, ip: Addr)
    requires Inv(s) && Enabled(s, t) && ip in s.records
    ensures ip in Exec(s, t).records || RemovalCalled(Exec(s, t), ip)
  {
    PlainCode(s.threads[t].op, s.threads[t].pc);
    if InstrOf(s, t).EraseRecord? {
      assert Exec(s, t).threads[t].op == s.threads[t].op;
      ErasesOwn(s, t, InstrOf(s, t), ip);
    } else if !InstrOf(s, t).InsertRecord? {
      PerformRewrites(s, t, InstrOf(s, t), ip);
    } else {
      PerformWrites(s, t, InstrOf(s, t));
      InsertKeeps(s, t, InstrOf(s, t), ip);
    }
  }

  lemma ErasesOwn(s: State, t: Tid, i: Instr, ip: Addr)
    requires t in s.threads && i.EraseRecord? && s.threads[t].op == RemoveClient(i.ip) && ip in s.records
    ensures ip in Perform(s, t, i).records || RemovalCalled(Perform(s, t, i), ip)
  {
    if i.ip == ip {
      assert t in Perform(s, t, i).threads && Perform(s, t, i).threads[t].op == RemoveClient(ip);
    }
  }

  lemma InsertKeeps(s: State, t: Tid, i: Instr, ip: Addr)
    requires t in s.threads && i.InsertRecord? && ip in s.records
    ensures ip in Perform(s, t, i).records
  {
  }

  /** What is known of a sender outlives every step. */
  lemma SenderStays(l: Ledger, s: State, t: Tid, ip: Addr)
    requires Inv(s) && Enabled(s, t) && Known(l, s, ip) && (ip in s.records || RemovalCalled(s, ip))
    ensures Known(l, Exec(s, t), ip) && (ip in Exec(s, t).records || RemovalCalled(Exec(s, t), ip))
  {
    KnownStays(l, s, t, ip);
    if RemovalCalled(s, ip) {
      RemovingStays(s, t, ip);
    } else {
      RecordsGo(s, t, ip);
    }
  }

  lemma ChecksKnow(l: Ledger, s: State, t: Tid)
    requires Inv(s) && LoadedFrom(l, s)
    requires t in s.threads && s.threads[t].op.MakeTransaction? && s.threads[t].pc.TxChecks?
    ensures Known(l, s, s.threads[t].op.sender) && s.threads[t].op.sender in s.records
  {
    HeldRegistered(s, t, s.threads[t].op.sender);
    assert LocksOf(s).members <= LocksOf(s).entries.Keys;
    EntryKnown(l, s, s.threads[t].op.sender);
  }

  lemma OwnLate(l: Ledger, s: State, t: Tid)
    requires Inv(s) && LoadedFrom(l, s) && AllLate(l, s) && Enabled(s, t)
    ensures var th' := Exec(s, t).threads[t];
            LateTrue(l, Exec(s, t), th') && (th'.pc.Thrown? ==> Late(th'))
  {
    var th, th' := s.threads[t], Exec(s, t).threads[t];
    StepLocks(s, t);
    LateCode(s, th, th'.pc);
    assert LateTrue(l, s, th);
    if Late(th') {
      if !Late(th) {
        ChecksKnow(l, s, t);
      }
      SenderStays(l, s, t, th.op.sender);
      if th'.pc.Thrown? {
        RemovingStays(s, t, th.op.sender);
      }
    }
  }

  lemma OthersLate(l: Ledger, s: State, t: Tid, u: Tid)
    requires Inv(s) && AllLate(l, s) && Enabled(s, t) && u in s.threads && u != t
    ensures var th := s.threads[u];
            LateTrue(l, Exec(s, t), th) && (th.pc.Thrown? ==> Late(th))
  {
    var th := s.threads[u];
    assert LateTrue(l, s, th);
    if Late(th) {
      SenderStays(l, s, t, th.op.sender);
      if th.pc.Thrown? {
        RemovingStays(s, t, th.op.sender);
      }
    }
  }

  lemma StepLate(l: Ledger, s: State, t: Tid)
    requires Inv(s) && LoadedFrom(l, s) && AllLate(l, s) && Enabled(s, t)
    ensures AllLate(l, Exec(s, t))
  {
    OwnLate(l, s, t);
    forall u | u in s.threads && u != t
      ensures LateTrue(l, Exec(s, t), s.threads[u]) && (s.threads[u].pc.Thrown? ==> Late(s.threads[u]))
    {
      OthersLate(l, s, t, u);
    }
  }

  lemma SpawnLate(l: Ledger, s: State, t: Tid, op: Operation)
    requires AllLate(l, s) && CanSpawn(s, t)
    ensures AllLate(l, Spawn(s, t, op))
  {
    var s' := Spawn(s, t, op);
    forall u | u in s.threads ensures LateTrue(l, s', s.threads[u]) {
      assert LateTrue(l, s, s.threads[u]);
      var th := s.threads[u];
      if Late(th) {
        if th.op.sender !in l.records {
          var v :| v in s.threads && Entered(s.threads[v], th.op.sender);
          assert v in s'.threads && Entered(s'.threads[v], th.op.sender);
        }
        if RemovalCalled(s, th.op.sender) {
          var v :| v in s.threads && s.threads[v].op == RemoveClient(th.op.sender);
          assert v in s'.threads && s'.threads[v].op == RemoveClient(th.op.sender);
        }
      }
    }
  }

  lemma {:induction false} RunLate(l: Ledger, moves: seq<Move>)
    requires Sound(l) && Feasible(Initial(l), moves)
    ensures AllLate(l, Final(Initial(l), moves))
    decreases |moves|
  {
    if moves != [] {
      var before := moves[..|moves| - 1];
      RunLate(l, before);
      RunInv(l, before);
      RunLoadedFrom(l, before);
      match moves[|moves| - 1]
      case Call(t, op) => SpawnLate(l, Final(Initial(l), before), t, op);
      case Step(t) => StepLate(l, Final(Initial(l), before), t);
    }
  }

  // ---------------------------------------------------------------------------
  // Exactly when it happens
  // ---------------------------------------------------------------------------

  ghost predicate CanThrow(l: Ledger, calls: seq<Operation>) {
    exists moves, t :: RunOf(l, calls, moves) && Threw(Final(Initial(l), moves), t)
  }

  ghost predicate Threw(s: State, t: Tid) {
    t in s.threads && s.threads[t].pc.Thrown?
  }

  /** Call `i` reads its sender late, call `j` removes that sender, which is there to begin with or registered. */
  ghost predicate Undercut(l: Ledger, calls: seq<Operation>, i: Tid, j: Tid) {
    && i < |calls| && j < |calls| && i != j
    && Rereads(calls[i]) && calls[j] == RemoveClient(calls[i].sender)
    && Available(l, calls, calls[i].sender, i, j)
  }

  lemma ThrownUndercut(l: Ledger, calls: seq<Operation>, moves: seq<Move>, i: Tid) returns (j: Tid)
    requires Sound(l) && RunOf(l, calls, moves) && Threw(Final(Initial(l), moves), i)
    ensures Undercut(l, calls, i, j)
  {
    RunFacts(l, calls, moves);
    RunLate(l, moves);
    j := LateUndercut(l, calls, Final(Initial(l), moves), i);
  }

  lemma LateUndercut(l: Ledger, calls: seq<Operation>, s: State, i: Tid) returns (j: Tid)
    requires StateOf(l, calls, s) && AllLate(l, s) && Threw(s, i)
    ensures Undercut(l, calls, i, j)
  {
    var th := s.threads[i];
    assert LateTrue(l, s, th) && Late(th);
    j :| j in s.threads && s.threads[j].op == RemoveClient(th.op.sender);
    KnownAvailable(l, calls, s, th.op.sender, i, j);
  }

  /** The call goes as far as to the late read. */
  predicate ToReread(op: Operation, pc: Pc) {
    && Rereads(op)
    && match pc
       case TxGate => true
       case TxFindSender => true
       case TxLockSender => true
       case TxChecks => true
       case TxEarlyUnlock(status) => Early(status)
       case TxEarlyOpen(status) => Early(status)
       case TxReread(_) => true
       case _ => false
  }

  lemma RereadGoes(s: State, i: Tid)
    requires i in s.threads && ToReread(s.threads[i].op, s.threads[i].pc) && !s.threads[i].pc.TxReread?
    requires s.threads[i].op.sender in s.entries
    requires Exec(s, i).threads[i].pc == Successor(s, InstrOf(s, i)) != Broken
    ensures ToReread(Exec(s, i).threads[i].op, Exec(s, i).threads[i].pc) && Exec(s, i).entries == s.entries
  {
  }

  lemma RereadStep(s: State, i: Tid)
    requires Alone(s, i) && ToReread(s.threads[i].op, s.threads[i].pc) && !s.threads[i].pc.TxReread?
    requires s.threads[i].op.sender in s.entries
    ensures Enabled(s, i) && Alone(Exec(s, i), i) && Exec(s, i).entries == s.entries
    ensures ToReread(Exec(s, i).threads[i].op, Exec(s, i).threads[i].pc)
    ensures InstructionsLeft(Exec(s, i).threads[i].pc) < InstructionsLeft(s.threads[i].pc)
  {
    AloneStep(s, i);
    StepLocks(s, i);
    RereadGoes(s, i);
  }

  lemma RereadRunsOne(l: Ledger, calls: seq<Operation>, moves: seq<Move>, s: State, i: Tid)
    returns (more: seq<Move>, next: State)
    requires Arrives(l, calls, moves, s) && Alone(s, i) && !s.threads[i].pc.TxReread?
    requires ToReread(s.threads[i].op, s.threads[i].pc) && s.threads[i].op.sender in s.entries
    ensures Arrives(l, calls, more, next) && Alone(next, i) && next.entries == s.entries
    ensures next.threads.Keys == s.threads.Keys && next.threads[i].op == s.threads[i].op
    ensures ToReread(next.threads[i].op, next.threads[i].pc)
    ensures InstructionsLeft(next.threads[i].pc) < InstructionsLeft(s.threads[i].pc)
  {
    RereadStep(s, i);
    more := StepTo(l, calls, moves, s, i);
    next := Exec(s, i);
  }

  lemma {:induction false} RereadRuns(l: Ledger, calls: seq<Operation>, moves: seq<Move>, s: State, i: Tid)
    returns (more: seq<Move>, s': State)
    requires Arrives(l, calls, moves, s) && Alone(s, i)
    requires ToReread(s.threads[i].op, s.threads[i].pc) && s.threads[i].op.sender in s.entries
    ensures Arrives(l, calls, more, s') && Alone(s', i)
    ensures s'.threads.Keys == s.threads.Keys && s'.entries == s.entries
    ensures s'.threads[i].op == s.threads[i].op && s'.threads[i].pc.TxReread?
    decreases InstructionsLeft(s.threads[i].pc)
  {
    if s.threads[i].pc.TxReread? {
      more, s' := moves, s;
    } else {
      var one, next := RereadRunsOne(l, calls, moves, s, i);
      more, s' := RereadRuns(l, calls, one, next, i);
    }
  }

  lemma RemovedRecord(s: State, j: Tid, ip: Addr)
    requires Inv(s) && Removes(s, j, ip) && s.threads[j].pc.RmGate2?
    ensures ip !in s.records
  {
    WaitingClaim(s.threads[j]);
    assert StanceTrue(LocksOf(s), j, Stances(s)[j]);
  }

  lemma WaitingClaim(th: Thread)
    requires th.op.RemoveClient? && th.pc.RmGate2?
    ensures StanceOf(th).claim == Locked(th.op.client)
  {
  }

  lemma ReadFails(s: State, i: Tid)
    requires i in s.threads && s.threads[i].op.MakeTransaction? && s.threads[i].pc.TxReread?
    requires s.threads[i].op.sender !in s.records
    ensures Enabled(s, i) && Threw(Exec(s, i), i)
  {
  }

  lemma UndercutThrows(l: Ledger, calls: seq<Operation>, i: Tid, j: Tid) returns (moves: seq<Move>)
    requires Sound(l) && Undercut(l, calls, i, j)
    ensures RunOf(l, calls, moves) && Threw(Final(Initial(l), moves), i)
  {
    var ip := calls[i].sender;
    Begin(l, calls);
    moves := MakePresent(l, calls, [], ip, i, j);
    moves := CallOne(l, calls, moves, i);
    var s: State;
    moves, s := RereadRuns(l, calls, moves, Final(Initial(l), moves), i);
    moves := CallOne(l, calls, moves, j);
    moves, s := RemovalRuns(l, calls, moves, Final(Initial(l), moves), j, ip, i);
    RemovedRecord(s, j, ip);
    ReadFails(s, i);
    moves := StepTo(l, calls, moves, s, i);
  }

  /** The late read of a list of calls can fail exactly when one of them is a balance check of, or a transfer to itself
      by, a client that another one removes. */
  lemma ThrowsExactly(l: Ledger, calls: seq<Operation>)
    requires Sound(l)
    ensures CanThrow(l, calls) <==> exists i, j :: Undercut(l, calls, i, j)
  {
    if CanThrow(l, calls) {
      var moves, t :| RunOf(l, calls, moves) && Threw(Final(Initial(l), moves), t);
      var j := ThrownUndercut(l, calls, moves, t);
    }
    if i, j :| Undercut(l, calls, i, j) {
      var moves := UndercutThrows(l, calls, i, j);
    }
  }
}
