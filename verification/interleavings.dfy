/** Whole runs: any number of calls, started at any time, interleaved in any way. */
module Interleavings {
  import opened MachineInts
  import opened Wrappers
  import opened MapSums
  import opened Ledgers
  import opened LockProtocol
  import opened LedgerProgram
  import opened ProgramInvariant
  import opened Refinement

  datatype Move = Call(caller: Tid, op: Operation) | Step(stepper: Tid)

  predicate CanMove(s: State, m: Move) {
    match m
    case Call(t, _) => CanSpawn(s, t)
    case Step(t) => Enabled(s, t)
  }

  function After(s: State, m: Move): State
    requires CanMove(s, m)
  {
    match m
    case Call(t, op) => Spawn(s, t, op)
    case Step(t) => Exec(s, t)
  }

  predicate Feasible(s: State, moves: seq<Move>)
    decreases |moves|, 0
  {
    moves == [] ||
    (Feasible(s, moves[..|moves| - 1]) && CanMove(Final(s, moves[..|moves| - 1]), moves[|moves| - 1]))
  }

  function Final(s: State, moves: seq<Move>): State
    requires Feasible(s, moves)
    decreases |moves|, 1
  {
    if moves == [] then s else After(Final(s, moves[..|moves| - 1]), moves[|moves| - 1])
  }

  // ---------------------------------------------------------------------------
  // The order in which operations happened
  // ---------------------------------------------------------------------------

  datatype Entry = Entry(thread: Tid, op: Operation, status: Status)

  function Settled(s: State, m: Move): seq<Entry>
    requires CanMove(s, m)
  {
    if m.Step? && Committed(s.threads[m.stepper].pc) == None then
      var th := Exec(s, m.stepper).threads[m.stepper];
      if Committed(th.pc).Some? then [Entry(m.stepper, th.op, Committed(th.pc).value)] else []
    else []
  }

  function History(s: State, moves: seq<Move>): seq<Entry>
    requires Feasible(s, moves)
    decreases |moves|
  {
    if moves == [] then []
    else
      var before := moves[..|moves| - 1];
      History(s, before) + Settled(Final(s, before), moves[|moves| - 1])
  }

  /** The operations of a history, one after the other. */
  function Replay(l: Ledger, h: seq<Entry>): Ledger {
    if h == [] then l else Apply(Replay(l, h[..|h| - 1]), h[|h| - 1].op).ledger
  }

  /** Every status in the history is the one the operation gives at its place. */
  predicate Faithful(l: Ledger, h: seq<Entry>) {
    h == [] ||
    (Faithful(l, h[..|h| - 1]) &&
     Apply(Replay(l, h[..|h| - 1]), h[|h| - 1].op).response.status == h[|h| - 1].status)
  }

  /** A thread is in the history exactly when its operation has taken effect, with its status, and once. */
  ghost predicate Recorded(s: State, h: seq<Entry>) {
    && (forall i :: 0 <= i < |h| ==>
          h[i].thread in s.threads &&
          s.threads[h[i].thread].op == h[i].op && Committed(s.threads[h[i].thread].pc) == Some(h[i].status))
    && (forall t :: t in s.threads && Committed(s.threads[t].pc).Some? ==> exists i :: 0 <= i < |h| && h[i].thread == t)
    && (forall i, j :: 0 <= i < j < |h| ==> h[i].thread != h[j].thread)
  }

  lemma SpawnCounters(s: State, t: Tid, op: Operation)
    requires CanSpawn(s, t)
    ensures var s' := Spawn(s, t, op);
            BalanceOf(s') == BalanceOf(s) && TransferredOf(s') == TransferredOf(s) && CountOf(s') == CountOf(s)
  {
    var th := Spawn(s, t, op).threads[t];
    NoBacklog(s.threads, PendingBalance, t, th);
    NoBacklog(s.threads, PendingTransferred, t, th);
    NoBacklog(s.threads, PendingCount, t, th);
  }

  lemma NoBacklog(threads: map<Tid, Thread>, backlog: Thread -> int, t: Tid, th: Thread)
    requires t !in threads && backlog(th) == 0
    ensures Total(threads[t := th], backlog) == Total(threads, backlog)
  {
    TotalUpdate(threads, backlog, t, th);
  }

  lemma SpawnRecords(s: State, t: Tid, op: Operation)
    requires Inv(s) && CanSpawn(s, t)
    ensures RecordsOf(Spawn(s, t, op)) == RecordsOf(s)
  {
    var s' := Spawn(s, t, op);
    forall ip: Addr ensures SameView(s, s', ip) {
      if HolderOf(s, ip).Some? {
        assert MutexTrue(LocksOf(s), Stances(s), s.entries[ip]);
      }
    }
    SameViews(s, s');
  }

  lemma SpawnAbs(s: State, t: Tid, op: Operation)
    requires Inv(s) && CanSpawn(s, t)
    ensures Abs(Spawn(s, t, op)) == Abs(s)
  {
    SpawnCounters(s, t, op);
    SpawnRecords(s, t, op);
  }

  /** Appending to a history. */
  lemma ReplayOne(l: Ledger, h: seq<Entry>, e: Entry)
    ensures Replay(l, h + [e]) == Apply(Replay(l, h), e.op).ledger
    ensures Faithful(l, h + [e]) <==>
              Faithful(l, h) && Apply(Replay(l, h), e.op).response.status == e.status
  {
    assert (h + [e])[..|h + [e]| - 1] == h;
  }

  lemma CallRecorded(s: State, h: seq<Entry>, t: Tid, op: Operation)
    requires CanSpawn(s, t) && Recorded(s, h)
    ensures Recorded(Spawn(s, t, op), h)
  {
    var s' := Spawn(s, t, op);
    forall u | u in s'.threads && Committed(s'.threads[u].pc).Some?
      ensures exists i :: 0 <= i < |h| && h[i].thread == u
    {
      assert u in s.threads;
    }
  }

  lemma StutterRecorded(s: State, h: seq<Entry>, t: Tid)
    requires t in s.threads && Recorded(s, h) && Stutters(s, t)
    ensures Recorded(Exec(s, t), h)
  {
    var s' := Exec(s, t);
    forall u | u in s'.threads && Committed(s'.threads[u].pc).Some?
      ensures exists i :: 0 <= i < |h| && h[i].thread == u
    {
      assert u in s.threads && Committed(s.threads[u].pc).Some?;
    }
  }

  lemma EffectRecorded(s: State, h: seq<Entry>, t: Tid)
    requires t in s.threads && Recorded(s, h) && TakesEffect(s, t)
    ensures Recorded(Exec(s, t), h + [Entry(t, s.threads[t].op, Committed(Exec(s, t).threads[t].pc).value)])
  {
    var s' := Exec(s, t);
    var e := Entry(t, s.threads[t].op, Committed(s'.threads[t].pc).value);
    var h' := h + [e];
    assert h'[|h|] == e;
    forall u | u in s'.threads && Committed(s'.threads[u].pc).Some?
      ensures exists i :: 0 <= i < |h'| && h'[i].thread == u
    {
      if u != t {
        assert Committed(s.threads[u].pc).Some?;
        var i :| 0 <= i < |h| && h[i].thread == u;
        assert h'[i].thread == u;
      }
    }
  }

  /** One move extends the history by at most the operation that happens in it. */
  lemma MoveRefines(s: State, m: Move, l: Ledger, h: seq<Entry>)
    requires Inv(s) && CanMove(s, m) && Abs(s) == Replay(l, h) && Faithful(l, h) && Recorded(s, h)
    ensures var s', h' := After(s, m), h + Settled(s, m);
            Inv(s') && Abs(s') == Replay(l, h') && Faithful(l, h') && Recorded(s', h')
  {
    match m {
      case Call(t, op) =>
        SpawnInv(s, t, op);
        SpawnAbs(s, t, op);
        CallRecorded(s, h, t, op);
        assert h + [] == h;
      case Step(t) =>
        StepRefines(s, t);
        if Stutters(s, t) {
          StutterRecorded(s, h, t);
          assert h + [] == h;
        } else {
          EffectRecorded(s, h, t);
          ReplayOne(l, h, Settled(s, m)[0]);
        }
    }
  }

  lemma InitialAbs(l: Ledger)
    ensures Abs(Initial(l)) == l
  {
    assert RecordsOf(Initial(l)) == l.records;
  }

  /** Linearizability.  Every run from a loaded ledger behaves as its operations would one after the other, in
      the order of its history: the state stands for the ledger they produce, every settled status is the one
      given at its place, and each operation that took effect is there exactly once. */
  lemma {:induction false} Linearizable(l: Ledger, moves: seq<Move>)
    requires Sound(l) && Feasible(Initial(l), moves)
    ensures var s, h := Final(Initial(l), moves), History(Initial(l), moves);
            Inv(s) && Abs(s) == Replay(l, h) && Faithful(l, h) && Recorded(s, h)
    decreases |moves|
  {
    if moves == [] {
      InitialInv(l);
      InitialAbs(l);
    } else {
      var before := moves[..|moves| - 1];
      Linearizable(l, before);
      MoveRefines(Final(Initial(l), before), moves[|moves| - 1], l, History(Initial(l), before));
    }
  }

  /** What had happened by some point of a run stays where it is in the history. */
  lemma {:induction false} HistoryGrows(s: State, moves: seq<Move>, n: nat)
    requires Feasible(s, moves) && n <= |moves|
    ensures Feasible(s, moves[..n])
    ensures History(s, moves[..n]) <= History(s, moves)
    decreases |moves|
  {
    if n < |moves| {
      var before := moves[..|moves| - 1];
      HistoryGrows(s, before, n);
      assert before[..n] == moves[..n];
    } else {
      assert moves[..n] == moves;
    }
  }

  lemma EarlierFirst(mid: State, early: seq<Entry>, s: State, h: seq<Entry>, i: nat, j: nat)
    requires Recorded(mid, early) && Recorded(s, h) && early <= h && i < |h| && j < |h|
    requires h[i].thread in mid.threads && Committed(mid.threads[h[i].thread].pc).Some?
    requires h[j].thread !in mid.threads
    ensures i < j
  {
    var k :| 0 <= k < |early| && early[k].thread == h[i].thread;
    assert h[k] == early[k];
    assert i == k;
    assert forall x :: 0 <= x < |early| ==> h[x] == early[x];
  }

  lemma RunRecorded(l: Ledger, moves: seq<Move>)
    requires Sound(l) && Feasible(Initial(l), moves)
    ensures Recorded(Final(Initial(l), moves), History(Initial(l), moves))
  {
    Linearizable(l, moves);
  }

  lemma RunInv(l: Ledger, moves: seq<Move>)
    requires Sound(l) && Feasible(Initial(l), moves)
    ensures Inv(Final(Initial(l), moves))
  {
    Linearizable(l, moves);
  }

  /** After `n` moves the operation of `first` had happened, and `second` had not been called. */
  ghost predicate HappenedBefore(l: Ledger, moves: seq<Move>, n: nat, first: Tid, second: Tid)
    requires n <= |moves|
  {
    && Feasible(Initial(l), moves[..n])
    && var mid := Final(Initial(l), moves[..n]);
       first in mid.threads && Committed(mid.threads[first].pc).Some? && second !in mid.threads
  }

  /** The order of the history respects time: an operation that had happened when another was called, and so
      every operation that had returned by then, comes first. */
  lemma RealTimeOrder(l: Ledger, moves: seq<Move>, n: nat, i: nat, j: nat)
    requires Sound(l) && Feasible(Initial(l), moves) && n <= |moves|
    requires var h := History(Initial(l), moves);
             i < |h| && j < |h| && HappenedBefore(l, moves, n, h[i].thread, h[j].thread)
    ensures i < j
  {
    HistoryGrows(Initial(l), moves, n);
    RunRecorded(l, moves[..n]);
    RunRecorded(l, moves);
    EarlierFirst(Final(Initial(l), moves[..n]), History(Initial(l), moves[..n]),
                 Final(Initial(l), moves), History(Initial(l), moves), i, j);
  }
}
