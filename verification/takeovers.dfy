/** What take-overs cost when snapshots may be of any length: exactly when money is lost, and when a number is paid
    again. */
module TakeOvers {
  import opened MachineInts
  import opened Wrappers
  import opened Ledgers
  import opened Snapshots
  import opened Cuts
  import opened Requests
  import opened Replication
  import opened Failover

  // ---------------------------------------------------------------------------
  // The last broadcast
  // ---------------------------------------------------------------------------

  /** A ledger that was broadcast, in the order in which its records were printed. */
  datatype Shot = Shot(ledger: Ledger, order: seq<Addr>)

  ghost predicate Sound(shot: Shot) {
    Keyed(shot.ledger) && Portable(shot.ledger) && Enumerates(shot.order, shot.ledger.records.Keys)
  }

  /** What a listener receives of it. */
  function Heard(shot: Shot): string
    requires forall ip :: ip in shot.order ==> ip in shot.ledger.records
  {
    Received(SnapshotText(shot.ledger, shot.order))
  }

  function NextShot(c: Cluster, e: Event, shot: Option<Shot>): Option<Shot> {
    match e
    case Serve(d, order) =>
      var h := Handle(Leading(c), d); if h.update.Some? then Some(Shot(h.ledger, order)) else shot
    case Refresh(order) => Some(Shot(Leading(c), order))
    case Join(_, order) => Some(Shot(Leading(c), order))
    case _ => shot
  }

  /** A backup has the last broadcast before it, or has loaded it. */
  ghost predicate ToldAt(c: Cluster, s: Addr, shot: Shot)
    requires s in c.ledgers && s in c.inboxes && forall ip :: ip in shot.order ==> ip in shot.ledger.records
  {
    var inbox := c.inboxes[s];
    if inbox == [] then ParseSnapshot(Heard(shot)) == Ok(c.ledgers[s]) else inbox[|inbox| - 1] == Heard(shot)
  }

  ghost predicate Led(c: Cluster) {
    c.inboxes.Keys == c.ledgers.Keys && c.coordinator in c.ledgers && c.inboxes[c.coordinator] == []
  }

  ghost predicate Told(c: Cluster, shot: Option<Shot>) {
    && Led(c) && (shot.Some? ==> Sound(shot.value))
    && forall s :: s in c.ledgers && s != c.coordinator ==> shot.Some? && ToldAt(c, s, shot.value)
  }

  /** The coordinator's ledger is what it broadcast last, apart from requests that were counted since. */
  ghost predicate Fresh(l: Ledger, shot: Shot) {
    Sound(shot) && Agree(l, shot.ledger) && NotAhead(shot.ledger, l)
  }

  /** It is what it once loaded of the last broadcast of another, apart from the same. */
  ghost predicate Taken(l: Ledger, shot: Shot) {
    Sound(shot) && exists v :: TakenAs(l, shot, v)
  }

  ghost predicate TakenAs(l: Ledger, shot: Shot, v: Ledger)
    requires Sound(shot)
  {
    ParseSnapshot(Heard(shot)) == Ok(v) && Agree(l, v) && NotAhead(v, l)
  }

  // ---------------------------------------------------------------------------
  // Messages
  // ---------------------------------------------------------------------------

  lemma BroadcastTells(c: Cluster, order: seq<Addr>)
    requires Led(c) && Sound(Shot(Leading(c), order))
    ensures Told(Broadcast(c, Leading(c), order), Some(Shot(Leading(c), order)))
  {
  }

  lemma ServeTells(c: Cluster, d: Datagram, order: seq<Addr>, shot: Option<Shot>)
    requires Told(c, shot) && Possible(c, Serve(d, order)) && Keyed(Leading(c)) && Portable(Leading(c))
    requires Portable(Handle(Leading(c), d).ledger)
    ensures Told(Step(c, Serve(d, order)), NextShot(c, Serve(d, order), shot))
  {
    var l, h := Leading(c), Handle(Leading(c), d);
    QuietHandler(l, d, c.history);
    var c' := c.(ledgers := c.ledgers[c.coordinator := h.ledger], history := Noted(c.history, l, d));
    assert Leading(c') == h.ledger;
    if h.update.Some? {
      BroadcastTells(c', order);
    } else {
      QuietTells(c, h.ledger, c'.history, shot);
    }
  }

  lemma QuietTells(c: Cluster, l': Ledger, h: History, shot: Option<Shot>)
    requires Told(c, shot)
    ensures Told(c.(ledgers := c.ledgers[c.coordinator := l'], history := h), shot)
  {
    var c' := c.(ledgers := c.ledgers[c.coordinator := l'], history := h);
    forall s | s in c'.ledgers && s != c'.coordinator ensures shot.Some? && ToldAt(c', s, shot.value) {
      assert ToldAt(c, s, shot.value);
    }
  }

  lemma DeliverTells(c: Cluster, server: Addr, shot: Option<Shot>)
    requires Told(c, shot) && Possible(c, Deliver(server))
    ensures Told(Step(c, Deliver(server)), shot) && Leading(Step(c, Deliver(server))) == Leading(c)
    ensures Step(c, Deliver(server)).history == c.history
  {
    var c' := Step(c, Deliver(server));
    assert ToldAt(c, server, shot.value);
    if ParseSnapshot(c.inboxes[server][0]).Err? {
      LeaveTells(c, server, shot);
    } else {
      forall s | s in c'.ledgers && s != c'.coordinator ensures ToldAt(c', s, shot.value) {
        DeliveredTo(c, server, shot.value, s);
      }
    }
  }

  lemma DeliveredTo(c: Cluster, server: Addr, shot: Shot, s: Addr)
    requires Told(c, Some(shot)) && Possible(c, Deliver(server)) && s in c.ledgers && s != c.coordinator
    requires ParseSnapshot(c.inboxes[server][0]).Ok?
    ensures var c' := Step(c, Deliver(server)); s in c'.ledgers && s in c'.inboxes && ToldAt(c', s, shot)
  {
    assert ToldAt(c, s, shot);
  }

  lemma LeaveTells(c: Cluster, server: Addr, shot: Option<Shot>)
    requires Told(c, shot) && server in c.ledgers && server != c.coordinator
    ensures Told(Without(c, server), shot) && Leading(Without(c, server)) == Leading(c)
  {
    var c' := Without(c, server);
    forall s | s in c'.ledgers && s != c'.coordinator ensures shot.Some? && ToldAt(c', s, shot.value) {
      assert ToldAt(c, s, shot.value);
    }
  }

  lemma JoinTells(c: Cluster, server: Addr, order: seq<Addr>)
    requires Led(c) && Possible(c, Join(server, order)) && Sound(Shot(Leading(c), order))
    ensures Told(Step(c, Join(server, order)), Some(Shot(Leading(c), order)))
    ensures Leading(Step(c, Join(server, order))) == Leading(c) && Step(c, Join(server, order)).history == c.history
  {
    var c' := c.(ledgers := c.ledgers[server := EMPTY], inboxes := c.inboxes[server := []]);
    assert Leading(c') == Leading(c);
    BroadcastTells(c', order);
  }

  lemma TakeOverTells(c: Cluster, successor: Addr, shot: Option<Shot>)
    requires Told(c, shot) && TakesOver(c, successor)
    ensures shot.Some? && ParseSnapshot(Heard(shot.value)) == Ok(c.ledgers[successor])
    ensures Told(Step(c, CoordinatorFails(successor)), shot)
    ensures Leading(Step(c, CoordinatorFails(successor))) == c.ledgers[successor]
  {
    var c' := Step(c, CoordinatorFails(successor));
    assert ToldAt(c, successor, shot.value);
    forall s | s in c'.ledgers && s != c'.coordinator ensures ToldAt(c', s, shot.value) {
      assert ToldAt(c, s, shot.value);
    }
  }

  // ---------------------------------------------------------------------------
  // Ledgers
  // ---------------------------------------------------------------------------

  lemma SameIsFresh(l: Ledger, order: seq<Addr>)
    requires Sound(Shot(l, order))
    ensures Fresh(l, Shot(l, order))
  {
  }

  lemma LoadedIsTaken(shot: Shot, v: Ledger)
    requires Sound(shot) && ParseSnapshot(Heard(shot)) == Ok(v)
    ensures Taken(v, shot)
  {
    assert TakenAs(v, shot, v);
  }

  lemma FreshGrows(l: Ledger, l': Ledger, shot: Shot)
    requires Agree(l, l') && NotAhead(l, l')
    ensures Fresh(l, shot) ==> Fresh(l', shot)
    ensures Taken(l, shot) ==> Taken(l', shot)
  {
    if Fresh(l, shot) {
      BehindThrough(shot.ledger, l, l');
    }
    if Taken(l, shot) {
      var v :| TakenAs(l, shot, v);
      BehindThrough(v, l, l');
      assert TakenAs(l', shot, v);
    }
  }

  lemma LoadedKeyed(shot: Shot, v: Ledger)
    requires Sound(shot) && ParseSnapshot(Heard(shot)) == Ok(v)
    ensures Keyed(v)
  {
    var n := ReceivedAs(shot.ledger, shot.order);
    assert Read(Heard(shot)) == Loads(v);
  }

  /** What is missing after a take-over, when what was broadcast is what the coordinator had. */
  lemma FreshLoss(l: Ledger, shot: Shot, v: Ledger)
    requires Fresh(l, shot) && ParseSnapshot(Heard(shot)) == Ok(v)
    ensures Money(v) <= Money(l)
    ensures Money(v) < Money(l) <==> MoneyBehind(shot.ledger, shot.order)
  {
    AgreeMoney(l, shot.ledger);
    var n := MoneyMissingExactly(shot.ledger, shot.order, v);
  }

  lemma TakenLoss(l: Ledger, shot: Shot, v: Ledger)
    requires Taken(l, shot) && ParseSnapshot(Heard(shot)) == Ok(v)
    ensures Money(v) == Money(l)
  {
    var w :| TakenAs(l, shot, w);
    AgreeMoney(l, v);
  }

  // ---------------------------------------------------------------------------
  // Every event
  // ---------------------------------------------------------------------------

  ghost predicate Stands(c: Cluster, shot: Option<Shot>, lost: nat) {
    && Told(c, shot) && Keyed(Leading(c)) && Portable(Leading(c)) && BalancedBut(Leading(c), c.history, lost)
    && (shot.Some? ==> StandsBy(Leading(c), shot.value, lost))
  }

  ghost predicate StandsBy(l: Ledger, shot: Shot, lost: nat) {
    Fresh(l, shot) || (Taken(l, shot) && (MoneyBehind(shot.ledger, shot.order) ==> lost > 0))
  }

  /** What a take-over loses. */
  ghost function LossTo(c: Cluster, successor: Addr): int
    requires TakesOver(c, successor)
  {
    Money(Leading(c)) - Money(c.ledgers[successor])
  }

  lemma ServeStands(c: Cluster, d: Datagram, order: seq<Addr>, shot: Option<Shot>, lost: nat)
    requires Stands(c, shot, lost) && Possible(c, Serve(d, order)) && Portable(Handle(Leading(c), d).ledger)
    ensures Stands(Step(c, Serve(d, order)), NextShot(c, Serve(d, order), shot), lost)
  {
    var l, h := Leading(c), Handle(Leading(c), d);
    ServeTells(c, d, order, shot);
    ServedLedger(c, d, order);
    QuietHandler(l, d, c.history);
    BalancedKept(l, d, c.history, lost);
    if h.update.Some? {
      SameIsFresh(h.ledger, order);
    } else if shot.Some? {
      QuietGrows(l, d);
      FreshGrows(l, h.ledger, shot.value);
    }
  }

  lemma ServedLedger(c: Cluster, d: Datagram, order: seq<Addr>)
    requires Led(c) && Possible(c, Serve(d, order))
    ensures var c' := Step(c, Serve(d, order));
            Leading(c') == Handle(Leading(c), d).ledger && c'.history == Noted(c.history, Leading(c), d)
  {
  }

  lemma TakeOverStands(c: Cluster, successor: Addr, shot: Option<Shot>, lost: nat)
    requires Stands(c, shot, lost) && TakesOver(c, successor) && Portable(c.ledgers[successor])
    ensures LossTo(c, successor) >= 0
    ensures Stands(Step(c, CoordinatorFails(successor)), shot, lost + LossTo(c, successor))
    ensures shot.Some? && Sound(shot.value)
    ensures lost + LossTo(c, successor) > 0 <==> lost > 0 || MoneyBehind(shot.value.ledger, shot.value.order)
  {
    TakeOverTells(c, successor, shot);
    var l, v := Leading(c), c.ledgers[successor];
    LoadedKeyed(shot.value, v);
    LoadedIsTaken(shot.value, v);
    if Fresh(l, shot.value) {
      FreshLoss(l, shot.value, v);
    } else {
      TakenLoss(l, shot.value, v);
    }
  }

  lemma OtherStands(c: Cluster, e: Event, shot: Option<Shot>, lost: nat)
    requires Stands(c, shot, lost) && Possible(c, e) && (e.Refresh? || e.Join? || e.Deliver? || e.BackupFails?)
    ensures Stands(Step(c, e), NextShot(c, e, shot), lost)
  {
    match e
    case Refresh(order) =>
      BroadcastTells(c, order);
      SameIsFresh(Leading(c), order);
    case Join(server, order) =>
      JoinTells(c, server, order);
      SameIsFresh(Leading(c), order);
    case Deliver(server) => DeliverTells(c, server, shot);
    case BackupFails(server) => LeaveTells(c, server, shot);
  }

  // ---------------------------------------------------------------------------
  // Whole runs
  // ---------------------------------------------------------------------------

  /** Coordinators change by failing only, and the coordinator's numbers always fit an `int`.  Snapshots may have any
      length. */
  ghost predicate CrashRun(states: seq<Cluster>, events: seq<Event>) {
    && Run(states, events)
    && (forall i :: 0 <= i < |events| ==> !events[i].HandOver?)
    && (forall i :: 0 <= i < |states| ==> Portable(Leading(states[i])))
  }

  /** The last broadcast of a run. */
  function LastShot(states: seq<Cluster>, events: seq<Event>): Option<Shot>
    requires |states| == |events| + 1
    decreases |events|
  {
    if events == [] then None
    else
      var n := |events|;
      NextShot(states[n - 1], events[n - 1], LastShot(states[..n], events[..n - 1]))
  }

  /** What the take-overs of a run lost. */
  ghost function Lost(states: seq<Cluster>, events: seq<Event>): int
    requires Run(states, events)
    decreases |events|
  {
    if events == [] then 0
    else
      var n := |events|;
      RunBefore(states, events);
      Lost(states[..n], events[..n - 1]) +
      if events[n - 1].CoordinatorFails? then LossTo(states[n - 1], events[n - 1].successor) else 0
  }

  lemma RunBefore(states: seq<Cluster>, events: seq<Event>)
    requires Run(states, events) && events != []
    ensures var n := |events|;
            && Run(states[..n], events[..n - 1])
            && Possible(states[n - 1], events[n - 1]) && states[n] == Step(states[n - 1], events[n - 1])
  {
  }

  lemma CrashRunBefore(states: seq<Cluster>, events: seq<Event>)
    requires CrashRun(states, events) && events != []
    ensures var n := |events|;
            && CrashRun(states[..n], events[..n - 1]) && !events[n - 1].HandOver?
            && Portable(Leading(states[n]))
  {
  }

  /** In some take-over of the run, a client with money lay behind the cut of the last broadcast. */
  ghost predicate SomeMoneyBehind(states: seq<Cluster>, events: seq<Event>)
    requires |states| == |events| + 1
    decreases |events|
  {
    events != [] &&
    var n := |events|;
    var shot := LastShot(states[..n], events[..n - 1]);
    || SomeMoneyBehind(states[..n], events[..n - 1])
    || (events[n - 1].CoordinatorFails? && shot.Some? && Sound(shot.value)
        && MoneyBehind(shot.value.ledger, shot.value.order))
  }

  lemma StartStands(server: Addr)
    ensures Stands(Start(server), None, 0)
  {
    EmptyGood();
  }

  ghost predicate RunStands(states: seq<Cluster>, events: seq<Event>)
    requires Run(states, events)
  {
    && Lost(states, events) >= 0
    && Stands(states[|events|], LastShot(states, events), Lost(states, events))
    && (Lost(states, events) > 0 <==> SomeMoneyBehind(states, events))
  }

  lemma LastEventStands(states: seq<Cluster>, events: seq<Event>)
    requires CrashRun(states, events) && events != []
    requires var n := |events|; Run(states[..n], events[..n - 1]) && RunStands(states[..n], events[..n - 1])
    ensures RunStands(states, events)
  {
    var n := |events|;
    var c, e := states[n - 1], events[n - 1];
    var shot, lost := LastShot(states[..n], events[..n - 1]), Lost(states[..n], events[..n - 1]);
    RunBefore(states, events);
    CrashRunBefore(states, events);
    match e
    case Serve(d, order) =>
      assert Led(c);
      ServedLedger(c, d, order);
      ServeStands(c, d, order, shot, lost);
    case CoordinatorFails(successor) =>
      TakeOverTells(c, successor, shot);
      TakeOverStands(c, successor, shot, lost);
    case Refresh(_) => OtherStands(c, e, shot, lost);
    case Join(_, _) => OtherStands(c, e, shot, lost);
    case Deliver(_) => OtherStands(c, e, shot, lost);
    case BackupFails(_) => OtherStands(c, e, shot, lost);
    case HandOver(_) =>
  }

  lemma {:induction false} CrashRunStands(states: seq<Cluster>, events: seq<Event>)
    requires CrashRun(states, events)
    ensures RunStands(states, events)
    decreases |events|
  {
    if events == [] {
      var server :| states[0] == Start(server);
      StartStands(server);
    } else {
      RunBefore(states, events);
      CrashRunBefore(states, events);
      CrashRunStands(states[..|events|], events[..|events| - 1]);
      LastEventStands(states, events);
    }
  }

  /** Whatever the number of clients, the coordinator's balances are what was registered less what was withdrawn exactly
      when in no take-over a client with money lay behind the cut of the last broadcast. */
  lemma MoneySurvivesExactly(states: seq<Cluster>, events: seq<Event>)
    requires CrashRun(states, events) && states[|events|].history.registrations <= MANY
    ensures var c := states[|events|];
            Money(Leading(c)) + c.history.withdrawn == STARTING_BALANCE * c.history.registrations <==>
            !SomeMoneyBehind(states, events)
    ensures var c := states[|events|];
            Money(Leading(c)) + c.history.withdrawn <= STARTING_BALANCE * c.history.registrations
  {
    CrashRunStands(states, events);
  }

  // ---------------------------------------------------------------------------
  // Numbers paid again
  // ---------------------------------------------------------------------------

  ghost predicate NumberCut(shot: Shot)
    requires forall ip :: ip in shot.order ==> ip in shot.ledger.records
  {
    exists n: nat :: InNumber(shot.ledger, shot.order, n, Cut(shot.ledger, shot.order))
  }

  /** What the backups will load knows every request of its clients that was paid, unless a number is cut. */
  ghost predicate Sure(c: Cluster, shot: Option<Shot>) {
    && DebitsApart(c.history) && Covers(Leading(c), c.history)
    && (shot.Some? && Sound(shot.value) ==> SureShot(shot.value, c.history))
  }

  ghost predicate SureShot(shot: Shot, h: History)
    requires Sound(shot)
  {
    Covers(shot.ledger, h) || exists v :: ParseSnapshot(Heard(shot)) == Ok(v) && Covers(v, h)
  }

  lemma UncutCovers(shot: Shot, v: Ledger, h: History)
    requires Sound(shot) && ParseSnapshot(Heard(shot)) == Ok(v) && SureShot(shot, h) && !NumberCut(shot)
    ensures Covers(v, h)
  {
    if Covers(shot.ledger, h) {
      var n := ReceivedAs(shot.ledger, shot.order);
      assert v == Firsts(shot.ledger, shot.order, n);
    }
  }

  lemma ServeSure(c: Cluster, d: Datagram, order: seq<Addr>, shot: Option<Shot>)
    requires Led(c) && Sure(c, shot) && Possible(c, Serve(d, order)) && Keyed(Leading(c)) && Portable(Leading(c))
    requires Portable(Handle(Leading(c), d).ledger)
    ensures Sure(Step(c, Serve(d, order)), NextShot(c, Serve(d, order), shot))
  {
    ServedLedger(c, d, order);
    QuietHandler(Leading(c), d, c.history);
    DebitsKept(Leading(c), d, c.history);
  }

  lemma TakeOverSure(c: Cluster, successor: Addr, shot: Option<Shot>)
    requires Told(c, shot) && Sure(c, shot) && TakesOver(c, successor)
    requires shot.Some? && Sound(shot.value) ==> !NumberCut(shot.value)
    ensures Sure(Step(c, CoordinatorFails(successor)), shot)
  {
    TakeOverTells(c, successor, shot);
    UncutCovers(shot.value, c.ledgers[successor], c.history);
  }

  lemma OtherSure(c: Cluster, e: Event, shot: Option<Shot>)
    requires Told(c, shot) && Sure(c, shot) && Possible(c, e) && (e.Refresh? || e.Join? || e.Deliver? || e.BackupFails?)
    requires Keyed(Leading(c)) && Portable(Leading(c))
    ensures Sure(Step(c, e), NextShot(c, e, shot))
  {
    match e
    case Refresh(order) => BroadcastTells(c, order);
    case Join(server, order) => JoinTells(c, server, order);
    case Deliver(server) => DeliverTells(c, server, shot);
    case BackupFails(server) => LeaveTells(c, server, shot);
  }

  /** In some take-over of the run, the cut of the last broadcast was within a request number. */
  ghost predicate SomeNumberCut(states: seq<Cluster>, events: seq<Event>)
    requires |states| == |events| + 1
    decreases |events|
  {
    events != [] &&
    var n := |events|;
    var shot := LastShot(states[..n], events[..n - 1]);
    || SomeNumberCut(states[..n], events[..n - 1])
    || (events[n - 1].CoordinatorFails? && shot.Some? && Sound(shot.value) && NumberCut(shot.value))
  }

  lemma LastEventSure(states: seq<Cluster>, events: seq<Event>)
    requires CrashRun(states, events) && events != [] && !SomeNumberCut(states, events)
    requires var n := |events|;
             && Run(states[..n], events[..n - 1]) && RunStands(states[..n], events[..n - 1])
             && Sure(states[n - 1], LastShot(states[..n], events[..n - 1]))
    ensures Sure(states[|events|], LastShot(states, events))
  {
    var n := |events|;
    var c, e, shot := states[n - 1], events[n - 1], LastShot(states[..n], events[..n - 1]);
    RunBefore(states, events);
    CrashRunBefore(states, events);
    match e
    case Serve(d, order) =>
      ServedLedger(c, d, order);
      ServeSure(c, d, order, shot);
    case CoordinatorFails(successor) => TakeOverSure(c, successor, shot);
    case Refresh(_) => OtherSure(c, e, shot);
    case Join(_, _) => OtherSure(c, e, shot);
    case Deliver(_) => OtherSure(c, e, shot);
    case BackupFails(_) => OtherSure(c, e, shot);
    case HandOver(_) =>
  }

  lemma {:induction false} CrashRunSure(states: seq<Cluster>, events: seq<Event>)
    requires CrashRun(states, events) && !SomeNumberCut(states, events)
    ensures Sure(states[|events|], LastShot(states, events))
    decreases |events|
  {
    if events == [] {
      var server :| states[0] == Start(server);
      EmptyGood();
    } else {
      RunBefore(states, events);
      CrashRunBefore(states, events);
      CrashRunSure(states[..|events|], events[..|events| - 1]);
      CrashRunStands(states[..|events|], events[..|events| - 1]);
      LastEventSure(states, events);
    }
  }

  /** Whatever the number of clients, and even if some of them were lost, no number of a registration is paid twice as
      long as in no take-over the cut of the last broadcast was within a request number. */
  lemma UncutNeverPaidTwice(states: seq<Cluster>, events: seq<Event>, j: nat, k: nat)
    requires CrashRun(states, events) && !SomeNumberCut(states, events)
    requires j < k < |states[|events|].history.debits|
    requires var debits := states[|events|].history.debits;
             debits[j].client == debits[k].client && debits[j].epoch == debits[k].epoch
    ensures var debits := states[|events|].history.debits;
            !Congruent(debits[j].seqNum, debits[k].seqNum)
  {
    CrashRunSure(states, events);
    var debits := states[|events|].history.debits;
    assert Apart(debits[j], debits[k]);
    NumbersApart(debits[j].seqNum, debits[k].seqNum, debits[j].number, debits[k].number);
  }

  /** And a successor takes a number again that was counted in the last broadcast exactly when its cut was. */
  lemma SuccessorAcceptsExactly(states: seq<Cluster>, events: seq<Event>, successor: Addr)
    requires CrashRun(states, events) && TakesOver(states[|events|], successor)
    ensures var c, shot := states[|events|], LastShot(states, events);
            && shot.Some? && Sound(shot.value)
            && (AcceptsUsed(shot.value.ledger, c.ledgers[successor]) <==> NumberCut(shot.value))
  {
    CrashRunStands(states, events);
    var c, shot := states[|events|], LastShot(states, events);
    TakeOverTells(c, successor, shot);
    AcceptsUsedExactly(shot.value.ledger, shot.value.order, c.ledgers[successor]);
  }
}
