/** Nothing is lost and nothing is paid twice, however often servers fail and others take over. */
module Failover {
  import opened MachineInts
  import opened Wrappers
  import opened Ledgers
  import opened Snapshots
  import opened Truncation
  import opened Packets
  import opened Requests
  import opened Replication

  // ---------------------------------------------------------------------------
  // One handler at the coordinator
  // ---------------------------------------------------------------------------

  /** What is not broadcast is not worth broadcasting. */
  lemma QuietHandler(l: Ledger, d: Datagram, h: History)
    requires Portable(l) && Keyed(l)
    ensures var out := Handle(l, d);
            && Keyed(out.ledger)
            && (out.update.Some? ==> out.update.value == out.ledger)
            && (out.update.None? ==> Agree(l, out.ledger) && Noted(h, l, d) == h)
  {
  }

  /** Without a broadcast, request numbers only grow. */
  lemma QuietGrows(l: Ledger, d: Datagram)
    requires Portable(l) && Handle(l, d).update.None?
    ensures forall ip :: ip in l.records ==>
              && ip in Handle(l, d).ledger.records
              && l.records[ip].lastRequest <= Handle(l, d).ledger.records[ip].lastRequest
  {
  }

  lemma PaidRequest(l: Ledger, sender: Addr, p: ReqPacket)
    requires Portable(l) && HandleRequest(l, sender, p).reply.value.result == "SUCCESS"
    ensures sender in l.records && HandleRequest(l, sender, p).ledger.records.Keys == l.records.Keys
    ensures RecordOf(HandleRequest(l, sender, p).ledger, sender).lastRequest == l.records[sender].lastRequest + 1
    ensures Congruent(p.seqNum, l.records[sender].lastRequest + 1)
    ensures forall ip :: ip in l.records && ip != sender ==>
              HandleRequest(l, sender, p).ledger.records[ip].lastRequest == l.records[ip].lastRequest
  {
    ValidMeans(p.seqNum, RecordOf(l, sender));
  }

  lemma DebitsKeptRequest(l: Ledger, sender: Addr, p: ReqPacket, h: History)
    requires Portable(l) && Portable(HandleRequest(l, sender, p).ledger) && Covers(l, h) && DebitsApart(h)
    requires HandleRequest(l, sender, p).reply.value.result == "SUCCESS"
    ensures var h' := Noted(h, l, Request(sender, p));
            Covers(HandleRequest(l, sender, p).ledger, h') && DebitsApart(h')
  {
    PaidRequest(l, sender, p);
    var l' := HandleRequest(l, sender, p).ledger;
    var number := RecordOf(l', sender).lastRequest;
    DebitAdded(l, l', h, Debit(sender, Epoch(h, sender), p.seqNum, number));
  }

  lemma DebitAdded(l: Ledger, l': Ledger, h: History, d: Debit)
    requires Covers(l, h) && DebitsApart(h) && d.number < TWO31 && Congruent(d.seqNum, d.number)
    requires d.client in l.records && l'.records.Keys == l.records.Keys && d.epoch == Epoch(h, d.client)
    requires d.number == l.records[d.client].lastRequest + 1 == l'.records[d.client].lastRequest
    requires forall ip :: ip in l.records && ip != d.client ==> l'.records[ip].lastRequest == l.records[ip].lastRequest
    ensures Covers(l', h.(debits := h.debits + [d])) && DebitsApart(h.(debits := h.debits + [d]))
  {
    var debits := h.debits + [d];
    forall j, k | 0 <= j < k < |debits| ensures Apart(debits[j], debits[k]) {
      assert j < |h.debits| && debits[j] == h.debits[j];
    }
  }

  lemma DebitsKept(l: Ledger, d: Datagram, h: History)
    requires Portable(l) && Portable(Handle(l, d).ledger) && Covers(l, h) && DebitsApart(h)
    ensures Covers(Handle(l, d).ledger, Noted(h, l, d)) && DebitsApart(Noted(h, l, d))
  {
    match d
    case Request(sender, p) =>
      if HandleRequest(l, sender, p).reply.value.result == "SUCCESS" {
        DebitsKeptRequest(l, sender, p, h);
      } else {
        UnpaidCovers(l, d, h);
      }
    case Kill(sender) =>
    case Discovery(sender) =>
  }

  lemma UnpaidCovers(l: Ledger, d: Datagram, h: History)
    requires d.Request? && HandleRequest(l, d.sender, d.packet).reply.value.result != "SUCCESS"
    requires Portable(l) && Covers(l, h)
    ensures Covers(Handle(l, d).ledger, h)
  {
    QuietGrows(l, d);
    UnpaidMembers(l, d);
  }

  lemma UnpaidMembers(l: Ledger, d: Datagram)
    requires d.Request? && HandleRequest(l, d.sender, d.packet).reply.value.result != "SUCCESS"
    ensures Handle(l, d).ledger.records.Keys == l.records.Keys && Handle(l, d).update.None?
  {
  }

  /** The operation a datagram performs. */
  ghost predicate Performs(l: Ledger, d: Datagram, op: Operation) {
    Handle(l, d).ledger == Apply(l, op).ledger
  }

  lemma BalancedKept(l: Ledger, d: Datagram, h: History, lost: nat)
    requires BalancedBut(l, h, lost)
    ensures BalancedBut(Handle(l, d).ledger, Noted(h, l, d), lost)
  {
    match d
    case Request(sender, p) =>
      if Handle(l, d).ledger != l {
        assert Performs(l, d, MakeTransaction(sender, p.receiver, p.amount));
        ApplyMoney(l, MakeTransaction(sender, p.receiver, p.amount));
      }
    case Kill(sender) =>
      ApplyMoney(l, RemoveClient(sender));
    case Discovery(sender) =>
      ApplyMoney(l, RegisterClient(sender));
  }

  // ---------------------------------------------------------------------------
  // Ledgers that agree
  // ---------------------------------------------------------------------------

  lemma {:induction false} SameMoneyIn(a: map<Addr, ClientRecord>, b: map<Addr, ClientRecord>)
    requires a.Keys == b.Keys && forall ip :: ip in a ==> a[ip].balance == b[ip].balance
    ensures MoneyIn(a) == MoneyIn(b)
    decreases |a|
  {
    if a == map[] {
      assert b == map[];
    } else {
      var ip: Addr :| ip in a;
      MoneyWithout(a, ip);
      MoneyWithout(b, ip);
      assert (a - {ip}).Keys == a.Keys - {ip};
      SameMoneyIn(a - {ip}, b - {ip});
    }
  }

  lemma AgreeMoney(a: Ledger, b: Ledger)
    requires Agree(a, b)
    ensures Money(a) == Money(b)
  {
    SameMoneyIn(a.records, b.records);
  }

  // ---------------------------------------------------------------------------
  // Snapshots under way
  // ---------------------------------------------------------------------------

  lemma SentViews(c: Cluster, text: string, l: Ledger)
    requires Shaped(c) && ParseSnapshot(text) == Ok(l)
    ensures Shaped(Sent(c, text))
    ensures forall s :: s in c.ledgers ==>
              View(Sent(c, text), s) == if s == c.coordinator then c.ledgers[s] else l
  {
  }

  lemma WholeSnapshot(l: Ledger, order: seq<Addr>)
    requires Keyed(l) && Portable(l) && Sendable(l, order)
    ensures ParseSnapshot(Received(SnapshotText(l, order))) == Ok(l)
  {
    ReceivedExactly(l, order);
  }

  /** After a broadcast everybody will hold the coordinator's ledger, to the letter. */
  lemma BroadcastKeeps(c: Cluster, order: seq<Addr>)
    requires Shaped(c) && Sendable(Leading(c), order)
    requires DebitsApart(c.history) && Balanced(Leading(c), c.history) && Good(Leading(c), c.history)
    ensures Inv(Broadcast(c, Leading(c), order))
    ensures forall s :: s in c.ledgers ==> View(Broadcast(c, Leading(c), order), s) == Leading(c)
  {
    WholeSnapshot(Leading(c), order);
    SentViews(c, Received(SnapshotText(Leading(c), order)), Leading(c));
  }

  // ---------------------------------------------------------------------------
  // Every step
  // ---------------------------------------------------------------------------

  lemma ServeKeeps(c: Cluster, d: Datagram, order: seq<Addr>)
    requires Inv(c) && Enabled(c, Serve(d, order))
    ensures Inv(Step(c, Serve(d, order)))
  {
    var l, h := Leading(c), Handle(Leading(c), d);
    LeadingKeeps(l, d, c.history);
    var c' := c.(ledgers := c.ledgers[c.coordinator := h.ledger], history := Noted(c.history, l, d));
    assert Leading(c') == h.ledger;
    if h.update.Some? {
      BroadcastKeeps(c', order);
    } else {
      QuietHandler(l, d, c.history);
      QuietServeKeeps(c, h.ledger);
      assert c' == c.(ledgers := c.ledgers[c.coordinator := h.ledger]);
    }
  }

  /** What a handler leaves is as good a ledger as it found, under what it adds to the history. */
  lemma LeadingKeeps(l: Ledger, d: Datagram, h: History)
    requires Good(l, h) && DebitsApart(h) && Balanced(l, h) && Portable(Handle(l, d).ledger)
    ensures var l', h' := Handle(l, d).ledger, Noted(h, l, d);
            Good(l', h') && DebitsApart(h') && Balanced(l', h')
  {
    QuietHandler(l, d, h);
    DebitsKept(l, d, h);
    BalancedKept(l, d, h, 0);
  }

  /** What the backups hold is as good as before when the coordinator's ledger changes in request numbers only. */
  lemma QuietServeKeeps(c: Cluster, l': Ledger)
    requires Inv(c) && Agree(Leading(c), l') && Good(l', c.history) && Balanced(l', c.history)
    ensures Inv(c.(ledgers := c.ledgers[c.coordinator := l']))
  {
    var c' := c.(ledgers := c.ledgers[c.coordinator := l']);
    assert Leading(c') == l';
    forall s | s in c'.ledgers ensures Good(View(c', s), c'.history) && Agree(l', View(c', s)) {
      if s != c.coordinator {
        QuietView(c, l', s);
        assert Good(View(c, s), c.history) && Agree(Leading(c), View(c, s));
      }
    }
  }

  lemma DeliverShaped(c: Cluster, server: Addr)
    requires Shaped(c) && Enabled(c, Deliver(server))
    ensures var c' := Step(c, Deliver(server));
            && Shaped(c') && c'.ledgers.Keys == c.ledgers.Keys && c'.history == c.history
            && Leading(c') == Leading(c) && c'.coordinator == c.coordinator
  {
    assert ParseSnapshot(c.inboxes[server][0]).Ok?;
  }

  lemma DeliverView(c: Cluster, server: Addr, s: Addr)
    requires Shaped(c) && Enabled(c, Deliver(server)) && s in c.ledgers
    ensures var c' := Step(c, Deliver(server));
            s in c'.ledgers && s in c'.inboxes && View(c', s) == View(c, s)
  {
    assert ParseSnapshot(c.inboxes[server][0]).Ok?;
    if s == server {
      DeliverOwnView(c, server);
    }
  }

  lemma DeliverOwnView(c: Cluster, server: Addr)
    requires Shaped(c) && Enabled(c, Deliver(server)) && ParseSnapshot(c.inboxes[server][0]).Ok?
    ensures var c' := Step(c, Deliver(server));
            server in c'.ledgers && server in c'.inboxes && View(c', server) == View(c, server)
  {
    assert ParseSnapshot(c.inboxes[server][|c.inboxes[server]| - 1]).Ok?;
    LastOfRest(c.inboxes[server]);
  }

  lemma LastOfRest(inbox: seq<string>)
    requires inbox != []
    ensures |inbox| > 1 ==> inbox[1..] != [] && inbox[1..][|inbox[1..]| - 1] == inbox[|inbox| - 1]
    ensures |inbox| == 1 ==> inbox[1..] == [] && inbox[0] == inbox[|inbox| - 1]
  {
  }

  /** Two clusters that will show the same. */
  ghost predicate SameViews(c: Cluster, c': Cluster) {
    && Shaped(c) && Shaped(c') && c'.history == c.history
    && c'.ledgers.Keys <= c.ledgers.Keys
    && forall s :: s in c'.ledgers ==> View(c', s) == View(c, s)
  }

  lemma SameViewsKeep(c: Cluster, c': Cluster)
    requires Inv(c) && SameViews(c, c') && Leading(c') == Leading(c)
    ensures Inv(c')
  {
  }

  lemma DeliverKeeps(c: Cluster, server: Addr)
    requires Inv(c) && Enabled(c, Deliver(server))
    ensures Inv(Step(c, Deliver(server))) && SameViews(c, Step(c, Deliver(server)))
    ensures Leading(Step(c, Deliver(server))) == Leading(c)
  {
    var c' := Step(c, Deliver(server));
    DeliverShaped(c, server);
    forall s | s in c'.ledgers ensures View(c', s) == View(c, s) {
      DeliverView(c, server, s);
    }
    SameViewsKeep(c, c');
  }

  lemma LeaveKeeps(c: Cluster, server: Addr)
    requires Inv(c) && server in c.ledgers && server != c.coordinator
    ensures Inv(Without(c, server)) && SameViews(c, Without(c, server)) && Leading(Without(c, server)) == Leading(c)
  {
    SameViewsKeep(c, Without(c, server));
  }

  lemma JoinKeeps(c: Cluster, server: Addr, order: seq<Addr>)
    requires Inv(c) && Enabled(c, Join(server, order))
    ensures Inv(Step(c, Join(server, order)))
  {
    var c' := c.(ledgers := c.ledgers[server := EMPTY], inboxes := c.inboxes[server := []]);
    assert Leading(c') == Leading(c);
    BroadcastKeeps(c', order);
  }

  lemma HandOverKeeps(c: Cluster, successor: Addr)
    requires Inv(c) && TakesOver(c, successor)
    ensures Inv(c.(coordinator := successor)) && SameViews(c, c.(coordinator := successor))
  {
    var c' := c.(coordinator := successor);
    assert Good(View(c, successor), c.history) && Agree(Leading(c), View(c, successor));
    assert Leading(c') == View(c, successor);
    AgreeMoney(Leading(c), Leading(c'));
    AllAgree(c, c');
  }

  lemma AllAgree(c: Cluster, c': Cluster)
    requires Inv(c) && SameViews(c, c') && Agree(Leading(c), Leading(c'))
    requires Good(Leading(c'), c.history) && Balanced(Leading(c'), c.history)
    ensures Inv(c')
  {
    forall s | s in c'.ledgers ensures Good(View(c', s), c'.history) && Agree(Leading(c'), View(c', s)) {
      assert Good(View(c, s), c.history) && Agree(Leading(c), View(c, s));
    }
  }

  lemma StepKeeps(c: Cluster, e: Event)
    requires Inv(c) && Enabled(c, e)
    ensures Inv(Step(c, e))
  {
    match e
    case Serve(d, order) => ServeKeeps(c, d, order);
    case Refresh(order) => BroadcastKeeps(c, order);
    case Deliver(server) => DeliverKeeps(c, server);
    case Join(server, order) => JoinKeeps(c, server, order);
    case BackupFails(server) => LeaveKeeps(c, server);
    case CoordinatorFails(successor) =>
      HandOverKeeps(c, successor);
      LeaveKeeps(c.(coordinator := successor), c.coordinator);
      assert Step(c, e) == Without(c.(coordinator := successor), c.coordinator);
    case HandOver(successor) => HandOverKeeps(c, successor);
  }

  // ---------------------------------------------------------------------------
  // Whole runs
  // ---------------------------------------------------------------------------

  ghost predicate Run(states: seq<Cluster>, events: seq<Event>) {
    && |states| == |events| + 1
    && (exists server :: states[0] == Start(server))
    && forall i :: 0 <= i < |events| ==> Possible(states[i], events[i]) && states[i + 1] == Step(states[i], events[i])
  }

  /** All that is broadcast in the run can be read. */
  ghost predicate ReadableRun(states: seq<Cluster>, events: seq<Event>) {
    Run(states, events) && forall i :: 0 <= i < |events| ==> Readable(states[i], events[i])
  }

  lemma StartInv(server: Addr)
    ensures Inv(Start(server))
  {
    EmptyGood();
    assert View(Start(server), server) == EMPTY;
  }

  lemma EmptyGood()
    ensures Good(EMPTY, History(map[], [], 0, 0)) && Balanced(EMPTY, History(map[], [], 0, 0))
    ensures DebitsApart(History(map[], [], 0, 0))
  {
    assert Money(EMPTY) == 0;
  }

  /** `Inv`, as one fact. */
  ghost predicate Steady(c: Cluster) {
    Inv(c)
  }

  /** One event of a run, with what it leads to. */
  ghost predicate Goes(c: Cluster, e: Event, next: Cluster) {
    Enabled(c, e) && next == Step(c, e)
  }

  lemma EventGoes(states: seq<Cluster>, events: seq<Event>, i: nat)
    requires ReadableRun(states, events) && i < |events|
    ensures Goes(states[i], events[i], states[i + 1])
  {
  }

  lemma StaySteady(c: Cluster, e: Event, next: Cluster)
    requires Steady(c) && Goes(c, e, next)
    ensures Steady(next)
  {
    StepKeeps(c, e);
  }

  lemma StartSteady(server: Addr)
    ensures Steady(Start(server)) && Leading(Start(server)) == EMPTY
  {
    StartInv(server);
  }

  lemma {:induction false} InvAt(states: seq<Cluster>, events: seq<Event>, i: nat)
    requires ReadableRun(states, events) && i <= |events|
    ensures Steady(states[i])
  {
    if i == 0 {
      var server :| states[0] == Start(server);
      StartSteady(server);
    } else {
      InvAt(states, events, i - 1);
      EventGoes(states, events, i - 1);
      StaySteady(states[i - 1], events[i - 1], states[i]);
    }
  }

  lemma RunInv(states: seq<Cluster>, events: seq<Event>)
    requires ReadableRun(states, events)
    ensures Inv(states[|events|])
  {
    InvAt(states, events, |events|);
  }

  /** In every run whose broadcasts can be read, with any number of failures, a server that has read what was sent to it
      has the coordinator's members, balances and totals. */
  lemma BackupsAgree(states: seq<Cluster>, events: seq<Event>, server: Addr)
    requires ReadableRun(states, events)
    ensures var c := states[|events|];
            && c.coordinator in c.ledgers && c.inboxes.Keys == c.ledgers.Keys
            && (server in c.ledgers && c.inboxes[server] == [] ==> Agree(c.ledgers[c.coordinator], c.ledgers[server]))
  {
    RunInv(states, events);
    var c := states[|events|];
    assert server in c.ledgers ==> Agree(Leading(c), View(c, server));
  }

  /** No request number of a registration is ever paid twice, on whichever servers the payments were made. */
  lemma NeverPaidTwice(states: seq<Cluster>, events: seq<Event>, j: nat, k: nat)
    requires ReadableRun(states, events)
    requires j < k < |states[|events|].history.debits|
    requires var debits := states[|events|].history.debits;
             debits[j].client == debits[k].client && debits[j].epoch == debits[k].epoch
    ensures var debits := states[|events|].history.debits;
            !Congruent(debits[j].seqNum, debits[k].seqNum)
  {
    RunInv(states, events);
    var debits := states[|events|].history.debits;
    assert Apart(debits[j], debits[k]);
    NumbersApart(debits[j].seqNum, debits[k].seqNum, debits[j].number, debits[k].number);
  }

  lemma NumbersApart(m: int, n: int, a: int, b: int)
    requires Congruent(m, a) && Congruent(n, b) && 0 <= a < b < TWO31
    ensures !Congruent(m, n)
  {
    CongruentLow(m, a);
    CongruentLow(n, b);
    CongruentLow(m, n);
    ToI32Fits(a);
    ToI32Fits(b);
  }

  /** The coordinator's balances are what was ever registered less what was ever withdrawn, however many
      coordinators there have been. */
  lemma MoneySurvives(states: seq<Cluster>, events: seq<Event>)
    requires ReadableRun(states, events) && states[|events|].history.registrations <= MANY
    ensures var c := states[|events|];
            && c.coordinator in c.ledgers
            && Money(c.ledgers[c.coordinator]) + c.history.withdrawn == STARTING_BALANCE * c.history.registrations
  {
    RunInv(states, events);
  }

  /** Taking over changes nothing but, at most, which of the unpaid requests are remembered. */
  lemma TakeOverLosesNothing(states: seq<Cluster>, events: seq<Event>, successor: Addr)
    requires ReadableRun(states, events) && TakesOver(states[|events|], successor)
    ensures var c := states[|events|];
            var c' := Step(c, CoordinatorFails(successor));
            && Enabled(c, CoordinatorFails(successor)) && c'.coordinator == successor
            && c.coordinator in c.ledgers && successor in c'.ledgers
            && Agree(c.ledgers[c.coordinator], c'.ledgers[successor])
            && Money(c.ledgers[c.coordinator]) == Money(c'.ledgers[successor])
  {
    RunInv(states, events);
    var c := states[|events|];
    assert Agree(Leading(c), View(c, successor));
    AgreeMoney(c.ledgers[c.coordinator], c.ledgers[successor]);
  }

  // ---------------------------------------------------------------------------
  // Without hand-overs between live servers, backups never run ahead
  // ---------------------------------------------------------------------------

  ghost predicate NotAhead(a: Ledger, b: Ledger) {
    forall ip :: ip in a.records && ip in b.records ==> a.records[ip].lastRequest <= b.records[ip].lastRequest
  }

  /** All backups will hold one and the same ledger, and it is not ahead of the coordinator's. */
  ghost predicate Behind(c: Cluster, common: Ledger) {
    && Inv(c)
    && NotAhead(common, Leading(c)) && Agree(Leading(c), common)
    && forall s :: s in c.ledgers && s != c.coordinator ==> View(c, s) == common
  }

  /** The ledger that all backups will hold after an event. */
  function NextCommon(c: Cluster, common: Ledger, e: Event): Ledger {
    match e
    case Serve(d, _) => var h := Handle(Leading(c), d); if h.update.Some? then h.ledger else common
    case Refresh(_) => Leading(c)
    case Join(_, _) => Leading(c)
    case _ => common
  }

  lemma BroadcastBehind(c: Cluster, order: seq<Addr>)
    requires Shaped(c) && Sendable(Leading(c), order)
    requires DebitsApart(c.history) && Balanced(Leading(c), c.history) && Good(Leading(c), c.history)
    ensures Behind(Broadcast(c, Leading(c), order), Leading(c))
  {
    BroadcastKeeps(c, order);
  }

  lemma ServeGathers(c: Cluster, d: Datagram, order: seq<Addr>)
    requires Inv(c) && Enabled(c, Serve(d, order)) && Handle(Leading(c), d).update.Some?
    ensures Behind(Step(c, Serve(d, order)), Handle(Leading(c), d).ledger)
    ensures Leading(Step(c, Serve(d, order))) == Handle(Leading(c), d).ledger
  {
    var l, h := Leading(c), Handle(Leading(c), d);
    var c' := c.(ledgers := c.ledgers[c.coordinator := h.ledger], history := Noted(c.history, l, d));
    assert Leading(c') == h.ledger;
    QuietHandler(l, d, c.history);
    LeadingKeeps(l, d, c.history);
    BroadcastBehind(c', order);
  }

  lemma ServeKeepsBehind(c: Cluster, d: Datagram, order: seq<Addr>, common: Ledger)
    requires Behind(c, common) && Enabled(c, Serve(d, order))
    ensures Behind(Step(c, Serve(d, order)), NextCommon(c, common, Serve(d, order)))
  {
    var l, h := Leading(c), Handle(Leading(c), d);
    QuietHandler(l, d, c.history);
    if h.update.Some? {
      ServeGathers(c, d, order);
    } else {
      ServeKeeps(c, d, order);
      QuietGrows(l, d);
      QuietBehind(c, h.ledger, common);
    }
  }

  lemma QuietView(c: Cluster, l': Ledger, s: Addr)
    requires Shaped(c) && s in c.ledgers && s != c.coordinator
    ensures View(c.(ledgers := c.ledgers[c.coordinator := l']), s) == View(c, s)
  {
  }

  lemma QuietBehind(c: Cluster, l': Ledger, common: Ledger)
    requires Behind(c, common) && Agree(Leading(c), l') && NotAhead(Leading(c), l')
    requires Inv(c.(ledgers := c.ledgers[c.coordinator := l']))
    ensures Behind(c.(ledgers := c.ledgers[c.coordinator := l']), common)
  {
    var c' := c.(ledgers := c.ledgers[c.coordinator := l']);
    assert Leading(c') == l';
    BehindThrough(common, Leading(c), l');
    forall s | s in c'.ledgers && s != c'.coordinator ensures View(c', s) == common {
      QuietView(c, l', s);
    }
  }

  lemma BehindThrough(a: Ledger, b: Ledger, d: Ledger)
    requires NotAhead(a, b) && Agree(b, a) && NotAhead(b, d) && Agree(b, d)
    ensures NotAhead(a, d) && Agree(d, a)
  {
  }

  lemma CrashKeepsBehind(c: Cluster, successor: Addr, common: Ledger)
    requires Behind(c, common) && TakesOver(c, successor)
    ensures Behind(Without(c, c.coordinator).(coordinator := successor), common)
  {
    StepKeeps(c, CoordinatorFails(successor));
    var c' := Without(c, c.coordinator).(coordinator := successor);
    assert View(c, successor) == Leading(c');
    forall s | s in c'.ledgers && s != successor ensures View(c', s) == common {
      assert View(c', s) == View(c, s);
    }
  }

  /** Crashes included, every event but a hand-over to another server while the old coordinator lives on keeps the
      backups together and not ahead. */
  lemma StepKeepsBehind(c: Cluster, e: Event, common: Ledger)
    requires Behind(c, common) && Enabled(c, e) && !e.HandOver?
    ensures Behind(Step(c, e), NextCommon(c, common, e))
  {
    match e
    case Serve(d, order) => ServeKeepsBehind(c, d, order, common);
    case Refresh(order) => BroadcastBehind(c, order);
    case Deliver(server) => DeliverKeeps(c, server);
    case Join(server, order) =>
      var c' := c.(ledgers := c.ledgers[server := EMPTY], inboxes := c.inboxes[server := []]);
      assert Leading(c') == Leading(c);
      BroadcastBehind(c', order);
    case BackupFails(server) => LeaveKeeps(c, server);
    case CoordinatorFails(successor) => CrashKeepsBehind(c, successor, common);
  }

  ghost predicate Broadcasts(c: Cluster, e: Event) {
    e.Refresh? || e.Join? || (e.Serve? && Handle(Leading(c), e.d).update.Some?)
  }

  /** Whatever hand-overs there were, a broadcast brings the backups together again. */
  lemma BroadcastGathers(c: Cluster, e: Event)
    requires Inv(c) && Enabled(c, e) && Broadcasts(c, e)
    ensures Behind(Step(c, e), Leading(Step(c, e)))
  {
    match e
    case Serve(d, order) => ServeGathers(c, d, order);
    case Refresh(order) => BroadcastBehind(c, order);
    case Join(server, order) =>
      var c' := c.(ledgers := c.ledgers[server := EMPTY], inboxes := c.inboxes[server := []]);
      assert Leading(c') == Leading(c);
      BroadcastBehind(c', order);
    case _ =>
  }

  /** Event `n - 1` broadcast, or there was none before event `n`; and from there on coordinators changed by failing
      only. */
  ghost predicate SettledFrom(states: seq<Cluster>, events: seq<Event>, n: nat)
    requires |states| == |events| + 1
  {
    && n <= |events| && (n == 0 || Broadcasts(states[n - 1], events[n - 1]))
    && forall i :: n <= i < |events| ==> !events[i].HandOver?
  }

  /** `Behind`, as one fact about the end of a run. */
  ghost predicate Together(c: Cluster, common: Ledger) {
    Behind(c, common)
  }

  /** `Broadcasts`, as one fact. */
  ghost predicate Announces(c: Cluster, e: Event) {
    Broadcasts(c, e)
  }

  lemma SettledBy(states: seq<Cluster>, events: seq<Event>, n: nat)
    requires |states| == |events| + 1 && SettledFrom(states, events, n) && n > 0
    ensures Announces(states[n - 1], events[n - 1])
  {
  }

  lemma FirstTogether(c: Cluster, server: Addr)
    requires c == Start(server)
    ensures Together(c, EMPTY)
  {
    StartTogether(server);
  }

  lemma GatherTogether(c: Cluster, e: Event, next: Cluster) returns (common: Ledger)
    requires Steady(c) && Goes(c, e, next) && Announces(c, e)
    ensures Together(next, common)
  {
    BroadcastGathers(c, e);
    common := Leading(next);
  }

  lemma StayTogether(c: Cluster, e: Event, next: Cluster, before: Ledger) returns (common: Ledger)
    requires Together(c, before) && Goes(c, e, next) && !e.HandOver?
    ensures Together(next, common)
  {
    StepKeepsBehind(c, e, before);
    common := NextCommon(c, before, e);
  }

  lemma AloneTogether(c: Cluster)
    requires Steady(c) && c.ledgers.Keys == {c.coordinator}
    ensures Together(c, Leading(c))
  {
  }

  lemma StartTogether(server: Addr)
    ensures Together(Start(server), EMPTY)
  {
    StartSteady(server);
    assert Start(server).ledgers.Keys == {server};
    AloneTogether(Start(server));
  }

  lemma GatheredFirst(states: seq<Cluster>, events: seq<Event>)
    requires ReadableRun(states, events)
    ensures Together(states[0], EMPTY)
  {
    var server :| states[0] == Start(server);
    FirstTogether(states[0], server);
  }

  lemma GatheredBy(states: seq<Cluster>, events: seq<Event>, i: nat) returns (common: Ledger)
    requires ReadableRun(states, events) && i < |events| && Announces(states[i], events[i])
    ensures Together(states[i + 1], common)
  {
    InvAt(states, events, i);
    EventGoes(states, events, i);
    common := GatherTogether(states[i], events[i], states[i + 1]);
  }

  lemma GatheredAt(states: seq<Cluster>, events: seq<Event>, n: nat) returns (common: Ledger)
    requires ReadableRun(states, events) && SettledFrom(states, events, n)
    ensures Together(states[n], common)
  {
    if n == 0 {
      GatheredFirst(states, events);
      common := EMPTY;
    } else {
      SettledBy(states, events, n);
      common := GatheredBy(states, events, n - 1);
    }
  }

  lemma {:induction false} RunBehind(states: seq<Cluster>, events: seq<Event>, n: nat, i: nat) returns (common: Ledger)
    requires ReadableRun(states, events) && SettledFrom(states, events, n) && n <= i <= |events|
    ensures Together(states[i], common)
    decreases i
  {
    if i == n {
      common := GatheredAt(states, events, n);
    } else {
      var before := RunBehind(states, events, n, i - 1);
      EventGoes(states, events, i - 1);
      common := StayTogether(states[i - 1], events[i - 1], states[i], before);
    }
  }

  /** In every run whose broadcasts can be read, a backup that has read what was sent to it knows no request that the
      coordinator does not know, unless a coordinator was replaced while it lived and nothing was broadcast since. */
  lemma BackupsNotAhead(states: seq<Cluster>, events: seq<Event>, n: nat, server: Addr)
    requires ReadableRun(states, events) && SettledFrom(states, events, n)
    requires var c := states[|events|]; server in c.ledgers && server in c.inboxes && c.inboxes[server] == []
    ensures var c := states[|events|];
            c.coordinator in c.ledgers && NotAhead(c.ledgers[server], c.ledgers[c.coordinator])
  {
    var common := RunBehind(states, events, n, |events|);
    var c := states[|events|];
    assert server != c.coordinator ==> View(c, server) == common;
  }
}
