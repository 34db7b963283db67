/** What a snapshot that is too long by one character can cost: a payment made twice. */
module Overlong {
  import opened MachineInts
  import opened Wrappers
  import opened Text
  import opened Packets
  import opened Ledgers
  import opened Requests
  import opened Snapshots
  import opened Truncation
  import opened Replication
  import opened Failover

  // ---------------------------------------------------------------------------
  // Clients whose snapshot has 1028 characters, and one more
  // ---------------------------------------------------------------------------

  const CLIENTS := 48
  const ALL := 49

  /** 10.0.0.10 to 10.0.0.56, then 100.100.10.10, and then 20.0.0.10. */
  function Client(k: nat): Addr
    requires k < ALL
  {
    if k < 47 then 10 + 0x100_0000 * (10 + k)
    else if k == 47 then 100 + 0x100 * 100 + 0x1_0000 * 10 + 0x100_0000 * 10
    else 20 + 0x100_0000 * 10
  }

  const SENDER: Addr := Client(47)
  const RECEIVER: Addr := Client(0)

  lemma ClientsApart(j: nat, k: nat)
    requires j < k < ALL
    ensures Client(j) != Client(k)
  {
  }

  function Order(n: nat): (order: seq<Addr>)
    requires n <= ALL
    ensures |order| == n && forall k :: 0 <= k < n ==> order[k] == Client(k)
  {
    seq(n, k requires 0 <= k < n => Client(k))
  }

  /** The ledger after the first `n` clients have registered. */
  function Crowd(n: nat): Ledger
    requires n <= ALL
  {
    if n == 0 then EMPTY else Registered(Crowd(n - 1), Client(n - 1)).ledger
  }

  ghost predicate Fresh(l: Ledger, n: nat)
    requires n <= ALL
  {
    && (forall ip :: ip in l.records <==> ip in Order(n))
    && (forall ip :: ip in l.records ==> l.records[ip] == NewClient(ip))
    && l.totalBalance == 100000 * n && l.totalTransferred == 0 && l.numTransactions == 0
  }

  lemma {:induction false} CrowdFresh(n: nat)
    requires n <= ALL
    ensures Fresh(Crowd(n), n)
  {
    if n > 0 {
      CrowdFresh(n - 1);
      NextInOrder(n);
      ToI32Fits(100000 * n);
      assert Crowd(n).totalBalance == ToI32(100000 * (n - 1) + 100000);
    }
  }

  lemma NextInOrder(n: nat)
    requires 0 < n <= ALL
    ensures Client(n - 1) !in Order(n - 1)
    ensures Order(n) == Order(n - 1) + [Client(n - 1)]
  {
    forall k | 0 <= k < n - 1 ensures Client(k) != Client(n - 1) {
      ClientsApart(k, n - 1);
    }
  }

  lemma OrderEnumerates(n: nat, keys: set<Addr>)
    requires n <= ALL && forall ip :: ip in keys <==> ip in Order(n)
    ensures Enumerates(Order(n), keys)
  {
    forall i, j | 0 <= i < j < n ensures Order(n)[i] != Order(n)[j] {
      ClientsApart(i, j);
    }
  }

  /** The ledger after the sender has paid 1 to the receiver `m` times. */
  function Busy(m: nat): Ledger
    requires m <= 10
  {
    if m == 0 then Crowd(CLIENTS) else HandleRequest(Busy(m - 1), SENDER, ReqPacket(m, RECEIVER, 1)).ledger
  }

  function PaidRecord(ip: Addr, m: nat): ClientRecord
    requires m <= 10
  {
    if ip == SENDER then ClientRecord(ip, 100000 - m, m)
    else if ip == RECEIVER then ClientRecord(ip, 100000 + m, 0)
    else NewClient(ip)
  }

  ghost predicate Paid(l: Ledger, m: nat)
    requires m <= 10
  {
    && (forall ip :: ip in l.records <==> ip in Order(CLIENTS))
    && (forall ip :: ip in l.records ==> l.records[ip] == PaidRecord(ip, m))
    && l.totalBalance == 4800000 && l.totalTransferred == m && l.numTransactions == m
  }

  lemma TwoKnown()
    ensures SENDER in Order(CLIENTS) && RECEIVER in Order(CLIENTS) && SENDER != RECEIVER
  {
    assert Order(CLIENTS)[47] == SENDER && Order(CLIENTS)[0] == RECEIVER;
    ClientsApart(0, 47);
  }

  lemma PaysOnce(l: Ledger, m: nat)
    requires m < 10 && Paid(l, m)
    ensures var h := HandleRequest(l, SENDER, ReqPacket(m + 1, RECEIVER, 1));
            && Paid(h.ledger, m + 1) && h.reply.value.result == "SUCCESS"
            && h.update == Some(h.ledger)
  {
    TwoKnown();
    StatusInRange(m + 1, l.records[SENDER]);
    PaysOnceValid(l, m);
  }

  lemma PaysOnceValid(l: Ledger, m: nat)
    requires m < 10 && Paid(l, m) && SENDER in l.records && RECEIVER in l.records && SENDER != RECEIVER
    ensures var out := Transacted(l, SENDER, RECEIVER, 1);
            Paid(out.ledger, m + 1) && out.response.status == SUCCESS
  {
    assert ToU32(m + 1) == m + 1 && ToU64(100000 + m + 1) == 100000 + m + 1;
    ToI32Fits(m + 1);
  }

  lemma {:induction false} BusyPaid(m: nat)
    requires m <= 10
    ensures Paid(Busy(m), m)
  {
    if m == 0 {
      BusyStart();
    } else {
      BusyPaid(m - 1);
      BusyNext(Busy(m - 1), m);
    }
  }

  lemma BusyStart()
    ensures Paid(Busy(0), 0)
  {
    CrowdFresh(CLIENTS);
    TwoKnown();
  }

  lemma BusyNext(l: Ledger, m: nat)
    requires 0 < m <= 10 && Paid(l, m - 1)
    ensures Paid(HandleRequest(l, SENDER, ReqPacket(m, RECEIVER, 1)).ledger, m)
  {
    PaysOnce(l, m - 1);
  }

  // ---------------------------------------------------------------------------
  // Its length
  // ---------------------------------------------------------------------------

  lemma {:induction false} DecExactly(n: nat, k: nat)
    requires k > 0 && n < Pow10(k) && (k > 1 ==> Pow10(k - 1) <= n)
    ensures |Dec(n)| == k
  {
    if k > 1 {
      DecExactly(n / 10, k - 1);
    }
  }

  lemma Powers()
    ensures Pow10(1) == 10 && Pow10(2) == 100 && Pow10(3) == 1000 && Pow10(4) == 10000
    ensures Pow10(5) == 100000 && Pow10(6) == 1000000 && Pow10(7) == 10000000
  {
    assert Pow10(0) == 1;
  }

  lemma QuadLength(a: Addr, d0: nat, d1: nat, d2: nat, d3: nat)
    requires |Dec(a % 256)| == d0 && |Dec(a / 256 % 256)| == d1
    requires |Dec(a / 65536 % 256)| == d2 && |Dec(a / 16777216)| == d3
    ensures |Quad(a)| == d0 + d1 + d2 + d3 + 3
  {
  }

  lemma ClientLength(k: nat)
    requires k < CLIENTS
    ensures |Quad(Client(k))| == if k < 47 then 9 else 13
  {
    Powers();
    var a := Client(k);
    if k < 47 {
      assert a % 256 == 10 && a / 256 % 256 == 0 && a / 65536 % 256 == 0 && a / 16777216 == 10 + k;
      DecExactly(10, 2);
      DecExactly(0, 1);
      DecExactly(10 + k, 2);
      QuadLength(a, 2, 1, 1, 2);
    } else {
      assert a % 256 == 100 && a / 256 % 256 == 100 && a / 65536 % 256 == 10 && a / 16777216 == 10;
      DecExactly(100, 3);
      DecExactly(10, 2);
      QuadLength(a, 3, 3, 2, 2);
    }
  }

  lemma RecordLengthExactly(r: ClientRecord, q: nat, b: nat, n: nat)
    requires |Quad(r.ip)| == q && |Dec(r.balance)| == b && |Dec(r.lastRequest)| == n
    ensures |RecordText(r)| == q + b + n + 4
  {
  }

  lemma OneRecord(l: Ledger, k: nat)
    requires Paid(l, 10) && k < 47 && Client(k) in l.records
    ensures |RecordText(l.records[Client(k)])| == 20
  {
    Powers();
    ClientsApart(k, 47);
    ClientLength(k);
    var r := l.records[Client(k)];
    assert r.ip == Client(k) && 100000 <= r.balance <= 100010 && r.lastRequest == 0;
    DecExactly(r.balance, 6);
    DecExactly(0, 1);
    RecordLengthExactly(r, 9, 6, 1);
  }

  lemma HeaderLengthExactly(l: Ledger)
    requires Paid(l, 10)
    ensures |HeaderText(l)| == 15
  {
    Powers();
    DecExactly(10, 2);
    DecExactly(4800000, 7);
    assert DecInt(10) == Dec(10) && DecInt(4800000) == Dec(4800000);
    ThreeFields(DecInt(l.numTransactions), Dec(l.totalTransferred), DecInt(l.totalBalance));
  }

  lemma ThreeFields(a: string, b: string, c: string)
    ensures |a + " " + b + " " + c + " " + "#"| == |a| + |b| + |c| + 4
  {
  }

  lemma {:induction false} BodyLengthExactly(l: Ledger, n: nat)
    requires Paid(l, 10) && n <= 47 && forall ip :: ip in Order(n) ==> ip in l.records
    ensures |BodyText(l, Order(n))| == 15 + 21 * n
  {
    if n == 0 {
      HeaderLengthExactly(l);
    } else {
      NextInOrder(n);
      assert Order(n)[..n - 1] == Order(n - 1);
      BodyLengthExactly(l, n - 1);
      OneRecord(l, n - 1);
    }
  }

  lemma AllListed(l: Ledger, n: nat)
    requires Paid(l, 10) && n <= CLIENTS
    ensures forall ip :: ip in Order(n) ==> ip in l.records
  {
    forall ip | ip in Order(n) ensures ip in Order(CLIENTS) {
      var k :| 0 <= k < n && Order(n)[k] == ip;
      assert Order(CLIENTS)[k] == ip;
    }
  }

  /** The receiver's read ends after the first digit of the last number, which is 10. */
  lemma CutAfterOneDigit(l: Ledger)
    requires Paid(l, 10) && forall ip :: ip in Order(CLIENTS) ==> ip in l.records
    ensures |Head(l, Order(CLIENTS))| == 1022
    ensures Last(l, Order(CLIENTS)) == ClientRecord(SENDER, 99990, 10) && |Dec(10)| == 2
  {
    Powers();
    AllListed(l, 47);
    NextInOrder(CLIENTS);
    assert Order(CLIENTS)[..47] == Order(47);
    BodyLengthExactly(l, 47);
    ClientLength(47);
    TwoKnown();
    DecExactly(99990, 5);
    DecExactly(10, 2);
  }

  lemma OneDigit(number: nat)
    requires Dec(number) == Dec(10)[..1]
    ensures number == 1
  {
    ValueOfDec(number);
    ValueOfDec(1);
    assert Dec(10) == Dec(1) + Dec(0);
    assert Dec(10)[..1] == Dec(1);
  }

  /** What the receiver takes the snapshot for. */
  function Misread(l: Ledger): Ledger
    requires SENDER in l.records
  {
    l.(records := l.records[SENDER := l.records[SENDER].(lastRequest := 1)])
  }

  /** The snapshot of 48 clients, reached by 48 registrations and ten payments, is one character too long: the receiver
      loads, without an error, a ledger in which the last client has made one request instead of ten. */
  lemma ReadWrong(l: Ledger)
    requires Paid(l, 10)
    ensures Enumerates(Order(CLIENTS), l.records.Keys)
    ensures SENDER in l.records && Misread(l) != l
    ensures |SnapshotText(l, Order(CLIENTS))| == MAXLINE + 4
    ensures ParseSnapshot(Received(SnapshotText(l, Order(CLIENTS)))) == Ok(Misread(l))
  {
    var order := Order(CLIENTS);
    TwoKnown();
    OrderEnumerates(CLIENTS, l.records.Keys);
    CutAfterOneDigit(l);
    Parts(l, order);
    var number := CutNumber(l, order, 1);
    OneDigit(number);
    assert Lowered(l, order, number) == Misread(l);
    assert Portable(Misread(l));
    CutText(Head(l, order), Dec(10), SnapshotText(l, order));
  }

  lemma CutText(head: string, d: string, text: string)
    requires |head| == 1022 && |d| == 2 && text == head + " " + d + " " + ";" + " "
    ensures |text| == MAXLINE + 4 && Received(text) == head + " " + d[..1]
  {
  }

  // ---------------------------------------------------------------------------
  // The take-over
  // ---------------------------------------------------------------------------

  ghost predicate Reachable(c: Cluster) {
    exists states, events :: Run(states, events) && states[|events|] == c
  }

  lemma Begins(server: Addr)
    ensures Reachable(Start(server))
  {
    assert Run([Start(server)], []);
  }

  lemma GoesOn(c: Cluster, e: Event)
    requires Reachable(c) && Possible(c, e)
    ensures Reachable(Step(c, e))
  {
    var states, events :| Run(states, events) && states[|events|] == c;
    LongerRun(states, events, e, Step(c, e));
    assert (states + [Step(c, e)])[|events + [e]|] == Step(c, e);
  }

  lemma LongerRun(states: seq<Cluster>, events: seq<Event>, e: Event, next: Cluster)
    requires Run(states, events) && Possible(states[|events|], e) && next == Step(states[|events|], e)
    ensures Run(states + [next], events + [e])
  {
    var states', events' := states + [next], events + [e];
    assert states'[0] == states[0];
    forall i | 0 <= i < |events'|
      ensures Possible(states'[i], events'[i]) && states'[i + 1] == Step(states'[i], events'[i])
    {
      RunAt(states, events, e, next, i);
    }
  }

  lemma RunAt(states: seq<Cluster>, events: seq<Event>, e: Event, next: Cluster, i: nat)
    requires Run(states, events) && Possible(states[|events|], e) && next == Step(states[|events|], e) && i <= |events|
    ensures var states', events' := states + [next], events + [e];
            Possible(states'[i], events'[i]) && states'[i + 1] == Step(states'[i], events'[i])
  {
    var states', events' := states + [next], events + [e];
    if i < |events| {
      assert states'[i] == states[i] && states'[i + 1] == states[i + 1] && events'[i] == events[i];
    } else {
      assert states'[i] == states[i] && states'[i + 1] == next && events'[i] == e;
    }
  }

  const FIRST: Addr := 1
  const SECOND: Addr := 2

  /** One server by itself. */
  function Solo(l: Ledger, h: History): Cluster {
    Cluster(map[FIRST := l], map[FIRST := []], FIRST, h)
  }

  lemma SoloServes(l: Ledger, h: History, d: Datagram, order: seq<Addr>)
    requires Reachable(Solo(l, h))
    requires Handle(l, d).update == Some(Handle(l, d).ledger) && Enumerates(order, Handle(l, d).ledger.records.Keys)
    ensures Reachable(Solo(Handle(l, d).ledger, Noted(h, l, d)))
  {
    GoesOn(Solo(l, h), Serve(d, order));
    SoloStep(l, h, d, order);
  }

  lemma SoloStep(l: Ledger, h: History, d: Datagram, order: seq<Addr>)
    requires Handle(l, d).update == Some(Handle(l, d).ledger) && Enumerates(order, Handle(l, d).ledger.records.Keys)
    ensures Step(Solo(l, h), Serve(d, order)) == Solo(Handle(l, d).ledger, Noted(h, l, d))
  {
    var c := Solo(l, h);
    assert Leading(c) == l;
    SoloSends(Solo(Handle(l, d).ledger, Noted(h, l, d)), Received(SnapshotText(Handle(l, d).ledger, order)));
  }

  lemma SoloSends(c: Cluster, text: string)
    requires c.inboxes == map[FIRST := []] && c.coordinator == FIRST
    ensures Sent(c, text) == c
  {
  }

  lemma {:induction false} CrowdReachable(n: nat) returns (h: History)
    requires n <= ALL
    ensures Reachable(Solo(Crowd(n), h)) && h.debits == [] && h.registrations == n && h.withdrawn == 0
  {
    if n == 0 {
      Begins(FIRST);
      h := History(map[], [], 0, 0);
      assert Start(FIRST) == Solo(EMPTY, h);
    } else {
      var before := CrowdReachable(n - 1);
      NotedRegistration(before, n);
      CrowdFresh(n);
      OrderEnumerates(n, Crowd(n).records.Keys);
      var d := Discovery(Client(n - 1));
      SoloServes(Crowd(n - 1), before, d, Order(n));
      h := Noted(before, Crowd(n - 1), d);
    }
  }

  lemma NotedRegistration(h: History, n: nat)
    requires 0 < n <= ALL
    ensures var h' := Noted(h, Crowd(n - 1), Discovery(Client(n - 1)));
            h'.debits == h.debits && h'.registrations == h.registrations + 1 && h'.withdrawn == h.withdrawn
  {
    CrowdFresh(n - 1);
    NextInOrder(n);
  }

  /** The numbers of the payments so far are 1 to `m`, all of one registration. */
  ghost predicate PaidUpTo(h: History, m: nat) {
    |h.debits| == m && forall k :: 0 <= k < m ==>
      h.debits[k].client == SENDER && h.debits[k].epoch == Epoch(h, SENDER) && h.debits[k].seqNum == k + 1
  }

  lemma {:induction false} BusyReachable(m: nat) returns (h: History)
    requires m <= 10
    ensures Reachable(Solo(Busy(m), h)) && PaidUpTo(h, m)
  {
    if m == 0 {
      h := CrowdReachable(CLIENTS);
    } else {
      var before := BusyReachable(m - 1);
      BusyPaid(m - 1);
      h := BusyGoesOn(Busy(m - 1), before, m);
    }
  }

  lemma BusyGoesOn(l: Ledger, before: History, m: nat) returns (h: History)
    requires 0 < m <= 10 && Paid(l, m - 1) && Reachable(Solo(l, before)) && PaidUpTo(before, m - 1)
    ensures Reachable(Solo(HandleRequest(l, SENDER, ReqPacket(m, RECEIVER, 1)).ledger, h)) && PaidUpTo(h, m)
  {
    var d := Request(SENDER, ReqPacket(m, RECEIVER, 1));
    PaysOnce(l, m - 1);
    OrderEnumerates(CLIENTS, Handle(l, d).ledger.records.Keys);
    SoloServes(l, before, d, Order(CLIENTS));
    h := Noted(before, l, d);
    NotedPayment(before, l, m);
  }

  lemma NotedPayment(h: History, l: Ledger, m: nat)
    requires 0 < m <= 10 && PaidUpTo(h, m - 1)
    requires HandleRequest(l, SENDER, ReqPacket(m, RECEIVER, 1)).reply.value.result == "SUCCESS"
    ensures PaidUpTo(Noted(h, l, Request(SENDER, ReqPacket(m, RECEIVER, 1))), m)
  {
  }

  /** A second server joins and is sent the snapshot. */
  lemma SecondJoins(l: Ledger, h: History)
    requires Reachable(Solo(l, h)) && Paid(l, 10)
    ensures SENDER in l.records
    ensures Reachable(Cluster(map[FIRST := l, SECOND := Misread(l)], map[FIRST := [], SECOND := []], FIRST, h))
  {
    ReadWrong(l);
    JoinSends(l, h, Order(CLIENTS));
    DeliveryLoads(l, h, Received(SnapshotText(l, Order(CLIENTS))), Misread(l));
  }

  /** The second server is there, with a text still to read. */
  function Waiting(l: Ledger, h: History, text: string): Cluster {
    Cluster(map[FIRST := l, SECOND := EMPTY], map[FIRST := [], SECOND := [text]], FIRST, h)
  }

  lemma JoinSends(l: Ledger, h: History, order: seq<Addr>)
    requires Reachable(Solo(l, h)) && Enumerates(order, l.records.Keys)
    ensures Reachable(Waiting(l, h, Received(SnapshotText(l, order))))
  {
    var c := Solo(l, h);
    assert Leading(c) == l;
    GoesOn(c, Join(SECOND, order));
    JoinedInbox(l, h, Received(SnapshotText(l, order)));
    assert Step(c, Join(SECOND, order)) == Waiting(l, h, Received(SnapshotText(l, order)));
  }

  lemma JoinedInbox(l: Ledger, h: History, text: string)
    ensures var c := Solo(l, h);
            Sent(c.(ledgers := c.ledgers[SECOND := EMPTY], inboxes := c.inboxes[SECOND := []]), text) ==
            Waiting(l, h, text)
  {
    var c := Solo(l, h);
    var sent := Sent(c.(ledgers := c.ledgers[SECOND := EMPTY], inboxes := c.inboxes[SECOND := []]), text);
    assert sent.ledgers == Waiting(l, h, text).ledgers;
    assert sent.inboxes[SECOND] == [text];
    assert sent.inboxes == Waiting(l, h, text).inboxes;
  }

  lemma DeliveryLoads(l: Ledger, h: History, text: string, read: Ledger)
    requires Reachable(Waiting(l, h, text)) && ParseSnapshot(text) == Ok(read)
    ensures Reachable(Cluster(map[FIRST := l, SECOND := read], map[FIRST := [], SECOND := []], FIRST, h))
  {
    var c := Waiting(l, h, text);
    GoesOn(c, Deliver(SECOND));
    assert c.inboxes[SECOND][0] == text && c.inboxes[SECOND][1..] == [];
    assert c.ledgers[SECOND := read] == map[FIRST := l, SECOND := read];
    assert c.inboxes[SECOND := []] == map[FIRST := [], SECOND := []];
  }

  /** The first server crashes and the second takes its place. */
  lemma SecondLeads(l: Ledger, wrong: Ledger, h: History)
    requires Reachable(Cluster(map[FIRST := l, SECOND := wrong], map[FIRST := [], SECOND := []], FIRST, h))
    ensures Reachable(Cluster(map[SECOND := wrong], map[SECOND := []], SECOND, h))
  {
    var c := Cluster(map[FIRST := l, SECOND := wrong], map[FIRST := [], SECOND := []], FIRST, h);
    GoesOn(c, CoordinatorFails(SECOND));
    assert c.ledgers - {FIRST} == map[SECOND := wrong] && c.inboxes - {FIRST} == map[SECOND := []];
  }

  lemma PaysAgain(l: Ledger)
    requires Paid(l, 10) && SENDER in l.records
    ensures var h := HandleRequest(Misread(l), SENDER, ReqPacket(2, RECEIVER, 1));
            && h.reply.value.result == "SUCCESS" && h.update == Some(h.ledger)
            && h.ledger.records.Keys == l.records.Keys
  {
    TwoKnown();
    StatusInRange(2, Misread(l).records[SENDER]);
  }

  /** The second request of the client is paid by the first server, and again by the second. */
  lemma PaidTwiceAfterTakeOver() returns (c: Cluster, j: nat, k: nat)
    ensures Reachable(c) && j < k < |c.history.debits|
    ensures var debits := c.history.debits;
            && debits[j].client == debits[k].client && debits[j].epoch == debits[k].epoch
            && debits[j].seqNum == debits[k].seqNum
  {
    var h := BusyReachable(10);
    var l := Busy(10);
    BusyPaid(10);
    SecondJoins(l, h);
    SecondLeads(l, Misread(l), h);
    var led := Cluster(map[SECOND := Misread(l)], map[SECOND := []], SECOND, h);
    var d, order := Request(SENDER, ReqPacket(2, RECEIVER, 1)), Order(CLIENTS);
    PaysAgain(l);
    OrderEnumerates(CLIENTS, l.records.Keys);
    assert Leading(led) == Misread(l);
    GoesOn(led, Serve(d, order));
    c, j, k := Step(led, Serve(d, order)), 1, 10;
    assert c.history == Noted(h, Misread(l), d);
    NotedAgain(h, Misread(l));
  }

  lemma NotedAgain(h: History, l: Ledger)
    requires PaidUpTo(h, 10) && HandleRequest(l, SENDER, ReqPacket(2, RECEIVER, 1)).reply.value.result == "SUCCESS"
    ensures var debits := Noted(h, l, Request(SENDER, ReqPacket(2, RECEIVER, 1))).debits;
            && |debits| == 11 && debits[1].client == debits[10].client && debits[1].epoch == debits[10].epoch
            && debits[1].seqNum == debits[10].seqNum == 2
  {
  }
}
