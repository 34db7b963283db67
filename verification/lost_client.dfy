/** What a snapshot that is too long by one record can cost: a client, and its money. */
module LostClient {
  import opened Wrappers
  import opened Text
  import opened Ledgers
  import opened Snapshots
  import opened Cuts
  import opened Replication
  import opened Overlong

  lemma {:induction false} CrowdMoney(n: nat)
    requires n <= ALL
    ensures Money(Crowd(n)) == 100000 * n
  {
    if n == 0 {
      assert Money(EMPTY) == 0;
    } else {
      CrowdMoney(n - 1);
      CrowdFresh(n - 1);
      NextInOrder(n);
      MoneyWith(Crowd(n - 1).records, Client(n - 1), NewClient(Client(n - 1)));
    }
  }

  // ---------------------------------------------------------------------------
  // Where the read stops
  // ---------------------------------------------------------------------------

  lemma FreshRecord(k: nat)
    requires k < CLIENTS
    ensures |RecordText(NewClient(Client(k)))| == if k < 47 then 20 else 24
  {
    Powers();
    ClientLength(k);
    DecExactly(100000, 6);
    DecExactly(0, 1);
    RecordLengthExactly(NewClient(Client(k)), if k < 47 then 9 else 13, 6, 1);
  }

  lemma FreshHeader(l: Ledger)
    requires Overlong.Fresh(l, ALL)
    ensures |HeaderText(l)| == 13
  {
    Powers();
    DecExactly(0, 1);
    DecExactly(4900000, 7);
    assert DecInt(0) == Dec(0) && DecInt(4900000) == Dec(4900000);
    ThreeFields(DecInt(l.numTransactions), Dec(l.totalTransferred), DecInt(l.totalBalance));
  }

  lemma FreshListed(l: Ledger, n: nat)
    requires Overlong.Fresh(l, ALL) && n <= ALL
    ensures forall ip :: ip in Order(n) ==> ip in l.records
  {
    forall ip | ip in Order(n) ensures ip in Order(ALL) {
      var k :| 0 <= k < n && Order(n)[k] == ip;
      assert Order(ALL)[k] == ip;
    }
  }

  lemma {:induction false} FreshBody(l: Ledger, n: nat)
    requires Overlong.Fresh(l, ALL) && n <= CLIENTS && forall ip :: ip in Order(n) ==> ip in l.records
    ensures |BodyText(l, Order(n))| == 13 + 21 * n + (if n == CLIENTS then 4 else 0)
  {
    if n == 0 {
      FreshHeader(l);
    } else {
      NextInOrder(n);
      assert Order(n)[..n - 1] == Order(n - 1);
      FreshBody(l, n - 1);
      assert l.records[Client(n - 1)] == NewClient(Client(n - 1));
      FreshRecord(n - 1);
    }
  }

  /** The read takes the first 48 records whole, but for a separator, and nothing of the last one. */
  lemma ReadStops(l: Ledger)
    requires Overlong.Fresh(l, ALL) && forall ip :: ip in Order(ALL) ==> ip in l.records
    ensures Cut(l, Order(ALL)) == MAXLINE && BehindRecord(l, Order(ALL), CLIENTS, MAXLINE)
  {
    var order := Order(ALL);
    FreshListed(l, CLIENTS);
    assert order[..CLIENTS] == Order(CLIENTS);
    FreshBody(l, CLIENTS);
    assert |Upto(l, order, CLIENTS)| == 1025;
    Lengths(l, order, ALL);
    ReceivedIsCut(l, order);
    assert order[..ALL] == order;
  }

  /** The snapshot of 49 clients that have just registered is loaded, without an error, as one of 48. */
  lemma LoadedWithoutLast(l: Ledger)
    requires Overlong.Fresh(l, ALL)
    ensures Enumerates(Order(ALL), l.records.Keys)
    ensures ParseSnapshot(Received(SnapshotText(l, Order(ALL)))) == Ok(Firsts(l, Order(ALL), CLIENTS))
    ensures Money(l) == Money(Firsts(l, Order(ALL), CLIENTS)) + 100000
  {
    var order := Order(ALL);
    FreshListed(l, ALL);
    OrderEnumerates(ALL, l.records.Keys);
    ReadStops(l);
    ReceivedIsCut(l, order);
    BehindReads(l, order, CLIENTS, MAXLINE);
    FirstsPortable(l, order, CLIENTS);
    MoneyOfFirsts(l, order, CLIENTS);
    assert BalancesFrom(l, order, ALL) == 0;
    assert l.records[order[48]] == NewClient(order[48]);
  }

  // ---------------------------------------------------------------------------
  // The take-over
  // ---------------------------------------------------------------------------

  /** 49 clients register, a server joins and is sent the snapshot, and the coordinator crashes: 100000 are gone. */
  lemma MoneyLostAfterTakeOver() returns (c: Cluster)
    ensures Reachable(c) && c.history.registrations == 49 <= MANY && c.history.withdrawn == 0
    ensures Money(Leading(c)) + 100000 == STARTING_BALANCE * c.history.registrations
  {
    var h := CrowdReachable(ALL);
    var l := Crowd(ALL);
    CrowdFresh(ALL);
    CrowdMoney(ALL);
    LoadedWithoutLast(l);
    var l' := Firsts(l, Order(ALL), CLIENTS);
    JoinSends(l, h, Order(ALL));
    DeliveryLoads(l, h, Received(SnapshotText(l, Order(ALL))), l');
    SecondLeads(l, l', h);
    c := Cluster(map[SECOND := l'], map[SECOND := []], SECOND, h);
  }
}
