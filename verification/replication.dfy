/** The coordinator's snapshots, the backups that follow them, and what is left when a backup takes over. */
module Replication {
  import opened MachineInts
  import opened Wrappers
  import opened Text
  import opened Ledgers
  import opened Snapshots
  import opened Truncation
  import opened DbManagers
  import opened Requests

  // ---------------------------------------------------------------------------
  // Sending and listening
  // ---------------------------------------------------------------------------

  method BroadcastUpdate(snapshot: Ledger, order: seq<Addr>) returns (text: string)
    requires Enumerates(order, snapshot.records.Keys)
    ensures text == SnapshotText(snapshot, order)
  {
    text := ToString(snapshot, order);
  }

  /** A datagram at the listener: who sent it, and its text. */
  datatype Update = Update(source: Addr, text: string)

  /** The database after a series of datagrams, unless one of them ends the process with an error. */
  function Followed(l: Ledger, self: Addr, updates: seq<Update>): Result<Ledger, ParseError>
    decreases |updates|
  {
    if updates == [] then Ok(l)
    else if updates[0].source == self then Followed(l, self, updates[1..])
    else
      var next :- ParseSnapshot(Received(updates[0].text));
      Followed(next, self, updates[1..])
  }

  method ListenForUpdates(db: DbManager, self: Addr, updates: seq<Update>) returns (r: Result<Ledger, ParseError>)
    requires db.Valid()
    modifies db
    ensures db.Valid()
    ensures r == Followed(old(db.Contents()), self, updates)
    ensures r.Ok? ==> db.Contents() == r.value
  {
    var i := 0;
    while i < |updates|
      invariant 0 <= i <= |updates| && db.Valid()
      invariant Followed(old(db.Contents()), self, updates) == Followed(db.Contents(), self, updates[i..])
    {
      assert updates[i..][1..] == updates[i + 1..];
      if updates[i].source != self {
        var snapshot :- FromString(Received(updates[i].text));
        db.LoadSnapshot(snapshot);
      }
      i := i + 1;
    }
    return Ok(db.Contents());
  }

  /** A listener takes a snapshot over as it was sent exactly when the snapshot is portable and not too long. */
  lemma FollowedExactly(before: Ledger, l: Ledger, order: seq<Addr>, source: Addr, self: Addr)
    requires Keyed(l) && Enumerates(order, l.records.Keys) && source != self
    ensures Followed(before, self, [Update(source, SnapshotText(l, order))]) == Ok(l) <==>
            Portable(l) && |SnapshotText(l, order)| <= MAXLINE + 3
  {
    ReceivedExactly(l, order);
    FollowedOne(before, self, Update(source, SnapshotText(l, order)));
  }

  lemma FollowedOne(before: Ledger, self: Addr, update: Update)
    requires update.source != self
    ensures Followed(before, self, [update]) == ParseSnapshot(Received(update.text))
  {
    assert [update][1..] == [];
  }

  // ---------------------------------------------------------------------------
  // The cluster
  // ---------------------------------------------------------------------------

  /** A transfer that was paid: by which registration of which client, under which packet number, as which request
      of that registration. */
  datatype Debit = Debit(client: Addr, epoch: nat, seqNum: I64, number: nat)

  /** What happened since the beginning, on whatever server it happened. */
  datatype History = History(epochs: map<Addr, nat>, debits: seq<Debit>, registrations: nat, withdrawn: nat)

  /** The databases of the live servers, and the snapshots under way to each, oldest first. */
  datatype Cluster = Cluster(
    ledgers: map<Addr, Ledger>,
    inboxes: map<Addr, seq<string>>,
    coordinator: Addr,
    history: History)

  function Start(server: Addr): Cluster {
    Cluster(map[server := EMPTY], map[server := []], server, History(map[], [], 0, 0))
  }

  datatype Event =
    | Serve(d: Datagram, order: seq<Addr>)
    | Refresh(order: seq<Addr>)
    | Deliver(server: Addr)
    | Join(server: Addr, order: seq<Addr>)
    | BackupFails(server: Addr)
    | CoordinatorFails(successor: Addr)
    | HandOver(successor: Addr)

  function Epoch(h: History, client: Addr): nat {
    if client in h.epochs then h.epochs[client] else 0
  }

  function Noted(h: History, l: Ledger, d: Datagram): History {
    match d
    case Request(sender, p) =>
      var out := HandleRequest(l, sender, p);
      if out.reply.value.result == "SUCCESS" then
        h.(debits := h.debits + [Debit(sender, Epoch(h, sender), p.seqNum, RecordOf(out.ledger, sender).lastRequest)])
      else h
    case Kill(sender) =>
      if sender in l.records then h.(withdrawn := h.withdrawn + l.records[sender].balance) else h
    case Discovery(sender) =>
      if sender in l.records then h
      else h.(registrations := h.registrations + 1, epochs := h.epochs[sender := Epoch(h, sender) + 1])
  }

  /** A snapshot on its way to everybody but its sender. */
  function Sent(c: Cluster, text: string): Cluster {
    c.(inboxes := map s | s in c.inboxes :: if s == c.coordinator then c.inboxes[s] else c.inboxes[s] + [text])
  }

  function Broadcast(c: Cluster, l: Ledger, order: seq<Addr>): Cluster
    requires forall ip :: ip in order ==> ip in l.records
  {
    Sent(c, Received(SnapshotText(l, order)))
  }

  /** Short enough to be read without losing more than the last separator. */
  predicate Short(l: Ledger, order: seq<Addr>)
    requires forall ip :: ip in order ==> ip in l.records
  {
    |SnapshotText(l, order)| <= MAXLINE + 3
  }

  ghost predicate Sendable(l: Ledger, order: seq<Addr>) {
    Enumerates(order, l.records.Keys) && Short(l, order)
  }

  function Leading(c: Cluster): Ledger {
    if c.coordinator in c.ledgers then c.ledgers[c.coordinator] else EMPTY
  }

  /** Clients address the coordinator, and who takes over has read all that was sent to it. */
  ghost predicate Possible(c: Cluster, e: Event) {
    match e
    case Serve(d, order) =>
      var h := Handle(Leading(c), d);
      h.update.Some? ==> Enumerates(order, h.ledger.records.Keys)
    case Refresh(order) => Enumerates(order, Leading(c).records.Keys)
    case Deliver(server) => server in c.inboxes && c.inboxes[server] != []
    case Join(server, order) => server !in c.ledgers && Enumerates(order, Leading(c).records.Keys)
    case BackupFails(server) => server in c.ledgers && server != c.coordinator
    case CoordinatorFails(successor) => TakesOver(c, successor)
    case HandOver(successor) => TakesOver(c, successor)
  }

  /** What the event broadcasts can be read back: numbers that fit an `int`, in a text that is short enough. */
  ghost predicate Readable(c: Cluster, e: Event)
    requires Possible(c, e)
  {
    match e
    case Serve(d, order) =>
      var h := Handle(Leading(c), d);
      Portable(h.ledger) && (h.update.Some? ==> Short(h.ledger, order))
    case Refresh(order) => Short(Leading(c), order)
    case Join(_, order) => Short(Leading(c), order)
    case _ => true
  }

  ghost predicate Enabled(c: Cluster, e: Event) {
    Possible(c, e) && Readable(c, e)
  }

  ghost predicate TakesOver(c: Cluster, successor: Addr) {
    successor in c.ledgers && successor != c.coordinator && successor in c.inboxes && c.inboxes[successor] == []
  }

  function Without(c: Cluster, server: Addr): Cluster {
    c.(ledgers := c.ledgers - {server}, inboxes := c.inboxes - {server})
  }

  function Step(c: Cluster, e: Event): Cluster
    requires Possible(c, e)
  {
    match e
    case Serve(d, order) =>
      var l := Leading(c);
      var h := Handle(l, d);
      var c' := c.(ledgers := c.ledgers[c.coordinator := h.ledger], history := Noted(c.history, l, d));
      if h.update.Some? then Broadcast(c', h.ledger, order) else c'
    case Refresh(order) => Broadcast(c, Leading(c), order)
    case Deliver(server) =>
      var text := c.inboxes[server][0];
      var read := ParseSnapshot(text);
      if read.Err? then Without(c, server)
      else c.(ledgers := c.ledgers[server := read.value], inboxes := c.inboxes[server := c.inboxes[server][1..]])
    case Join(server, order) =>
      Broadcast(c.(ledgers := c.ledgers[server := EMPTY], inboxes := c.inboxes[server := []]), Leading(c), order)
    case BackupFails(server) => Without(c, server)
    case CoordinatorFails(successor) => Without(c, c.coordinator).(coordinator := successor)
    case HandOver(successor) => c.(coordinator := successor)
  }

  // ---------------------------------------------------------------------------
  // What every step keeps
  // ---------------------------------------------------------------------------

  /** Same members, same money, same totals; only the number of the last request may differ. */
  ghost predicate Agree(a: Ledger, b: Ledger) {
    && a.records.Keys == b.records.Keys
    && (forall ip :: ip in a.records ==> a.records[ip].balance == b.records[ip].balance)
    && a.totalBalance == b.totalBalance && a.totalTransferred == b.totalTransferred
    && a.numTransactions == b.numTransactions
  }

  /** No debit is ahead of the ledger: a ledger that has the client knows all requests of this registration that
      were paid. */
  ghost predicate Covers(l: Ledger, h: History) {
    forall k :: 0 <= k < |h.debits| ==>
      var d := h.debits[k];
      d.epoch <= Epoch(h, d.client) &&
      (d.epoch == Epoch(h, d.client) && d.client in l.records ==> d.number <= l.records[d.client].lastRequest)
  }

  /** A later debit of the same registration is for a later request. */
  predicate Apart(earlier: Debit, later: Debit) {
    earlier.client == later.client && earlier.epoch == later.epoch ==> earlier.number < later.number
  }

  ghost predicate DebitsApart(h: History) {
    && (forall k :: 0 <= k < |h.debits| ==>
         h.debits[k].number < TWO31 && Congruent(h.debits[k].seqNum, h.debits[k].number))
    && (forall j, k :: 0 <= j < k < |h.debits| ==> Apart(h.debits[j], h.debits[k]))
  }

  /** More registrations than this, and a balance could wrap. */
  const MANY := 184467440737095

  /** The ledger has what was registered, but for what was withdrawn and what was lost. */
  ghost predicate BalancedBut(l: Ledger, h: History, lost: nat) {
    h.registrations <= MANY ==> Money(l) + h.withdrawn + lost == STARTING_BALANCE * h.registrations
  }

  ghost predicate Balanced(l: Ledger, h: History) {
    BalancedBut(l, h, 0)
  }

  /** What a server will hold when it has read all that is under way to it. */
  function View(c: Cluster, server: Addr): Ledger
    requires server in c.ledgers && server in c.inboxes
  {
    var inbox := c.inboxes[server];
    if inbox == [] then c.ledgers[server]
    else
      var read := ParseSnapshot(inbox[|inbox| - 1]);
      if read.Ok? then read.value else c.ledgers[server]
  }

  ghost predicate Good(l: Ledger, h: History) {
    Keyed(l) && Portable(l) && Covers(l, h)
  }

  ghost predicate Shaped(c: Cluster) {
    && c.inboxes.Keys == c.ledgers.Keys
    && c.coordinator in c.ledgers && c.inboxes[c.coordinator] == []
    && forall s, i :: s in c.inboxes && 0 <= i < |c.inboxes[s]| ==> ParseSnapshot(c.inboxes[s][i]).Ok?
  }

  ghost predicate Inv(c: Cluster) {
    && Shaped(c)
    && DebitsApart(c.history) && Balanced(Leading(c), c.history)
    && Good(Leading(c), c.history)
    && forall s :: s in c.ledgers ==> Good(View(c, s), c.history) && Agree(Leading(c), View(c, s))
  }
}
