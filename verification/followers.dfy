/** What a server that only listens holds: over any run, it is what the listening loop makes of the broadcasts since it
    joined. */
module Followers {
  import opened MachineInts
  import opened Wrappers
  import opened Text
  import opened Ledgers
  import opened Snapshots
  import opened Requests
  import opened Replication
  import opened Failover

  // ---------------------------------------------------------------------------
  // The listening loop
  // ---------------------------------------------------------------------------

  /** What one more datagram makes of what was held. */
  function HeardAlso(held: Result<Ledger, ParseError>, self: Addr, u: Update): Result<Ledger, ParseError> {
    if held.Err? || u.source == self then held else ParseSnapshot(Received(u.text))
  }

  /** Each datagram of another server replaces everything, whatever came before, unless the listener has ended. */
  lemma {:induction false} FollowedAlso(l: Ledger, self: Addr, us: seq<Update>, u: Update)
    ensures Followed(l, self, us + [u]) == HeardAlso(Followed(l, self, us), self, u)
    decreases |us|
  {
    if us == [] {
      assert [u][1..] == [];
    } else {
      assert (us + [u])[1..] == us[1..] + [u];
      if us[0].source == self {
        FollowedAlso(l, self, us[1..], u);
      } else {
        var next := ParseSnapshot(Received(us[0].text));
        if next.Ok? {
          FollowedAlso(next.value, self, us[1..], u);
        }
      }
    }
  }

  /** The datagram at place `k` is the last one of another server. */
  ghost predicate LastForeignAt(self: Addr, us: seq<Update>, k: nat) {
    k < |us| && us[k].source != self && forall j :: k < j < |us| ==> us[j].source == self
  }

  /** A listener survives exactly when every datagram of another server parses; then it holds what the last of them
      says, and what it held before if there was none. */
  lemma {:induction false} FollowedIsLast(l: Ledger, self: Addr, us: seq<Update>)
    ensures var held := Followed(l, self, us);
            && (held.Ok? <==>
                 forall i :: 0 <= i < |us| && us[i].source != self ==> ParseSnapshot(Received(us[i].text)).Ok?)
            && (forall k: nat :: LastForeignAt(self, us, k) && held.Ok? ==>
                 held == ParseSnapshot(Received(us[k].text)))
            && ((forall i :: 0 <= i < |us| ==> us[i].source == self) ==> held == Ok(l))
    decreases |us|
  {
    if us != [] {
      var n := |us| - 1;
      assert us == us[..n] + [us[n]];
      FollowedIsLast(l, self, us[..n]);
      FollowedAlso(l, self, us[..n], us[n]);
      forall k: nat | LastForeignAt(self, us, k) && k < n ensures LastForeignAt(self, us[..n], k) {
      }
    }
  }

  // ---------------------------------------------------------------------------
  // Delivery in the cluster
  // ---------------------------------------------------------------------------

  /** The ledger after all that is in an inbox is delivered. */
  function Loaded(l: Ledger, inbox: seq<string>): Result<Ledger, ParseError>
    decreases |inbox|
  {
    if inbox == [] then Ok(l)
    else
      var next :- ParseSnapshot(inbox[0]);
      Loaded(next, inbox[1..])
  }

  lemma {:induction false} LoadedAlso(l: Ledger, inbox: seq<string>, text: string)
    ensures Loaded(l, inbox + [text]) ==
            if Loaded(l, inbox).Err? then Loaded(l, inbox) else ParseSnapshot(text)
    decreases |inbox|
  {
    if inbox == [] {
      assert [text][1..] == [];
    } else {
      assert (inbox + [text])[1..] == inbox[1..] + [text];
      var next := ParseSnapshot(inbox[0]);
      if next.Ok? {
        LoadedAlso(next.value, inbox[1..], text);
      }
    }
  }

  /** The broadcast of an event, as its listeners see it. */
  function Sends(c: Cluster, e: Event): Option<Update>
    requires Possible(c, e)
  {
    match e
    case Serve(d, order) =>
      var h := Handle(Leading(c), d);
      if h.update.Some? then Some(Update(c.coordinator, SnapshotText(h.ledger, order))) else None
    case Refresh(order) => Some(Update(c.coordinator, SnapshotText(Leading(c), order)))
    case Join(_, order) => Some(Update(c.coordinator, SnapshotText(Leading(c), order)))
    case _ => None
  }

  /** What a listener has loaded and has still to load comes to `held`; it is gone only if that is an error. */
  ghost predicate Holds(c: Cluster, s: Addr, held: Result<Ledger, ParseError>) {
    if s in c.ledgers then s in c.inboxes && Loaded(c.ledgers[s], c.inboxes[s]) == held
    else s !in c.inboxes && held.Err?
  }

  function HeardIfSent(held: Result<Ledger, ParseError>, self: Addr, sent: Option<Update>): Result<Ledger, ParseError> {
    if sent.None? then held else HeardAlso(held, self, sent.value)
  }

  lemma SentTo(c: Cluster, text: string, s: Addr, held: Result<Ledger, ParseError>)
    requires Holds(c, s, held) && s != c.coordinator
    ensures Holds(Sent(c, Received(text)), s, HeardAlso(held, s, Update(c.coordinator, text)))
  {
    if s in c.ledgers {
      LoadedAlso(c.ledgers[s], c.inboxes[s], Received(text));
    }
  }

  /** Every event of the cluster does to a listener what its broadcast, if it makes one, does to the listening
      loop. */
  lemma StepFollows(c: Cluster, e: Event, s: Addr, held: Result<Ledger, ParseError>)
    requires Possible(c, e) && Holds(c, s, held)
    requires s != c.coordinator && s != Step(c, e).coordinator
    requires e != BackupFails(s) && !(e.Join? && e.server == s)
    ensures Holds(Step(c, e), s, HeardIfSent(held, s, Sends(c, e)))
  {
    match e
    case Serve(d, order) =>
      var h := Handle(Leading(c), d);
      var c' := c.(ledgers := c.ledgers[c.coordinator := h.ledger], history := Noted(c.history, Leading(c), d));
      if h.update.Some? {
        SentTo(c', SnapshotText(h.ledger, order), s, held);
      }
    case Refresh(order) =>
      SentTo(c, SnapshotText(Leading(c), order), s, held);
    case Join(server, order) =>
      var c' := c.(ledgers := c.ledgers[server := EMPTY], inboxes := c.inboxes[server := []]);
      SentTo(c', SnapshotText(Leading(c), order), s, held);
    case _ =>
  }

  lemma JoinFollows(c: Cluster, s: Addr, order: seq<Addr>)
    requires Possible(c, Join(s, order)) && s != c.coordinator
    ensures Holds(Step(c, Join(s, order)), s, HeardIfSent(Ok(EMPTY), s, Sends(c, Join(s, order))))
  {
    var c' := c.(ledgers := c.ledgers[s := EMPTY], inboxes := c.inboxes[s := []]);
    SentTo(c', SnapshotText(Leading(c), order), s, Ok(EMPTY));
  }

  /** A crash takes one server away, a take-over or a hand-over makes another the coordinator, and that is all. */
  lemma ChangesOfLead(c: Cluster, e: Event, s: Addr)
    requires Possible(c, e) && (e.BackupFails? || e.CoordinatorFails? || e.HandOver?)
    ensures var c' := Step(c, e);
            var gone := (e.BackupFails? && s == e.server) || (e.CoordinatorFails? && s == c.coordinator);
            && (s in c'.ledgers <==> s in c.ledgers && !gone) && (s in c'.inboxes <==> s in c.inboxes && !gone)
            && (s in c'.ledgers ==> c'.ledgers[s] == c.ledgers[s])
            && (s in c'.inboxes ==> c'.inboxes[s] == c.inboxes[s])
            && c'.coordinator == (if e.BackupFails? then c.coordinator else e.successor)
            && c'.history == c.history
  {
  }

  // ---------------------------------------------------------------------------
  // Whole runs
  // ---------------------------------------------------------------------------

  /** Since it last joined, the server has neither crashed nor been coordinator. */
  ghost predicate Listens(states: seq<Cluster>, events: seq<Event>, s: Addr)
    requires |states| == |events| + 1
    decreases |events|
  {
    var n := |events|;
    && n > 0 && s != states[n - 1].coordinator && s != states[n].coordinator && events[n - 1] != BackupFails(s)
    && ((events[n - 1].Join? && events[n - 1].server == s) || Listens(states[..n], events[..n - 1], s))
  }

  /** All that was broadcast since then, oldest first. */
  function HeardSince(states: seq<Cluster>, events: seq<Event>, s: Addr): seq<Update>
    requires |states| == |events| + 1
    requires forall i :: 0 <= i < |events| ==> Possible(states[i], events[i])
    decreases |events|
  {
    var n := |events|;
    if n == 0 then []
    else
      var sent := Sends(states[n - 1], events[n - 1]);
      var now := if sent.Some? then [sent.value] else [];
      if events[n - 1].Join? && events[n - 1].server == s then now
      else HeardSince(states[..n], events[..n - 1], s) + now
  }

  lemma NextHeld(s: Addr, us: seq<Update>, sent: Option<Update>)
    ensures Followed(EMPTY, s, us + if sent.Some? then [sent.value] else []) ==
            HeardIfSent(Followed(EMPTY, s, us), s, sent)
  {
    if sent.Some? {
      FollowedAlso(EMPTY, s, us, sent.value);
    } else {
      assert us + [] == us;
    }
  }

  lemma BeforeLast(states: seq<Cluster>, events: seq<Event>)
    requires Run(states, events) && events != []
    ensures var n := |events|;
            && Run(states[..n], events[..n - 1])
            && states[..n][n - 1] == states[n - 1]
            && Possible(states[n - 1], events[n - 1]) && states[n] == Step(states[n - 1], events[n - 1])
  {
  }

  lemma {:induction false} ListenerHolds(states: seq<Cluster>, events: seq<Event>, s: Addr)
    requires Run(states, events) && Listens(states, events, s)
    ensures Holds(states[|events|], s, Followed(EMPTY, s, HeardSince(states, events, s)))
    decreases |events|
  {
    var n := |events|;
    BeforeLast(states, events);
    var c, e := states[n - 1], events[n - 1];
    if e.Join? && e.server == s {
      JoinFollows(c, s, e.order);
      NextHeld(s, [], Sends(c, e));
    } else {
      ListenerHolds(states[..n], events[..n - 1], s);
      StepFollows(c, e, s, Followed(EMPTY, s, HeardSince(states[..n], events[..n - 1], s)));
      NextHeld(s, HeardSince(states[..n], events[..n - 1], s), Sends(c, e));
    }
  }

  /** In any run, with snapshots of any length, a server that has only listened since it joined, and has read all that
      was sent to it, holds exactly what its listening loop makes of everything broadcast since; it is gone only if
      that loop ends with an error. */
  lemma ListenersFollow(states: seq<Cluster>, events: seq<Event>, s: Addr)
    requires Run(states, events) && Listens(states, events, s)
    ensures var c, held := states[|events|], Followed(EMPTY, s, HeardSince(states, events, s));
            if s in c.ledgers then s in c.inboxes && (c.inboxes[s] == [] ==> held == Ok(c.ledgers[s]))
            else held.Err?
  {
    ListenerHolds(states, events, s);
  }
}
