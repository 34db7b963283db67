/** What becomes of a client that wants to leave: when it is told so, when it is gone without knowing, and when the
    search for the server has registered it again. */
module Leaving {
  import opened MachineInts
  import opened Ledgers
  import opened Requests
  import opened Answers
  import opened Clients
  import opened Delivery

  // ---------------------------------------------------------------------------
  // One attempt
  // ---------------------------------------------------------------------------

  /** After a timeout the client looks for the server, and whoever is found looking is registered. */
  predicate Rejoins(f: Fate) {
    f.located && !HasAnswer(f)
  }

  /** An attempt to leave removes the client if the packet arrives, is done if it also hears of that, and registers it
      afresh if it hears nothing and finds the server. */
  lemma AttemptToLeave(l: Ledger, current: I32, me: Addr, fate: Fate)
    ensures var before, a := After(l, fate.others), Attempt(l, current, me, Leave, fate);
            && (a.done <==> HasAnswer(fate) && me in before.records)
            && (me in a.ledger.records <==> Rejoins(fate) || (!fate.sent && me in before.records))
            && (me in a.ledger.records ==>
                 a.ledger.records[me] ==
                 if fate.sent || me !in before.records then NewClient(me) else before.records[me])
            && (forall ip :: ip != me ==>
                 (ip in a.ledger.records <==> ip in before.records) &&
                 (ip in before.records ==> a.ledger.records[ip] == before.records[ip]))
            && a.current == (if HasAnswer(fate) then 0 else current)
            && !a.committed
  {
    var before := After(l, fate.others);
    FarewellAnswered(before, me);
    DiscoveryRegisters(before, me);
    DiscoveryRegisters(HandleKill(before, me).ledger, me);
  }

  // ---------------------------------------------------------------------------
  // The dispatch
  // ---------------------------------------------------------------------------

  /** No packet arrives from attempt `from` on, up to attempt `to`. */
  ghost predicate NoneSent(fates: seq<Fate>, from: int, to: int) {
    forall i :: 0 <= i < |fates| && from <= i < to ==> !fates[i].sent
  }

  /** The search after attempt `j` has registered the client, and no packet has arrived since. */
  ghost predicate RejoinedAt(fates: seq<Fate>, j: nat, k: nat) {
    j < k <= |fates| && Rejoins(fates[j]) && NoneSent(fates, j + 1, k)
  }

  /** Whether the client is registered when attempt `k` begins, going by what was lost alone. */
  ghost predicate Present(member: bool, fates: seq<Fate>, k: nat) {
    (member && NoneSent(fates, 0, k)) || exists j: nat :: RejoinedAt(fates, j, k)
  }

  lemma PresentNext(member: bool, fates: seq<Fate>, k: nat)
    requires 0 < k <= |fates|
    ensures var next := Rejoins(fates[0]) || (!fates[0].sent && member);
            Present(member, fates, k) <==> Present(next, fates[1..], k - 1)
  {
    var rest := fates[1..];
    var next := Rejoins(fates[0]) || (!fates[0].sent && member);
    assert forall i :: 0 <= i < |rest| ==> rest[i] == fates[i + 1];
    NoneSentNext(fates, 1, k);
    if Present(member, fates, k) && !(member && NoneSent(fates, 0, k)) {
      var j: nat :| RejoinedAt(fates, j, k);
      if j > 0 {
        NoneSentNext(fates, j + 1, k);
        assert RejoinedAt(rest, j - 1, k - 1);
      }
    }
    if Present(next, rest, k - 1) {
      if next && NoneSent(rest, 0, k - 1) {
        assert Rejoins(fates[0]) ==> RejoinedAt(fates, 0, k);
      } else {
        var j: nat :| RejoinedAt(rest, j, k - 1);
        NoneSentNext(fates, j + 2, k);
        assert RejoinedAt(fates, j + 1, k);
      }
    }
  }

  lemma NoneSentNext(fates: seq<Fate>, from: int, to: int)
    requires fates != [] && from >= 1
    ensures NoneSent(fates, from, to) <==> NoneSent(fates[1..], from - 1, to - 1)
  {
    var rest := fates[1..];
    if NoneSent(fates, from, to) {
      forall i | 0 <= i < |rest| && from - 1 <= i < to - 1 ensures !rest[i].sent {
        assert rest[i] == fates[i + 1];
      }
    }
    if NoneSent(rest, from - 1, to - 1) {
      forall i | 0 <= i < |fates| && from <= i < to ensures !fates[i].sent {
        assert fates[i] == rest[i - 1];
      }
    }
  }

  /** An attempt that finds the client registered and is answered. */
  ghost predicate Removes(member: bool, fates: seq<Fate>, k: nat) {
    k < |fates| && HasAnswer(fates[k]) && Present(member, fates, k)
  }

  ghost predicate OnlyOthers(fates: seq<Fate>, me: Addr) {
    forall i :: 0 <= i < |fates| ==> ByOthers(fates[i].others, me)
  }

  lemma RestOnlyOthers(fates: seq<Fate>, me: Addr)
    requires OnlyOthers(fates, me) && fates != []
    ensures OnlyOthers(fates[1..], me)
  {
    forall i | 0 <= i < |fates[1..]| ensures ByOthers(fates[1..][i].others, me) {
      assert fates[1..][i] == fates[i + 1];
    }
  }

  /** The attempt after which a dispatch has ended, and what it leaves. */
  ghost predicate LeavesAt(d: Dispatched, member: bool, fates: seq<Fate>, me: Addr) {
    && d.sends <= |fates| && d.commits == 0
    && (forall k: nat :: k < d.sends - 1 ==> !Removes(member, fates, k))
    && (d.done ==> d.sends > 0 && Removes(member, fates, d.sends - 1) && me !in d.ledger.records && d.current == 0)
    && (!d.done ==>
         && d.sends == |fates| && (d.sends > 0 ==> !Removes(member, fates, d.sends - 1))
         && (me in d.ledger.records <==> Present(member, fates, |fates|)))
  }

  lemma LeavesNext(d: Dispatched, member: bool, fates: seq<Fate>, me: Addr)
    requires fates != [] && !Removes(member, fates, 0)
    requires LeavesAt(d, Rejoins(fates[0]) || (!fates[0].sent && member), fates[1..], me)
    ensures LeavesAt(Plus(d, 1, 0), member, fates, me)
  {
    var next, rest := Rejoins(fates[0]) || (!fates[0].sent && member), fates[1..];
    forall k: nat | k < |rest| ensures Removes(next, rest, k) <==> Removes(member, fates, k + 1) {
      assert rest[k] == fates[k + 1];
      PresentNext(member, fates, k + 1);
    }
    forall k: nat | k < d.sends ensures !Removes(member, fates, k) || (d.done && k == d.sends) {
      if k > 0 {
        assert !Removes(next, rest, k - 1);
      }
    }
    PresentNext(member, fates, |fates|);
  }

  lemma PresentFirst(member: bool, fates: seq<Fate>)
    ensures Present(member, fates, 0) <==> member
  {
  }

  lemma {:induction false} LeavesByLosses(l: Ledger, current: I32, me: Addr, fates: seq<Fate>)
    requires OnlyOthers(fates, me)
    ensures LeavesAt(Dispatch(l, current, me, Leave, fates), me in l.records, fates, me)
    decreases |fates|
  {
    var member := me in l.records;
    PresentFirst(member, fates);
    if fates != [] {
      var a := Attempt(l, current, me, Leave, fates[0]);
      AttemptToLeave(l, current, me, fates[0]);
      OthersLeaveAll(l, fates[0].others, me);
      if !a.done {
        RestOnlyOthers(fates, me);
        LeavesByLosses(a.ledger, a.current, me, fates[1..]);
        LeavesNext(Dispatch(a.ledger, a.current, me, Leave, fates[1..]), member, fates, me);
      }
    }
  }

  /** Whatever the others do, a dispatch of a farewell reports success if and only if one of its packets arrives and is
      answered while the client is registered.  It ends there, with the client gone. */
  lemma LeavesExactly(l: Ledger, current: I32, me: Addr, fates: seq<Fate>)
    requires OnlyOthers(fates, me)
    ensures var d, member := Dispatch(l, current, me, Leave, fates), me in l.records;
            && (d.done <==> exists k: nat :: Removes(member, fates, k))
            && (d.done ==> Removes(member, fates, d.sends - 1) && me !in d.ledger.records && d.current == 0)
            && (!d.done ==>
                 d.sends == |fates| && (me in d.ledger.records <==> Present(member, fates, |fates|)))
  {
    LeavesByLosses(l, current, me, fates);
    var d, member := Dispatch(l, current, me, Leave, fates), me in l.records;
    if k: nat :| Removes(member, fates, k) {
      assert k >= d.sends - 1;
    }
  }

  /** A success that is reported is true even when datagrams of this client's own are still about: it is gone. */
  lemma {:induction false} ReportedGone(l: Ledger, current: I32, me: Addr, fates: seq<Fate>)
    ensures var d := Dispatch(l, current, me, Leave, fates);
            && d.sends <= |fates|
            && (d.done ==> me !in d.ledger.records && d.sends > 0 && HasAnswer(fates[d.sends - 1]))
    decreases |fates|
  {
    if fates != [] {
      var a := Attempt(l, current, me, Leave, fates[0]);
      AttemptToLeave(l, current, me, fates[0]);
      if !a.done {
        ReportedGone(a.ledger, a.current, me, fates[1..]);
      }
    }
  }

  /** With nothing lost, one packet is enough, and nobody else is touched. */
  lemma LeavesAtOnce(l: Ledger, current: I32, me: Addr, fates: seq<Fate>)
    requires fates != [] && HasAnswer(fates[0]) && me in After(l, fates[0].others).records
    ensures var d, before := Dispatch(l, current, me, Leave, fates), After(l, fates[0].others);
            && d.done && d.sends == 1
            && d.ledger.records == before.records - {me}
            && d.ledger.totalBalance == ToI32(before.totalBalance - before.records[me].balance)
  {
  }

  /** A client whose packet arrives, but not the answer, and that never finds the server again, is gone, is told that
      it is not registered whenever it asks, and gives up without knowing. */
  lemma GoneUnheard(l: Ledger, current: I32, me: Addr, fates: seq<Fate>, k: nat)
    requires OnlyOthers(fates, me) && k < |fates| && fates[k].sent
    requires forall i :: 0 <= i <= k ==> !HasAnswer(fates[i])
    requires forall i :: 0 <= i < |fates| ==> !fates[i].located
    ensures var d := Dispatch(l, current, me, Leave, fates); !d.done && me !in d.ledger.records
  {
    LeavesExactly(l, current, me, fates);
    forall m: nat | k < m <= |fates| ensures !Present(me in l.records, fates, m) {
      assert !NoneSent(fates, 0, m);
    }
  }

  /** A client whose answer is lost, and that then finds the server, is registered with the starting balance; its next
      packet to be answered removes it again, and tells it that balance. */
  lemma LeavesAgain(l: Ledger, current: I32, me: Addr, fates: seq<Fate>)
    requires OnlyOthers(fates, me) && |fates| >= 2
    requires fates[0].sent && !fates[0].answered && fates[0].located && HasAnswer(fates[1])
    ensures var d := Dispatch(l, current, me, Leave, fates);
            d.done && d.sends == 2 && me !in d.ledger.records
    ensures fates[1].others == [] ==>
            var a := Attempt(l, current, me, Leave, fates[0]);
            Handle(a.ledger, Outgoing(a.current, me, Leave)).reply.value.newBalance == STARTING_BALANCE
  {
    AttemptToLeave(l, current, me, fates[0]);
    var a := Attempt(l, current, me, Leave, fates[0]);
    assert RejoinedAt(fates, 0, 1);
    assert Removes(me in l.records, fates, 1);
    LeavesByLosses(l, current, me, fates);
    assert !Removes(me in l.records, fates, 0);
    FarewellAnswered(a.ledger, me);
  }

  /** Left to itself, a client that is still registered in the end has kept its record if no packet arrived, and
      otherwise has the record of a new one; all others keep theirs. */
  lemma {:induction false} StaysAs(l: Ledger, current: I32, me: Addr, fates: seq<Fate>)
    requires forall i :: 0 <= i < |fates| ==> fates[i].others == []
    ensures var d := Dispatch(l, current, me, Leave, fates);
            && (me in d.ledger.records ==>
                 d.ledger.records[me] ==
                 if me in l.records && NoneSent(fates, 0, |fates|) then l.records[me] else NewClient(me))
            && (forall ip :: ip != me ==>
                 (ip in d.ledger.records <==> ip in l.records) &&
                 (ip in l.records ==> d.ledger.records[ip] == l.records[ip]))
    decreases |fates|
  {
    if fates != [] {
      var a := Attempt(l, current, me, Leave, fates[0]);
      AttemptToLeave(l, current, me, fates[0]);
      NoneSentNext(fates, 1, |fates|);
      if !a.done {
        StaysAs(a.ledger, a.current, me, fates[1..]);
      }
    }
  }
}
