/** How often one order is paid, exactly: it depends on nothing but which packets and which answers were lost. */
module Payments {
  import opened MachineInts
  import opened Packets
  import opened Ledgers
  import opened Requests
  import opened Clients
  import opened Delivery

  // ---------------------------------------------------------------------------
  // The number of payments
  // ---------------------------------------------------------------------------

  /** In step, the client's number is the one the server expects.  A packet sent in step pays; it ends the dispatch if
      it is answered, and otherwise leaves the client out of step.  A packet sent out of step pays nothing, and its
      answer, if it arrives, brings the client back into step. */
  function Payments(fates: seq<Fate>, inStep: bool): nat
    decreases |fates|
  {
    if fates == [] then 0
    else if !fates[0].sent then Payments(fates[1..], inStep)
    else if !inStep then Payments(fates[1..], fates[0].answered)
    else if fates[0].answered then 1
    else 1 + Payments(fates[1..], false)
  }

  /** Whether the dispatch reports success, under the same reading of the losses. */
  function Succeeds(fates: seq<Fate>, inStep: bool): bool
    decreases |fates|
  {
    fates != [] &&
    if !fates[0].sent then Succeeds(fates[1..], inStep)
    else if !inStep then Succeeds(fates[1..], fates[0].answered)
    else fates[0].answered || Succeeds(fates[1..], false)
  }

  /** How many attempts it makes. */
  function AttemptsMade(fates: seq<Fate>, inStep: bool): nat
    decreases |fates|
  {
    if fates == [] then 0
    else if !fates[0].sent then 1 + AttemptsMade(fates[1..], inStep)
    else if !inStep then 1 + AttemptsMade(fates[1..], fates[0].answered)
    else if fates[0].answered then 1
    else 1 + AttemptsMade(fates[1..], false)
  }

  predicate InStepWith(l: Ledger, current: I32, me: Addr) {
    me in l.records && CheckPacketStatus(current, l.records[me]) == VALID
  }

  /** Two numbers in a row are not taken for the same. */
  lemma BumpedOutOfStep(current: I32, r: ClientRecord)
    requires CheckPacketStatus(current, r) == VALID
    ensures CheckPacketStatus(current, Bumped(r)) != VALID
  {
    ValidMeans(current, r);
    ValidMeans(current, Bumped(r));
    NotBoth(current, r.lastRequest);
  }

  lemma NotBoth(current: int, last: U32)
    requires Congruent(current, last + 1)
    ensures !Congruent(current, ToU32(last + 1) + 1)
  {
    var a, b := (current - (last + 1)) / TWO32, (last + 1) / TWO32;
    assert current - (ToU32(last + 1) + 1) == (a + b) * TWO32 - 1;
  }

  lemma PaidInStep(l: Ledger, current: I32, me: Addr, dest: Addr, amount: U64)
    requires Fundable(l, me, dest, amount) && InStepWith(l, current, me)
    ensures var h := HandleRequest(l, me, ReqPacket(current, dest, amount));
            && h.reply.value.result == "SUCCESS"
            && me in h.ledger.records && dest in h.ledger.records
            && h.ledger.records[me] == Debited(Bumped(l.records[me]), amount)
  {
  }

  lemma RefusedOutOfStep(l: Ledger, current: I32, me: Addr, dest: Addr, amount: U64)
    requires me in l.records && !InStepWith(l, current, me)
    ensures var h := HandleRequest(l, me, ReqPacket(current, dest, amount));
            h.ledger == l && h.reply.value.result in {"DUPLICATE", "OUT_OF_ORDER"}
  {
  }

  /** What one attempt does for a client that is registered and can pay. */
  ghost predicate Follows(current: I32, me: Addr, fate: Fate, inStep: bool, a: Attempted) {
    && me in a.ledger.records
    && if !fate.sent then
         !a.committed && !a.done && a.current == current && (InStepWith(a.ledger, a.current, me) <==> inStep)
       else if inStep then
         && a.committed && (a.done <==> fate.answered)
         && (!fate.answered ==> !InStepWith(a.ledger, a.current, me))
       else
         !a.committed && !a.done && (InStepWith(a.ledger, a.current, me) <==> fate.answered)
  }

  /** The other clients leave a client in step, or out of it. */
  lemma OthersKeepStep(l: Ledger, current: I32, me: Addr, others: seq<Datagram>)
    requires ByOthers(others, me) && me in l.records
    ensures me in After(l, others).records
    ensures InStepWith(After(l, others), current, me) <==> InStepWith(l, current, me)
  {
    OthersLeaveAll(l, others, me);
    SameNumberSameStep(current, l.records[me], After(l, others).records[me]);
  }

  lemma SameNumberSameStep(current: I32, r: ClientRecord, r': ClientRecord)
    requires r.lastRequest == r'.lastRequest
    ensures CheckPacketStatus(current, r) == CheckPacketStatus(current, r')
  {
  }

  lemma SentInStep(l: Ledger, current: I32, me: Addr, dest: Addr, amount: U64, fate: Fate)
    requires fate.sent && Fundable(After(l, fate.others), me, dest, amount)
    requires InStepWith(After(l, fate.others), current, me)
    ensures Follows(current, me, fate, true, Attempt(l, current, me, Transfer(dest, amount), fate))
  {
    var before := After(l, fate.others);
    PaidInStep(before, current, me, dest, amount);
    BumpedOutOfStep(current, before.records[me]);
    SameNumberSameStep(current, Bumped(before.records[me]), Debited(Bumped(before.records[me]), amount));
  }

  lemma SentOutOfStep(l: Ledger, current: I32, me: Addr, dest: Addr, amount: U64, fate: Fate)
    requires fate.sent && me in After(l, fate.others).records && !InStepWith(After(l, fate.others), current, me)
    ensures Follows(current, me, fate, false, Attempt(l, current, me, Transfer(dest, amount), fate))
  {
    var before := After(l, fate.others);
    Resynchronises(before, me, ReqPacket(current, dest, amount));
    RefusedOutOfStep(before, current, me, dest, amount);
  }

  /** Whoever else is active, the money is there whenever a payment falls due, and so is the receiver. */
  ghost predicate Funded(l: Ledger, current: I32, me: Addr, dest: Addr, amount: U64, fates: seq<Fate>)
    decreases |fates|
  {
    fates == [] ||
    (var before, a := After(l, fates[0].others), Attempt(l, current, me, Transfer(dest, amount), fates[0]);
     && ByOthers(fates[0].others, me)
     && (fates[0].sent && InStepWith(before, current, me) ==> Fundable(before, me, dest, amount))
     && (a.done || Funded(a.ledger, a.current, me, dest, amount, fates[1..])))
  }

  lemma AttemptFollows(l: Ledger, current: I32, me: Addr, dest: Addr, amount: U64, fate: Fate)
    requires me in l.records && ByOthers(fate.others, me)
    requires fate.sent && InStepWith(After(l, fate.others), current, me) ==>
               Fundable(After(l, fate.others), me, dest, amount)
    ensures Follows(current, me, fate, InStepWith(l, current, me),
                    Attempt(l, current, me, Transfer(dest, amount), fate))
  {
    OthersKeepStep(l, current, me, fate.others);
    if fate.sent {
      if InStepWith(l, current, me) {
        SentInStep(l, current, me, dest, amount, fate);
      } else {
        SentOutOfStep(l, current, me, dest, amount, fate);
      }
    }
  }

  /** From any ledger and any number, whatever the other clients do between, an order that can be paid whenever it is
      due is paid as often as the losses say, and reported as they say. */
  lemma {:induction false} PaymentsExactly(
    l: Ledger, current: I32, me: Addr, dest: Addr, amount: U64, fates: seq<Fate>)
    requires me in l.records && Funded(l, current, me, dest, amount, fates)
    ensures var d, inStep := Dispatch(l, current, me, Transfer(dest, amount), fates), InStepWith(l, current, me);
            && d.commits == Payments(fates, inStep)
            && d.done == Succeeds(fates, inStep)
            && d.sends == AttemptsMade(fates, inStep)
    decreases |fates|
  {
    if fates != [] {
      AttemptFollows(l, current, me, dest, amount, fates[0]);
      var a := Attempt(l, current, me, Transfer(dest, amount), fates[0]);
      if !a.done {
        PaymentsExactly(a.ledger, a.current, me, dest, amount, fates[1..]);
      }
    }
  }

  /** With nobody else active it is enough to have the money for the payments that the losses call for. */
  lemma {:induction false} AloneFunded(
    l: Ledger, current: I32, me: Addr, dest: Addr, amount: U64, fates: seq<Fate>)
    requires me in l.records && dest in l.records && me != dest && amount > 0
    requires forall f :: f in fates ==> f.others == []
    requires amount * Payments(fates, InStepWith(l, current, me)) <= l.records[me].balance
    ensures Funded(l, current, me, dest, amount, fates)
    decreases |fates|
  {
    if fates != [] {
      assert After(l, []) == l;
      Affordable(amount, fates, InStepWith(l, current, me), l.records[me].balance);
      AttemptFollows(l, current, me, dest, amount, fates[0]);
      AloneLeaves(l, current, me, dest, amount, fates[0]);
      var a := Attempt(l, current, me, Transfer(dest, amount), fates[0]);
      if !a.done {
        AloneFunded(a.ledger, a.current, me, dest, amount, fates[1..]);
      }
    }
  }

  lemma AloneLeaves(l: Ledger, current: I32, me: Addr, dest: Addr, amount: U64, fate: Fate)
    requires me in l.records && dest in l.records && me != dest && amount > 0 && fate.others == []
    requires fate.sent && InStepWith(l, current, me) ==> amount <= l.records[me].balance
    ensures var a := Attempt(l, current, me, Transfer(dest, amount), fate);
            && me in a.ledger.records && dest in a.ledger.records
            && a.ledger.records[me].balance ==
               l.records[me].balance - (if fate.sent && InStepWith(l, current, me) then amount else 0)
  {
    assert After(l, []) == l;
    if fate.sent && InStepWith(l, current, me) {
      PaidInStep(l, current, me, dest, amount);
    } else if fate.sent {
      RefusedOutOfStep(l, current, me, dest, amount);
    }
  }

  lemma Affordable(amount: nat, fates: seq<Fate>, inStep: bool, balance: nat)
    requires fates != [] && amount * Payments(fates, inStep) <= balance
    ensures fates[0].sent && inStep ==> amount <= balance
    ensures fates[0].sent && inStep && !fates[0].answered ==> amount * Payments(fates[1..], false) <= balance - amount
  {
    var n := Payments(fates[1..], false);
    assert amount * (1 + n) == amount + amount * n;
  }

  // ---------------------------------------------------------------------------
  // Paid at all, and paid again
  // ---------------------------------------------------------------------------

  ghost predicate Sends(fates: seq<Fate>, i: nat) {
    i < |fates| && fates[i].sent
  }

  ghost predicate Answers(fates: seq<Fate>, i: nat) {
    i < |fates| && fates[i].sent && fates[i].answered
  }

  ghost predicate FirstSend(fates: seq<Fate>, i: nat) {
    Sends(fates, i) && forall m: nat :: m < i ==> !Sends(fates, m)
  }

  ghost predicate FirstAnswer(fates: seq<Fate>, i: nat) {
    Answers(fates, i) && forall m: nat :: m < i ==> !Answers(fates, m)
  }

  /** The first packet is lost only on its way back, a later one is answered, and yet another is sent. */
  ghost predicate PaysAgain(fates: seq<Fate>) {
    exists i: nat, j: nat, k: nat ::
      i < j < k && FirstSend(fates, i) && !fates[i].answered && Answers(fates, j) && Sends(fates, k)
  }

  lemma Later(fates: seq<Fate>, i: nat)
    requires fates != []
    ensures Sends(fates, i + 1) <==> Sends(fates[1..], i)
    ensures Answers(fates, i + 1) <==> Answers(fates[1..], i)
  {
  }

  lemma {:induction false} PaidInStepWhen(fates: seq<Fate>)
    ensures Payments(fates, true) >= 1 <==> exists i: nat :: Sends(fates, i)
    decreases |fates|
  {
    if fates != [] {
      PaidInStepWhen(fates[1..]);
      if i: nat :| Sends(fates[1..], i) {
        Later(fates, i);
      }
      if i: nat :| Sends(fates, i) {
        if i > 0 {
          Later(fates, i - 1);
        } else {
          assert fates[0].sent;
        }
      }
      assert fates[0].sent ==> Sends(fates, 0);
    }
  }

  lemma {:induction false} PaidOutOfStepWhen(fates: seq<Fate>)
    ensures Payments(fates, false) >= 1 <==> exists j: nat, k: nat :: j < k && Answers(fates, j) && Sends(fates, k)
    decreases |fates|
  {
    if fates != [] {
      var rest := fates[1..];
      PaidOutOfStepWhen(rest);
      PaidInStepWhen(rest);
      if j: nat, k: nat :| j < k && Answers(rest, j) && Sends(rest, k) {
        Later(fates, j);
        Later(fates, k);
      }
      if k: nat :| Sends(rest, k) {
        Later(fates, k);
        assert Answers(fates, 0) ==> 0 < k + 1 && Answers(fates, 0) && Sends(fates, k + 1);
      }
      if j: nat, k: nat :| j < k && Answers(fates, j) && Sends(fates, k) {
        Later(fates, k - 1);
        if j > 0 {
          Later(fates, j - 1);
          assert j - 1 < k - 1 && Answers(rest, j - 1) && Sends(rest, k - 1);
          assert Sends(rest, j - 1);
        }
      }
    }
  }

  /** An order that is sent in step is paid again exactly when its first answer is lost, a later one arrives, and still
      another packet goes out. */
  lemma {:induction false} PaidAgainInStepWhen(fates: seq<Fate>)
    ensures Payments(fates, true) >= 2 <==> PaysAgain(fates)
    decreases |fates|
  {
    if fates != [] {
      var rest := fates[1..];
      if !fates[0].sent {
        PaidAgainInStepWhen(rest);
        UnsentFirst(fates);
      } else if fates[0].answered {
        assert Sends(fates, 0);
      } else {
        PaidOutOfStepWhen(rest);
        LostFirst(fates);
      }
    }
  }

  lemma UnsentFirst(fates: seq<Fate>)
    requires fates != [] && !fates[0].sent
    ensures PaysAgain(fates) <==> PaysAgain(fates[1..])
  {
    if PaysAgain(fates[1..]) {
      UnsentBefore(fates);
    }
    if PaysAgain(fates) {
      UnsentDropped(fates);
    }
  }

  lemma UnsentBefore(fates: seq<Fate>)
    requires fates != [] && !fates[0].sent && PaysAgain(fates[1..])
    ensures PaysAgain(fates)
  {
    var rest := fates[1..];
    var i: nat, j: nat, k: nat :|
      i < j < k && FirstSend(rest, i) && !rest[i].answered && Answers(rest, j) && Sends(rest, k);
    Later(fates, i);
    Later(fates, j);
    Later(fates, k);
    forall m: nat | m < i + 1 ensures !Sends(fates, m) {
      if m > 0 {
        Later(fates, m - 1);
      }
    }
    assert FirstSend(fates, i + 1) && !fates[i + 1].answered;
  }

  lemma UnsentDropped(fates: seq<Fate>)
    requires fates != [] && !fates[0].sent && PaysAgain(fates)
    ensures PaysAgain(fates[1..])
  {
    var rest := fates[1..];
    var i: nat, j: nat, k: nat :|
      i < j < k && FirstSend(fates, i) && !fates[i].answered && Answers(fates, j) && Sends(fates, k);
    Later(fates, i - 1);
    Later(fates, j - 1);
    Later(fates, k - 1);
    forall m: nat | m < i - 1 ensures !Sends(rest, m) {
      Later(fates, m);
    }
    assert FirstSend(rest, i - 1) && !rest[i - 1].answered;
  }

  lemma LostFirst(fates: seq<Fate>)
    requires fates != [] && fates[0].sent && !fates[0].answered
    ensures PaysAgain(fates) <==> exists j: nat, k: nat :: j < k && Answers(fates[1..], j) && Sends(fates[1..], k)
  {
    var rest := fates[1..];
    assert FirstSend(fates, 0);
    if j: nat, k: nat :| j < k && Answers(rest, j) && Sends(rest, k) {
      Later(fates, j);
      Later(fates, k);
      assert 0 < j + 1 < k + 1 && !fates[0].answered;
    }
    if i: nat, j: nat, k: nat :|
      i < j < k && FirstSend(fates, i) && !fates[i].answered && Answers(fates, j) && Sends(fates, k)
    {
      Later(fates, j - 1);
      Later(fates, k - 1);
    }
  }

  /** Out of step, nothing counts before the first answer that arrives. */
  lemma {:induction false} OutOfStep(fates: seq<Fate>)
    ensures (forall h: nat :: !Answers(fates, h)) ==> Payments(fates, false) == 0
    ensures forall h: nat :: FirstAnswer(fates, h) ==> Payments(fates, false) == Payments(fates[h + 1..], true)
    decreases |fates|
  {
    if fates != [] {
      var rest := fates[1..];
      OutOfStep(rest);
      if forall h: nat :: !Answers(fates, h) {
        assert !Answers(fates, 0);
        forall h: nat ensures !Answers(rest, h) {
          Later(fates, h);
        }
      }
      forall h: nat | FirstAnswer(fates, h) ensures Payments(fates, false) == Payments(fates[h + 1..], true) {
        if h > 0 {
          assert !Answers(fates, 0);
          Later(fates, h - 1);
          forall m: nat | m < h - 1 ensures !Answers(rest, m) {
            Later(fates, m);
          }
          assert FirstAnswer(rest, h - 1);
          assert rest[h..] == fates[h + 1..];
        }
      }
    }
  }

  ghost predicate PaysMoreThanOnce(fates: seq<Fate>, inStep: bool) {
    if inStep then PaysAgain(fates) else exists h: nat :: FirstAnswer(fates, h) && PaysAgain(fates[h + 1..])
  }

  lemma {:induction false} FirstAnswerOf(fates: seq<Fate>, h: nat) returns (first: nat)
    requires Answers(fates, h)
    ensures FirstAnswer(fates, first)
  {
    if m: nat :| m < h && Answers(fates, m) {
      first := FirstAnswerOf(fates, m);
    } else {
      first := h;
    }
  }

  lemma PaidAgainWhen(fates: seq<Fate>, inStep: bool)
    ensures Payments(fates, inStep) >= 2 <==> PaysMoreThanOnce(fates, inStep)
  {
    if inStep {
      PaidAgainInStepWhen(fates);
    } else {
      OutOfStep(fates);
      if h: nat :| Answers(fates, h) {
        var first := FirstAnswerOf(fates, h);
        PaidAgainInStepWhen(fates[first + 1..]);
        forall h: nat | FirstAnswer(fates, h) ensures h == first {
        }
      }
    }
  }

  /** With money enough, one order is paid more than once exactly when, once in step, a packet's answer is lost, a later
      packet is answered, and the client sends again: whatever the ledger, the amount, the number the client started
      from, and the other clients. */
  lemma PaidMoreThanOnceExactly(l: Ledger, current: I32, me: Addr, dest: Addr, amount: U64, fates: seq<Fate>)
    requires me in l.records && Funded(l, current, me, dest, amount, fates)
    ensures Dispatch(l, current, me, Transfer(dest, amount), fates).commits >= 2 <==>
            PaysMoreThanOnce(fates, InStepWith(l, current, me))
  {
    PaymentsExactly(l, current, me, dest, amount, fates);
    PaidAgainWhen(fates, InStepWith(l, current, me));
  }

  // ---------------------------------------------------------------------------
  // Clients that have just registered
  // ---------------------------------------------------------------------------

  const ANSWER_LOST := Fate([], true, false, true)
  const DELIVERED := Fate([], true, true, true)

  lemma {:induction false} FreshRecords(history: seq<Datagram>, ip: Addr)
    requires forall d :: d in history ==> d.Discovery?
    ensures ip in After(EMPTY, history).records ==> After(EMPTY, history).records[ip] == NewClient(ip)
    decreases |history|
  {
    if history != [] {
      FreshRecords(history[..|history| - 1], ip);
      assert history[|history| - 1] in history;
    }
  }

  /** One answer lost, and a client pays twice for its first order: the second packet is told apart as a duplicate, but
      the order then goes out a third time under the next number.  This happens to any two clients that any
      registrations have left in the ledger. */
  lemma PaidTwiceForOne(history: seq<Datagram>, me: Addr, dest: Addr, amount: U64)
    requires forall d :: d in history ==> d.Discovery?
    requires var l := After(EMPTY, history); me in l.records && dest in l.records && me != dest
    requires 0 < 2 * amount <= STARTING_BALANCE
    ensures var fates := [ANSWER_LOST, DELIVERED, DELIVERED, DELIVERED, DELIVERED];
            var d := Dispatch(After(EMPTY, history), 1, me, Transfer(dest, amount), fates);
            && d.done && d.commits == 2 && d.sends == 3 && LostAnswers(fates) == 1
            && me in d.ledger.records && d.ledger.records[me].balance == STARTING_BALANCE - 2 * amount
  {
    var l := After(EMPTY, history);
    var fates := [ANSWER_LOST, DELIVERED, DELIVERED, DELIVERED, DELIVERED];
    FreshRecords(history, me);
    FreshInStep(l.records[me]);
    TwoPayments(fates);
    AloneFunded(l, 1, me, dest, amount, fates);
    PaymentsExactly(l, 1, me, dest, amount, fates);
    PaysAsCommitted(l, 1, me, dest, amount, fates);
    NoneLost(fates[1..]);
  }

  lemma FreshInStep(r: ClientRecord)
    requires r.lastRequest == 0
    ensures CheckPacketStatus(1, r) == VALID
  {
  }

  lemma TwoPayments(fates: seq<Fate>)
    requires |fates| >= 3 && fates[0] == ANSWER_LOST && fates[1] == DELIVERED && fates[2] == DELIVERED
    ensures Payments(fates, true) == 2 && Succeeds(fates, true) && AttemptsMade(fates, true) == 3
  {
    var rest := fates[1..];
    assert rest[0] == DELIVERED && rest[1..][0] == DELIVERED;
    assert Payments(rest[1..], true) == 1 && Succeeds(rest[1..], true) && AttemptsMade(rest[1..], true) == 1;
    assert Payments(rest, false) == 1 && Succeeds(rest, false) && AttemptsMade(rest, false) == 2;
  }
}
