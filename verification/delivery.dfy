/** What a client can rely on: it falls back into step after one answer, and pays at most once more than the
    answers it lost. */
module Delivery {
  import opened MachineInts
  import opened Packets
  import opened Ledgers
  import opened Requests
  import opened Answers
  import opened Clients

  // ---------------------------------------------------------------------------
  // Falling back into step
  // ---------------------------------------------------------------------------

  /** Whatever number a request carried and whatever became of it, the number taken from the answer is the one
      the server expects next; a sender that is not registered counts as one that has sent nothing. */
  lemma Resynchronises(l: Ledger, sender: Addr, p: ReqPacket)
    ensures var h := HandleRequest(l, sender, p);
            var client := RecordOf(h.ledger, sender);
            && h.reply.value.seqNum == client.lastRequest
            && NextRequest(h.reply.value) == ToI32(client.lastRequest + 1)
            && CheckPacketStatus(NextRequest(h.reply.value), client) == VALID
  {
    InStepIsValid(RecordOf(HandleRequest(l, sender, p).ledger, sender));
  }

  lemma InStepIsValid(client: ClientRecord)
    ensures CheckPacketStatus(ToI32(client.lastRequest + 1), client) == VALID
  {
    ToI32OfToU32(client.lastRequest + 1);
    CongruentLow(ToI32(client.lastRequest + 1), client.lastRequest + 1);
    ToI32Congruent(client.lastRequest + 1);
  }

  ghost predicate Fundable(l: Ledger, me: Addr, dest: Addr, amount: U64) {
    && me in l.records && dest in l.records && me != dest
    && 0 < amount <= l.records[me].balance
  }

  ghost predicate ByOthers(datagrams: seq<Datagram>, me: Addr) {
    forall d :: d in datagrams ==> d.sender != me
  }

  lemma {:induction false} OthersLeaveAll(l: Ledger, datagrams: seq<Datagram>, me: Addr)
    requires ByOthers(datagrams, me)
    ensures var l' := After(l, datagrams);
            && (me in l'.records <==> me in l.records)
            && (me in l.records ==> l'.records[me].lastRequest == l.records[me].lastRequest)
    decreases |datagrams|
  {
    if datagrams != [] {
      var n := |datagrams| - 1;
      OthersLeaveAll(l, datagrams[..n], me);
      OthersLeave(After(l, datagrams[..n]), datagrams[n], me);
    }
  }

  /** A fundable transfer under the number that is expected goes through. */
  lemma FundableGoesThrough(l: Ledger, current: I32, me: Addr, dest: Addr, amount: U64)
    requires Fundable(l, me, dest, amount)
    ensures var h := HandleRequest(l, me, ReqPacket(current, dest, amount));
            if CheckPacketStatus(current, l.records[me]) == VALID then h.reply.value.result == "SUCCESS"
            else h.ledger == l && !EndsDispatch(h.reply.value.result)
  {
  }

  /** With nothing lost, a transfer that can be paid is paid exactly once, by the first send or the second,
      whatever number the client started from. */
  lemma TwoSends(l: Ledger, current: I32, me: Addr, dest: Addr, amount: U64, fates: seq<Fate>)
    requires |fates| >= 2
    requires forall i :: 0 <= i < 2 ==> fates[i].sent && fates[i].answered && ByOthers(fates[i].others, me)
    requires Fundable(After(l, fates[0].others), me, dest, amount)
    requires Fundable(After(After(l, fates[0].others), fates[1].others), me, dest, amount)
    ensures var d := Dispatch(l, current, me, Transfer(dest, amount), fates);
            d.done && d.sends <= 2 && d.commits == 1
  {
    var order := Transfer(dest, amount);
    var first := After(l, fates[0].others);
    FundableGoesThrough(first, current, me, dest, amount);
    var a := Attempt(l, current, me, order, fates[0]);
    if !a.done {
      Resynchronises(first, me, ReqPacket(current, dest, amount));
      OthersLeaveAll(first, fates[1].others, me);
      var second := After(first, fates[1].others);
      InStepIsValid(second.records[me]);
      FundableGoesThrough(second, a.current, me, dest, amount);
      var b := Attempt(first, a.current, me, order, fates[1]);
      assert b.done && b.committed;
      DispatchTwice(l, current, me, order, fates);
    }
  }

  lemma DispatchTwice(l: Ledger, current: I32, me: Addr, order: Order, fates: seq<Fate>)
    requires |fates| >= 2
    requires !Attempt(l, current, me, order, fates[0]).done
    ensures var a := Attempt(l, current, me, order, fates[0]);
            var b := Attempt(a.ledger, a.current, me, order, fates[1]);
            b.done ==> Dispatch(l, current, me, order, fates) ==
                       Dispatched(b.ledger, b.current, true, 2,
                                  (if a.committed then 1 else 0) + (if b.committed then 1 else 0))
  {
    assert fates[1..][0] == fates[1];
  }

  // ---------------------------------------------------------------------------
  // Under loss
  // ---------------------------------------------------------------------------

  function LostAnswers(fates: seq<Fate>): nat {
    if fates == [] then 0
    else (if fates[0].sent && !fates[0].answered then 1 else 0) + LostAnswers(fates[1..])
  }

  lemma AttemptEnds(l: Ledger, current: I32, me: Addr, order: Order, fate: Fate)
    ensures var a := Attempt(l, current, me, order, fate);
            && (a.committed ==> a.done || (fate.sent && !fate.answered))
            && (a.done && order.Transfer? && order.amount > 0 ==> a.committed)
            && (a.committed ==> order.Transfer? && order.amount > 0)
  {
  }

  /** Every dispatch ends within as many sends as it has attempts; it pays at most once for every answer lost, and
      once more if it reports success; and a success it reports was paid for. */
  lemma {:induction false} PaysAtMost(l: Ledger, current: I32, me: Addr, order: Order, fates: seq<Fate>)
    ensures var d := Dispatch(l, current, me, order, fates);
            && d.sends <= |fates| && (!d.done ==> d.sends == |fates|)
            && d.commits <= LostAnswers(fates[..d.sends]) + (if d.done then 1 else 0)
            && (d.done && order.Transfer? && order.amount > 0 ==> d.commits >= 1)
            && (d.commits > 0 ==> order.Transfer? && order.amount > 0)
    decreases |fates|
  {
    if fates != [] {
      var a := Attempt(l, current, me, order, fates[0]);
      AttemptEnds(l, current, me, order, fates[0]);
      var d := Dispatch(l, current, me, order, fates);
      if !a.done {
        PaysAtMost(a.ledger, a.current, me, order, fates[1..]);
        assert fates[..d.sends][1..] == fates[1..][..d.sends - 1];
      }
      assert fates[..d.sends][0] == fates[0];
    }
  }

  /** When no answer is lost the report is the truth: success means one payment, anything else means none. */
  lemma ReportIsTrue(l: Ledger, current: I32, me: Addr, dest: Addr, amount: U64, fates: seq<Fate>)
    requires amount > 0
    requires forall f :: f in fates && f.sent ==> f.answered
    ensures var d := Dispatch(l, current, me, Transfer(dest, amount), fates);
            d.commits == if d.done then 1 else 0
  {
    var d := Dispatch(l, current, me, Transfer(dest, amount), fates);
    PaysAtMost(l, current, me, Transfer(dest, amount), fates);
    NoneLost(fates[..d.sends]);
  }

  lemma {:induction false} NoneLost(fates: seq<Fate>)
    requires forall f :: f in fates && f.sent ==> f.answered
    ensures LostAnswers(fates) == 0
  {
    if fates != [] {
      NoneLost(fates[1..]);
    }
  }

  // ---------------------------------------------------------------------------
  // What a payment is
  // ---------------------------------------------------------------------------

  /** The two balances after `times` payments. */
  ghost predicate Paid(l: Ledger, l': Ledger, me: Addr, dest: Addr, amount: U64, times: nat) {
    && l'.records.Keys == l.records.Keys && me in l.records && dest in l.records
    && l'.records[me].balance == l.records[me].balance - times * amount
    && l'.records[dest].balance == ToU64(l.records[dest].balance + times * amount)
    && forall ip :: ip in l.records && ip != me && ip != dest ==> l'.records[ip] == l.records[ip]
  }

  lemma AttemptPays(l: Ledger, current: I32, me: Addr, dest: Addr, amount: U64, fate: Fate)
    requires me in l.records && dest in l.records && me != dest && fate.others == []
    ensures var a := Attempt(l, current, me, Transfer(dest, amount), fate);
            Paid(l, a.ledger, me, dest, amount, if a.committed then 1 else 0)
  {
    assert After(l, []) == l;
    var p := ReqPacket(current, dest, amount);
    HandlingPays(l, me, p);
  }

  lemma HandlingPays(l: Ledger, me: Addr, p: ReqPacket)
    requires me in l.records && p.receiver in l.records && me != p.receiver
    ensures var h := HandleRequest(l, me, p);
            Paid(l, h.ledger, me, p.receiver, p.amount, if h.reply.value.result == "SUCCESS" then 1 else 0)
  {
  }

  lemma PaidTwice(l: Ledger, l1: Ledger, l2: Ledger, me: Addr, dest: Addr, amount: U64, m: nat, n: nat)
    requires Paid(l, l1, me, dest, amount, m) && Paid(l1, l2, me, dest, amount, n) && me != dest
    ensures Paid(l, l2, me, dest, amount, m + n)
  {
    assert (m + n) * amount == m * amount + n * amount;
    WrapTwice(l.records[dest].balance, m * amount, n * amount);
  }

  lemma WrapTwice(a: int, b: int, c: int)
    ensures ToU64(ToU64(a + b) + c) == ToU64(a + b + c)
  {
  }

  /** Left to itself, a dispatch moves the amount exactly as many times as it was committed, and touches nobody
      else. */
  lemma {:induction false} PaysAsCommitted(l: Ledger, current: I32, me: Addr, dest: Addr, amount: U64, fates: seq<Fate>)
    requires me in l.records && dest in l.records && me != dest
    requires forall f :: f in fates ==> f.others == []
    ensures var d := Dispatch(l, current, me, Transfer(dest, amount), fates);
            Paid(l, d.ledger, me, dest, amount, d.commits)
    decreases |fates|
  {
    if fates != [] {
      var a := Attempt(l, current, me, Transfer(dest, amount), fates[0]);
      AttemptPays(l, current, me, dest, amount, fates[0]);
      if !a.done {
        PaysAsCommitted(a.ledger, a.current, me, dest, amount, fates[1..]);
        var rest := Dispatch(a.ledger, a.current, me, Transfer(dest, amount), fates[1..]);
        PaidTwice(l, a.ledger, rest.ledger, me, dest, amount, if a.committed then 1 else 0, rest.commits);
      }
    }
  }

  // ---------------------------------------------------------------------------
  // What ends a dispatch
  // ---------------------------------------------------------------------------

  predicate HasAnswer(f: Fate) {
    f.sent && f.answered
  }

  /** An attempt at a transfer is done exactly when it is answered, carries the next number, and can be paid or is a
      mere look at the balance; it pays if it arrives, answered or not; and a client without record gets one if it
      looks for the server after a timeout. */
  lemma AttemptToTransfer(l: Ledger, current: I32, me: Addr, dest: Addr, amount: U64, fate: Fate)
    ensures var before, a := After(l, fate.others), Attempt(l, current, me, Transfer(dest, amount), fate);
            var next := NextInLine(before, me, ReqPacket(current, dest, amount));
            && (a.committed <==> fate.sent && next && Fundable(before, me, dest, amount))
            && (a.done <==>
                 HasAnswer(fate) && next && me in before.records && (amount == 0 || Fundable(before, me, dest, amount)))
            && (me in a.ledger.records <==> me in before.records || (fate.located && !HasAnswer(fate)))
            && (a.current ==
                 if HasAnswer(fate) then ToI32(RecordOf(a.ledger, me).lastRequest + 1) else current)
  {
    var before := After(l, fate.others);
    RequestResult(before, me, ReqPacket(current, dest, amount));
    RequestAnswered(before, me, ReqPacket(current, dest, amount));
    NumberAfter(before, me, ReqPacket(current, dest, amount));
  }

  lemma NumberAfter(l: Ledger, me: Addr, p: ReqPacket)
    ensures var h := HandleRequest(l, me, p);
            NextRequest(h.reply.value) == ToI32(RecordOf(h.ledger, me).lastRequest + 1)
  {
    Resynchronises(l, me, p);
  }

  function HeardAnswers(fates: seq<Fate>): nat {
    if fates == [] then 0 else (if HasAnswer(fates[0]) then 1 else 0) + HeardAnswers(fates[1..])
  }

  /** A registered client that asks for its balance gets it with the first answer if it is in step, and with the
      second if it is not, whatever else is lost and whatever the others do; asking uses no number up. */
  lemma {:induction false} BalanceCheckExactly(l: Ledger, current: I32, me: Addr, dest: Addr, fates: seq<Fate>)
    requires me in l.records && forall f :: f in fates ==> ByOthers(f.others, me)
    ensures var d := Dispatch(l, current, me, Transfer(dest, 0), fates);
            var needed := if CheckPacketStatus(current, l.records[me]) == VALID then 1 else 2;
            && d.sends <= |fates| && (d.done <==> HeardAnswers(fates) >= needed)
            && (d.done ==>
                 d.sends > 0 && HeardAnswers(fates[..d.sends]) == needed && HasAnswer(fates[d.sends - 1]))
            && me in d.ledger.records && d.ledger.records[me].lastRequest == l.records[me].lastRequest
    decreases |fates|
  {
    if fates != [] {
      var a := Attempt(l, current, me, Transfer(dest, 0), fates[0]);
      var d := Dispatch(l, current, me, Transfer(dest, 0), fates);
      CheckOnce(l, current, me, dest, fates[0]);
      if !a.done {
        BalanceCheckExactly(a.ledger, a.current, me, dest, fates[1..]);
        assert fates[..d.sends][1..] == fates[1..][..d.sends - 1];
      }
      assert fates[..d.sends][0] == fates[0];
      assert a.done ==> fates[..d.sends][1..] == [];
    }
  }

  lemma CheckOnce(l: Ledger, current: I32, me: Addr, dest: Addr, fate: Fate)
    requires me in l.records && ByOthers(fate.others, me)
    ensures var a := Attempt(l, current, me, Transfer(dest, 0), fate);
            && me in a.ledger.records && a.ledger.records[me].lastRequest == l.records[me].lastRequest
            && (a.done <==> HasAnswer(fate) && CheckPacketStatus(current, l.records[me]) == VALID)
            && (if HasAnswer(fate) then CheckPacketStatus(a.current, a.ledger.records[me]) == VALID
                else a.current == current)
  {
    OthersLeaveAll(l, fate.others, me);
    var before, p := After(l, fate.others), ReqPacket(current, dest, 0);
    AttemptToTransfer(l, current, me, dest, 0, fate);
    ValidMeans(current, before.records[me]);
    InStepIsValid(before.records[me]);
    RequestActs(before, me, p);
    DiscoveryRegisters(before, me);
  }
}
