/** Copies of one request in several handlers at once.  A handler checks the number in one critical section and pays in
    another; in between, other handlers may do either. */
module HandlerRace {
  import opened MachineInts
  import opened Packets
  import opened Ledgers
  import opened Requests

  /** The two halves of a handler: the look at the sender's record, and the transfer if the number was the next one. */
  datatype Half = Look(handler: nat) | Act(handler: nat)

  /** The ledger, the handlers that have found the number valid and have yet to act, and the payments made. */
  datatype Race = Race(ledger: Ledger, passed: set<nat>, paid: nat)

  function HalfStep(r: Race, me: Addr, p: ReqPacket, half: Half): Race {
    match half
    case Look(h) =>
      if CheckPacketStatus(p.seqNum, RecordOf(r.ledger, me)) == VALID then r.(passed := r.passed + {h}) else r
    case Act(h) =>
      if h in r.passed then
        var out := Transacted(r.ledger, me, p.receiver, p.amount);
        Race(out.ledger, r.passed - {h}, r.paid + if out.response.status == SUCCESS then 1 else 0)
      else r
  }

  function After(r: Race, me: Addr, p: ReqPacket, schedule: seq<Half>): Race
    decreases |schedule|
  {
    if schedule == [] then r else After(HalfStep(r, me, p, schedule[0]), me, p, schedule[1..])
  }

  // ---------------------------------------------------------------------------
  // Who acts, by the schedule alone
  // ---------------------------------------------------------------------------

  /** The handlers that act, when those in `waiting` have found the number valid; whether others still can is `open`. */
  function Winners(schedule: seq<Half>, waiting: set<nat>, open: bool): set<nat>
    decreases |schedule|
  {
    if schedule == [] then {}
    else
      match schedule[0]
      case Look(h) => Winners(schedule[1..], if open then waiting + {h} else waiting, open)
      case Act(h) =>
        if h in waiting then {h} + Winners(schedule[1..], waiting - {h}, false)
        else Winners(schedule[1..], waiting, open)
  }

  lemma {:induction false} ClosedWinners(schedule: seq<Half>, waiting: set<nat>)
    ensures Winners(schedule, waiting, false) <= waiting
    decreases |schedule|
  {
    if schedule != [] {
      match schedule[0]
      case Look(h) => ClosedWinners(schedule[1..], waiting);
      case Act(h) => ClosedWinners(schedule[1..], if h in waiting then waiting - {h} else waiting);
    }
  }

  // ---------------------------------------------------------------------------
  // How often the number is paid
  // ---------------------------------------------------------------------------

  /** The request is a real transfer, and `acts` of its copies have been counted since its number was the next one. */
  ghost predicate Counted(l: Ledger, me: Addr, p: ReqPacket, acts: nat) {
    && me in l.records && p.receiver in l.records && me != p.receiver && p.amount > 0
    && Congruent(p.seqNum + acts, l.records[me].lastRequest + 1)
  }

  lemma NextOnlyAtFirst(l: Ledger, me: Addr, p: ReqPacket, acts: nat)
    requires Counted(l, me, p, acts) && acts < TWO32
    ensures CheckPacketStatus(p.seqNum, RecordOf(l, me)) == VALID <==> acts == 0
  {
    ValidMeans(p.seqNum, l.records[me]);
    SameUpTo(p.seqNum, l.records[me].lastRequest + 1, acts);
  }

  lemma SameUpTo(n: int, m: int, acts: nat)
    requires Congruent(n + acts, m) && acts < TWO32
    ensures Congruent(n, m) <==> acts == 0
  {
    var k := (n + acts - m) / TWO32;
    assert n - m == k * TWO32 - acts;
  }

  lemma ActCounts(l: Ledger, me: Addr, p: ReqPacket, acts: nat)
    requires Counted(l, me, p, acts)
    ensures var out, balance := Transacted(l, me, p.receiver, p.amount), l.records[me].balance;
            && Counted(out.ledger, me, p, acts + 1)
            && (out.response.status == SUCCESS <==> p.amount <= balance)
            && out.ledger.records[me].balance == if p.amount <= balance then balance - p.amount else balance
  {
    BumpedNext(p.seqNum + acts, l.records[me].lastRequest);
  }

  lemma BumpedNext(n: int, last: U32)
    requires Congruent(n, last + 1)
    ensures Congruent(n + 1, ToU32(last + 1) + 1)
  {
    var a, b := (n - (last + 1)) / TWO32, (last + 1) / TWO32;
    assert n + 1 - (ToU32(last + 1) + 1) == (a + b) * TWO32;
  }

  function Min(a: nat, b: nat): nat {
    if a < b then a else b
  }

  lemma OneLess(balance: nat, amount: nat)
    requires 0 < amount <= balance
    ensures balance / amount == (balance - amount) / amount + 1
  {
    var rest := balance - amount;
    var q, r := rest / amount, rest % amount;
    assert rest == amount * q + r;
    assert amount * (q + 1) == amount * q + amount;
    QuotientIs(balance, amount, q + 1, r);
  }

  lemma QuotientIs(x: nat, d: nat, q: nat, r: nat)
    requires 0 < d && r < d && x == d * q + r
    ensures x / d == q
  {
    var p, s := x / d, x % d;
    assert x == d * p + s;
    Larger(d, p, q);
    Larger(d, q, p);
  }

  lemma Larger(d: nat, p: nat, q: nat)
    ensures p < q ==> d * q >= d * p + d
  {
    if p < q {
      assert d * q == d * p + d + d * (q - p - 1);
    }
  }

  lemma TooLittle(balance: nat, amount: nat)
    requires balance < amount
    ensures balance / amount == 0
  {
  }

  lemma {:induction false} RaceFrom(r: Race, me: Addr, p: ReqPacket, schedule: seq<Half>, acts: nat)
    requires Counted(r.ledger, me, p, acts) && acts + |schedule| < TWO32
    ensures After(r, me, p, schedule).paid ==
            r.paid + Min(|Winners(schedule, r.passed, acts == 0)|, r.ledger.records[me].balance / p.amount)
    decreases |schedule|
  {
    if schedule == [] {
    } else {
      NextOnlyAtFirst(r.ledger, me, p, acts);
      var next := HalfStep(r, me, p, schedule[0]);
      match schedule[0]
      case Look(h) => RaceFrom(next, me, p, schedule[1..], acts);
      case Act(h) =>
        if h in r.passed {
          ActCounts(r.ledger, me, p, acts);
          RaceFrom(next, me, p, schedule[1..], acts + 1);
          ClosedWinners(schedule[1..], r.passed - {h});
          OneMore(schedule[1..], r.passed, h);
          if p.amount <= r.ledger.records[me].balance {
            OneLess(r.ledger.records[me].balance, p.amount);
          } else {
            TooLittle(r.ledger.records[me].balance, p.amount);
          }
        } else {
          RaceFrom(next, me, p, schedule[1..], acts);
        }
    }
  }

  lemma OneMore(rest: seq<Half>, waiting: set<nat>, h: nat)
    ensures |{h} + Winners(rest, waiting - {h}, false)| == 1 + |Winners(rest, waiting - {h}, false)|
  {
    ClosedWinners(rest, waiting - {h});
    assert h !in Winners(rest, waiting - {h}, false);
  }

  /** However the handlers of the copies of a request interleave, the request is paid once for each handler that acts,
      as far as the money goes. */
  lemma PaidByWinners(l: Ledger, me: Addr, p: ReqPacket, schedule: seq<Half>)
    requires Moves(l, me, p) && |schedule| < TWO32
    ensures After(Race(l, {}, 0), me, p, schedule).paid ==
            Min(|Winners(schedule, {}, true)|, l.records[me].balance / p.amount)
  {
    RaceFrom(Race(l, {}, 0), me, p, schedule, 0);
  }

  // ---------------------------------------------------------------------------
  // Who the winners are
  // ---------------------------------------------------------------------------

  ghost predicate At(schedule: seq<Half>, i: nat, half: Half) {
    i < |schedule| && schedule[i] == half
  }

  /** Before `s`, no handler acted that was waiting or had looked. */
  ghost predicate Untouched(schedule: seq<Half>, waiting: set<nat>, s: nat) {
    forall m: nat, b: nat :: b < s && At(schedule, b, Act(m)) ==>
      m !in waiting && forall a: nat :: a < b ==> !At(schedule, a, Look(m))
  }

  ghost predicate LooksInTime(schedule: seq<Half>, waiting: set<nat>, h: nat) {
    exists s: nat, u: nat :: InTime(schedule, waiting, h, s, u)
  }

  ghost predicate InTime(schedule: seq<Half>, waiting: set<nat>, h: nat, s: nat, u: nat) {
    s < u && At(schedule, s, Look(h)) && At(schedule, u, Act(h)) && Untouched(schedule, waiting, s)
  }

  ghost predicate Acts(schedule: seq<Half>, h: nat) {
    exists u: nat :: At(schedule, u, Act(h))
  }

  /** Winning: having waited, or looking in time while that is still possible; and acting. */
  ghost predicate Wins(schedule: seq<Half>, waiting: set<nat>, open: bool, h: nat) {
    (h in waiting && Acts(schedule, h)) || (open && LooksInTime(schedule, waiting, h))
  }

  lemma Shift(schedule: seq<Half>, i: nat, half: Half)
    requires schedule != []
    ensures At(schedule, i + 1, half) <==> At(schedule[1..], i, half)
  {
  }

  lemma ActsLater(schedule: seq<Half>, h: nat)
    requires schedule != []
    ensures Acts(schedule, h) <==> schedule[0] == Act(h) || Acts(schedule[1..], h)
  {
    if u: nat :| At(schedule, u, Act(h)) {
      if u > 0 {
        Shift(schedule, u - 1, Act(h));
      }
    }
    if u: nat :| At(schedule[1..], u, Act(h)) {
      Shift(schedule, u, Act(h));
    }
    assert schedule[0] == Act(h) ==> At(schedule, 0, Act(h));
  }

  /** After a first look. */
  lemma UntouchedAfterLook(schedule: seq<Half>, waiting: set<nat>, k: nat, s: nat)
    requires schedule != [] && schedule[0] == Look(k)
    ensures Untouched(schedule, waiting, s + 1) <==> Untouched(schedule[1..], waiting + {k}, s)
  {
    var rest := schedule[1..];
    if Untouched(schedule, waiting, s + 1) {
      forall m: nat, b: nat | b < s && At(rest, b, Act(m))
        ensures m !in waiting + {k} && forall a: nat :: a < b ==> !At(rest, a, Look(m))
      {
        Shift(schedule, b, Act(m));
        assert m == k ==> At(schedule, 0, Look(m));
        forall a: nat | a < b ensures !At(rest, a, Look(m)) {
          Shift(schedule, a, Look(m));
        }
      }
    }
    if Untouched(rest, waiting + {k}, s) {
      forall m: nat, b: nat | b < s + 1 && At(schedule, b, Act(m))
        ensures m !in waiting && forall a: nat :: a < b ==> !At(schedule, a, Look(m))
      {
        Shift(schedule, b - 1, Act(m));
        forall a: nat | a < b ensures !At(schedule, a, Look(m)) {
          if a > 0 {
            Shift(schedule, a - 1, Look(m));
          }
        }
      }
    }
  }

  /** After a first act of one that was not waiting, and had not looked. */
  lemma UntouchedAfterAct(schedule: seq<Half>, waiting: set<nat>, k: nat, s: nat)
    requires schedule != [] && schedule[0] == Act(k)
    ensures Untouched(schedule, waiting, s + 1) <==> k !in waiting && Untouched(schedule[1..], waiting, s)
  {
    var rest := schedule[1..];
    if Untouched(schedule, waiting, s + 1) {
      assert At(schedule, 0, Act(k));
      forall m: nat, b: nat | b < s && At(rest, b, Act(m))
        ensures m !in waiting && forall a: nat :: a < b ==> !At(rest, a, Look(m))
      {
        Shift(schedule, b, Act(m));
        forall a: nat | a < b ensures !At(rest, a, Look(m)) {
          Shift(schedule, a, Look(m));
        }
      }
    }
    if k !in waiting && Untouched(rest, waiting, s) {
      forall m: nat, b: nat | b < s + 1 && At(schedule, b, Act(m))
        ensures m !in waiting && forall a: nat :: a < b ==> !At(schedule, a, Look(m))
      {
        if b > 0 {
          Shift(schedule, b - 1, Act(m));
          forall a: nat | a < b ensures !At(schedule, a, Look(m)) {
            if a > 0 {
              Shift(schedule, a - 1, Look(m));
            }
          }
        }
      }
    }
  }

  lemma LooksAfterLook(schedule: seq<Half>, waiting: set<nat>, k: nat, h: nat)
    requires schedule != [] && schedule[0] == Look(k)
    ensures LooksInTime(schedule, waiting, h) <==>
            (h == k && Acts(schedule[1..], h)) || LooksInTime(schedule[1..], waiting + {k}, h)
  {
    var rest := schedule[1..];
    if s: nat, u: nat :| InTime(schedule, waiting, h, s, u) {
      Shift(schedule, u - 1, Act(h));
      if s > 0 {
        Shift(schedule, s - 1, Look(h));
        UntouchedAfterLook(schedule, waiting, k, s - 1);
        assert InTime(rest, waiting + {k}, h, s - 1, u - 1);
      }
    }
    if h == k && Acts(rest, h) {
      var u: nat :| At(rest, u, Act(h));
      Shift(schedule, u, Act(h));
      assert InTime(schedule, waiting, h, 0, u + 1);
    }
    if s: nat, u: nat :| InTime(rest, waiting + {k}, h, s, u) {
      Shift(schedule, s, Look(h));
      Shift(schedule, u, Act(h));
      UntouchedAfterLook(schedule, waiting, k, s);
      assert InTime(schedule, waiting, h, s + 1, u + 1);
    }
  }

  lemma LooksAfterAct(schedule: seq<Half>, waiting: set<nat>, k: nat, h: nat)
    requires schedule != [] && schedule[0] == Act(k)
    ensures LooksInTime(schedule, waiting, h) <==> k !in waiting && LooksInTime(schedule[1..], waiting, h)
  {
    var rest := schedule[1..];
    if s: nat, u: nat :| InTime(schedule, waiting, h, s, u) {
      Shift(schedule, s - 1, Look(h));
      Shift(schedule, u - 1, Act(h));
      UntouchedAfterAct(schedule, waiting, k, s - 1);
      assert InTime(rest, waiting, h, s - 1, u - 1);
    }
    if k !in waiting {
      if s: nat, u: nat :| InTime(rest, waiting, h, s, u) {
        Shift(schedule, s, Look(h));
        Shift(schedule, u, Act(h));
        UntouchedAfterAct(schedule, waiting, k, s);
        assert InTime(schedule, waiting, h, s + 1, u + 1);
      }
    }
  }

  lemma {:induction false} WinnersWin(schedule: seq<Half>, waiting: set<nat>, open: bool, h: nat)
    ensures h in Winners(schedule, waiting, open) <==> Wins(schedule, waiting, open, h)
    decreases |schedule|
  {
    if schedule != [] {
      var rest := schedule[1..];
      ActsLater(schedule, h);
      match schedule[0]
      case Look(k) =>
        WinnersWin(rest, if open then waiting + {k} else waiting, open, h);
        LooksAfterLook(schedule, waiting, k, h);
      case Act(k) =>
        LooksAfterAct(schedule, waiting, k, h);
        if k in waiting {
          WinnersWin(rest, waiting - {k}, false, h);
        } else {
          WinnersWin(rest, waiting, open, h);
        }
    }
  }

  // ---------------------------------------------------------------------------
  // Exactly when a number is paid twice
  // ---------------------------------------------------------------------------

  /** Two handlers look before any has acted on what it saw, and both act. */
  ghost predicate Overlap(schedule: seq<Half>) {
    exists h: nat, k: nat :: h != k && LooksInTime(schedule, {}, h) && LooksInTime(schedule, {}, k)
  }

  lemma TwoMembers(s: set<nat>)
    ensures |s| >= 2 <==> exists h: nat, k: nat :: h != k && h in s && k in s
  {
    if |s| >= 2 {
      var h :| h in s;
      var rest := s - {h};
      assert |rest| >= 1;
      var k :| k in rest;
      assert h != k && h in s && k in s;
    }
    if h: nat, k: nat :| h != k && h in s && k in s {
      assert |s - {h}| == |s| - 1;
      assert k in s - {h};
    }
  }

  /** One request number is paid more than once exactly when two handlers look before any has acted on what it saw, both
      act, and the sender has the money twice. */
  lemma PaidTwiceExactly(l: Ledger, me: Addr, p: ReqPacket, schedule: seq<Half>)
    requires Moves(l, me, p) && |schedule| < TWO32
    ensures After(Race(l, {}, 0), me, p, schedule).paid >= 2 <==>
            Overlap(schedule) && 2 * p.amount <= l.records[me].balance
  {
    PaidByWinners(l, me, p, schedule);
    var winners := Winners(schedule, {}, true);
    TwoMembers(winners);
    forall h: nat ensures h in winners <==> LooksInTime(schedule, {}, h) {
      WinnersWin(schedule, {}, true, h);
    }
    TwiceAffordable(l.records[me].balance, p.amount);
  }

  lemma TwiceAffordable(balance: nat, amount: nat)
    requires amount > 0
    ensures balance / amount >= 2 <==> 2 * amount <= balance
  {
  }
}
