/** What a snapshot that is cut off anywhere is read as, and what that costs. */
module Cuts {
  import opened MachineInts
  import opened Wrappers
  import opened Text
  import opened Packets
  import opened Ledgers
  import opened Requests
  import opened Snapshots
  import opened Truncation

  // ---------------------------------------------------------------------------
  // Where a cut can fall
  // ---------------------------------------------------------------------------

  /** The text of the totals and the first `n` records, without the final blank. */
  function Upto(l: Ledger, order: seq<Addr>, n: nat): string
    requires n <= |order| && forall ip :: ip in order ==> ip in l.records
  {
    BodyText(l, order[..n])
  }

  /** The same without the last request number and what follows it. */
  function UptoNumber(l: Ledger, order: seq<Addr>, n: nat): string
    requires 0 < n <= |order| && forall ip :: ip in order ==> ip in l.records
  {
    Head(l, order[..n])
  }

  function Number(l: Ledger, order: seq<Addr>, n: nat): string
    requires 0 < n <= |order| && forall ip :: ip in order ==> ip in l.records
  {
    Dec(l.records[order[n - 1]].lastRequest)
  }

  /** The cut is behind the last number of the `n`-th record, and before anything of the next. */
  ghost predicate BehindRecord(l: Ledger, order: seq<Addr>, n: nat, c: nat)
    requires forall ip :: ip in order ==> ip in l.records
  {
    n <= |order| && (if n == 0 then |Upto(l, order, n)| else |Upto(l, order, n)| - 2) <= c <= |Upto(l, order, n)| + 1
  }

  /** The cut is within the request number of the `n`-th record. */
  ghost predicate InNumber(l: Ledger, order: seq<Addr>, n: nat, c: nat)
    requires forall ip :: ip in order ==> ip in l.records
  {
    0 < n <= |order| && |UptoNumber(l, order, n)| + 1 < c < |UptoNumber(l, order, n)| + 1 + |Number(l, order, n)|
  }

  /** The cut is within the address or the balance of the record after the `n`-th. */
  ghost predicate InRecord(l: Ledger, order: seq<Addr>, n: nat, c: nat)
    requires forall ip :: ip in order ==> ip in l.records
  {
    n < |order| && |Upto(l, order, n)| + 1 < c <= |UptoNumber(l, order, n + 1)| + 1
  }

  lemma RecordParts(l: Ledger, order: seq<Addr>, n: nat)
    requires 0 < n <= |order| && forall ip :: ip in order ==> ip in l.records
    ensures Upto(l, order, n) == UptoNumber(l, order, n) + " " + Number(l, order, n) + " " + ";"
    ensures UptoNumber(l, order, n) ==
            Upto(l, order, n - 1) + " " + Quad(l.records[order[n - 1]].ip) + " " + Dec(l.records[order[n - 1]].balance)
  {
    Parts(l, order[..n]);
    assert order[..n][..n - 1] == order[..n - 1];
  }

  lemma {:induction false} UptoGrows(l: Ledger, order: seq<Addr>, n: nat, m: nat)
    requires n <= m <= |order| && forall ip :: ip in order ==> ip in l.records
    ensures Upto(l, order, n) <= Upto(l, order, m)
    decreases m
  {
    if n < m {
      UptoGrows(l, order, n, m - 1);
      UptoNext(l, order, m);
    }
  }

  lemma UptoNext(l: Ledger, order: seq<Addr>, n: nat)
    requires 0 < n <= |order| && forall ip :: ip in order ==> ip in l.records
    ensures Upto(l, order, n - 1) <= Upto(l, order, n)
  {
    RecordParts(l, order, n);
    var r := l.records[order[n - 1]];
    Longer(Upto(l, order, n - 1), Quad(r.ip), Dec(r.balance), Number(l, order, n));
  }

  lemma Longer(b: string, q: string, m: string, d: string)
    ensures b <= b + " " + q + " " + m + " " + d + " " + ";"
  {
  }

  /** There are no other places. */
  lemma {:induction false} Place(l: Ledger, order: seq<Addr>, m: nat, c: nat) returns (n: nat)
    requires m <= |order| && forall ip :: ip in order ==> ip in l.records
    requires |Upto(l, order, 0)| <= c <= |Upto(l, order, m)| + 1
    ensures n <= m && (BehindRecord(l, order, n, c) || InNumber(l, order, n, c) || InRecord(l, order, n, c))
  {
    if m == 0 {
      n := 0;
    } else if c <= |Upto(l, order, m - 1)| + 1 {
      n := Place(l, order, m - 1, c);
    } else {
      RecordParts(l, order, m);
      n := if c <= |UptoNumber(l, order, m)| + 1 then m - 1 else m;
    }
  }

  /** And no cut is both within a number and behind a record. */
  lemma PlacesApart(l: Ledger, order: seq<Addr>, m: nat, n: nat, c: nat)
    requires forall ip :: ip in order ==> ip in l.records
    requires InNumber(l, order, m, c)
    ensures !BehindRecord(l, order, n, c)
    ensures InNumber(l, order, n, c) ==> n == m
  {
    if n < m {
      EarlierApart(l, order, m, n, c);
    } else if n <= |order| {
      LaterApart(l, order, m, n, c);
      if m < n && InNumber(l, order, n, c) {
        EarlierApart(l, order, n, m, c);
      }
    }
  }

  lemma EarlierApart(l: Ledger, order: seq<Addr>, m: nat, n: nat, c: nat)
    requires (forall ip :: ip in order ==> ip in l.records) && n < m
    requires InNumber(l, order, m, c)
    ensures c > |Upto(l, order, n)| + 1
    ensures !InNumber(l, order, n, c)
  {
    Lengths(l, order, m);
    LengthsGrow(l, order, n, m - 1);
    if 0 < n {
      Lengths(l, order, n);
    }
  }

  lemma LaterApart(l: Ledger, order: seq<Addr>, m: nat, n: nat, c: nat)
    requires (forall ip :: ip in order ==> ip in l.records) && m <= n <= |order|
    requires InNumber(l, order, m, c)
    ensures c < |Upto(l, order, n)| - 2
  {
    Lengths(l, order, m);
    LengthsGrow(l, order, m, n);
  }

  lemma Lengths(l: Ledger, order: seq<Addr>, n: nat)
    requires 0 < n <= |order| && forall ip :: ip in order ==> ip in l.records
    ensures |Upto(l, order, n)| == |UptoNumber(l, order, n)| + |Number(l, order, n)| + 3
    ensures |UptoNumber(l, order, n)| > |Upto(l, order, n - 1)| + 1
  {
    RecordParts(l, order, n);
  }

  lemma LengthsGrow(l: Ledger, order: seq<Addr>, n: nat, m: nat)
    requires n <= m <= |order| && forall ip :: ip in order ==> ip in l.records
    ensures |Upto(l, order, n)| <= |Upto(l, order, m)|
  {
    UptoGrows(l, order, n, m);
  }

  // ---------------------------------------------------------------------------
  // What is read
  // ---------------------------------------------------------------------------

  /** The ledger of the first `n` clients, under the same totals. */
  function Firsts(l: Ledger, order: seq<Addr>, n: nat): Ledger
    requires n <= |order| && forall ip :: ip in order ==> ip in l.records
  {
    l.(records := map ip | ip in order[..n] :: l.records[ip])
  }

  lemma FirstsText(l: Ledger, order: seq<Addr>, n: nat)
    requires n <= |order| && Keyed(l) && Enumerates(order, l.records.Keys)
    ensures var l' := Firsts(l, order, n);
            && Keyed(l') && Enumerates(order[..n], l'.records.Keys)
            && BodyText(l', order[..n]) == Upto(l, order, n)
            && (0 < n ==>
                 && Head(l', order[..n]) == UptoNumber(l, order, n)
                 && Last(l', order[..n]) == l.records[order[n - 1]])
  {
    var l' := Firsts(l, order, n);
    SameBody(l, l', order[..n]);
    if 0 < n {
      assert order[..n][..n - 1] == order[..n - 1];
      SameBody(l, l', order[..n - 1]);
    }
  }

  lemma TextUpto(l: Ledger, order: seq<Addr>, n: nat, c: nat)
    requires n <= |order| && forall ip :: ip in order ==> ip in l.records
    requires c <= |Upto(l, order, n)| + 1 && c <= |SnapshotText(l, order)|
    ensures SnapshotText(l, order)[..c] == (Upto(l, order, n) + " ")[..c]
  {
    UptoGrows(l, order, n, |order|);
    assert order[..|order|] == order;
    if n < |order| {
      UptoGrows(l, order, n + 1, |order|);
      RecordParts(l, order, n + 1);
      StartsWith(Upto(l, order, n) + " ", Upto(l, order, n + 1), SnapshotText(l, order), c);
    }
  }

  lemma StartsWith(a: string, b: string, text: string, c: nat)
    requires a <= b <= text && c <= |a|
    ensures text[..c] == a[..c]
  {
  }

  lemma BehindReads(l: Ledger, order: seq<Addr>, n: nat, c: nat)
    requires Keyed(l) && Enumerates(order, l.records.Keys) && c <= |SnapshotText(l, order)|
    requires BehindRecord(l, order, n, c)
    ensures ParseSnapshot(SnapshotText(l, order)[..c]) ==
            if Portable(Firsts(l, order, n)) then Ok(Firsts(l, order, n)) else Err(OutOfRange)
  {
    var l' := Firsts(l, order, n);
    FirstsText(l, order, n);
    TextUpto(l, order, n, c);
    if n == 0 {
      SnapshotRoundTrip(l', order[..0]);
      TrailingBlank(BodyText(l', order[..0]));
      WholeOrBlank(Upto(l, order, 0), c);
    } else {
      CutSmall(l', order[..n], c);
      assert SnapshotText(l', order[..n]) == Upto(l, order, n) + " ";
    }
  }

  lemma WholeOrBlank(s: string, c: nat)
    requires |s| <= c <= |s| + 1
    ensures (s + " ")[..c] == s || (s + " ")[..c] == s + " "
  {
    assert c == |s| ==> (s + " ")[..c] == s;
    assert c == |s| + 1 ==> (s + " ")[..c] == s + " ";
  }

  lemma NumberReads(l: Ledger, order: seq<Addr>, n: nat, c: nat) returns (number: U32)
    requires Keyed(l) && Enumerates(order, l.records.Keys) && c <= |SnapshotText(l, order)|
    requires InNumber(l, order, n, c)
    ensures number < l.records[order[n - 1]].lastRequest
    ensures Dec(number) == Number(l, order, n)[..c - |UptoNumber(l, order, n)| - 1]
    ensures var l' := Lowered(Firsts(l, order, n), order[..n], number);
            ParseSnapshot(SnapshotText(l, order)[..c]) == if Portable(l') then Ok(l') else Err(OutOfRange)
  {
    FirstsText(l, order, n);
    NumberText(l, order, n, c);
    number := CutNumber(Firsts(l, order, n), order[..n], c - |UptoNumber(l, order, n)| - 1);
  }

  lemma NumberText(l: Ledger, order: seq<Addr>, n: nat, c: nat)
    requires Keyed(l) && Enumerates(order, l.records.Keys) && c <= |SnapshotText(l, order)|
    requires InNumber(l, order, n, c)
    ensures SnapshotText(l, order)[..c] ==
            UptoNumber(l, order, n) + " " + Number(l, order, n)[..c - |UptoNumber(l, order, n)| - 1]
  {
    RecordParts(l, order, n);
    TextUpto(l, order, n, c);
    CutAtNumber(UptoNumber(l, order, n), Number(l, order, n), Upto(l, order, n), c);
  }

  lemma CutAtNumber(head: string, d: string, body: string, c: nat)
    requires body == head + " " + d + " " + ";" && |head| + 1 < c < |head| + 1 + |d|
    ensures (body + " ")[..c] == head + " " + d[..c - |head| - 1]
  {
  }

  // A record of which one or two words are left

  lemma {:induction false} Dangling(tokens: seq<string>, extra: seq<string>, i: nat, records: map<Addr, ClientRecord>)
    requires |tokens| % 4 == 0 && i % 4 == 0 && i <= |tokens| && |extra| in {1, 2}
    ensures ParseRecords(tokens + extra, i, records) ==
            var read := ParseRecords(tokens, i, records); if read.Ok? then Err(BadFormat) else read
    decreases |tokens| - i
  {
    if i < |tokens| {
      var all := tokens + extra;
      assert all[i] == tokens[i] && all[i + 1] == tokens[i + 1] && all[i + 2] == tokens[i + 2];
      var balance, lastRequest := Stoul(tokens[i + 1]), Stoi(tokens[i + 2]);
      if balance.Ok? && lastRequest.Ok? {
        var r := ClientRecord(QuadAddr(tokens[i]), balance.value, ToU32(lastRequest.value));
        Dangling(tokens, extra, i + 4, Inserted(records, r));
      }
    }
  }

  lemma DanglingSnapshot(s: string, t: string, extra: seq<string>)
    requires |Tokens(s)| % 4 == 0 && |Tokens(s)| >= 4 && |extra| in {1, 2} && Tokens(t) == Tokens(s) + extra
    ensures ParseSnapshot(t) == if ParseSnapshot(s).Ok? then Err(BadFormat) else ParseSnapshot(s)
  {
    DanglingTokens(Tokens(s), extra);
  }

  lemma DanglingTokens(tokens: seq<string>, extra: seq<string>)
    requires |tokens| % 4 == 0 && |tokens| >= 4 && |extra| in {1, 2}
    ensures ParseTokens(tokens + extra) ==
            var read := ParseTokens(tokens); if read.Ok? then Err(BadFormat) else read
  {
    Dangling(tokens, extra, 4, map[]);
  }

  lemma CleanPrefix(w: string, j: nat)
    requires Clean(w) && 0 < j <= |w|
    ensures Clean(w[..j])
  {
  }

  /** What is left of "body address balance " when it is cut behind the blank after the body. */
  lemma OneOrTwoWords(body: string, q: string, b: string, c: nat) returns (extra: seq<string>)
    requires Clean(q) && Clean(b) && |body| + 1 < c <= |body| + |q| + |b| + 3
    ensures |extra| in {1, 2} && Tokens((body + " " + q + " " + b + " ")[..c]) == Tokens(body) + extra
  {
    var text := body + " " + q + " " + b + " ";
    var j := c - |body| - 1;
    if j <= |q| {
      CleanPrefix(q, j);
      TokensAppend(body, Tokens(body), q[..j]);
      assert text[..c] == body + " " + q[..j];
      extra := [q[..j]];
    } else if j == |q| + 1 {
      TokensAppend(body, Tokens(body), q);
      BlankAfter(body + " " + q);
      assert text[..c] == body + " " + q + " ";
      extra := [q];
    } else {
      TokensAppend(body, Tokens(body), q);
      var k := if j == |q| + |b| + 2 then |b| else j - |q| - 1;
      CleanPrefix(b, k);
      TokensAppend(body + " " + q, Tokens(body) + [q], b[..k]);
      BlankAfter(body + " " + q + " " + b);
      assert text[..c] == body + " " + q + " " + b[..k] || (k == |b| && text[..c] == body + " " + q + " " + b + " ");
      assert b[..|b|] == b;
      extra := [q, b[..k]];
    }
  }

  lemma BlankAfter(s: string)
    ensures Tokens(s + " ") == Tokens(s)
  {
    TokensJoin(s, "");
    assert s + " " + "" == s + " ";
    assert Tokens(s) + [] == Tokens(s);
  }

  lemma RecordReads(l: Ledger, order: seq<Addr>, n: nat, c: nat)
    requires Keyed(l) && Enumerates(order, l.records.Keys) && c <= |SnapshotText(l, order)|
    requires InRecord(l, order, n, c)
    ensures ParseSnapshot(SnapshotText(l, order)[..c]) ==
            if Portable(Firsts(l, order, n)) then Err(BadFormat) else Err(OutOfRange)
  {
    var extra := RecordWords(l, order, n, c);
    BodyReads(l, order, n);
    DanglingRead(Upto(l, order, n), SnapshotText(l, order)[..c], extra, n, Firsts(l, order, n));
  }

  lemma DanglingRead(s: string, t: string, extra: seq<string>, n: nat, l: Ledger)
    requires |Tokens(s)| == 4 + 4 * n && |extra| in {1, 2} && Tokens(t) == Tokens(s) + extra
    requires ParseSnapshot(s) == if Portable(l) then Ok(l) else Err(OutOfRange)
    ensures ParseSnapshot(t) == if Portable(l) then Err(BadFormat) else Err(OutOfRange)
  {
    DanglingSnapshot(s, t, extra);
  }

  lemma RecordWords(l: Ledger, order: seq<Addr>, n: nat, c: nat) returns (extra: seq<string>)
    requires (forall ip :: ip in order ==> ip in l.records) && c <= |SnapshotText(l, order)|
    requires InRecord(l, order, n, c)
    ensures |extra| in {1, 2} && Tokens(SnapshotText(l, order)[..c]) == Tokens(Upto(l, order, n)) + extra
  {
    var r, body := l.records[order[n]], Upto(l, order, n);
    RecordParts(l, order, n + 1);
    TextUpto(l, order, n + 1, c);
    QuadRoundTrip(r.ip);
    extra := OneOrTwoWords(body, Quad(r.ip), Dec(r.balance), c);
    CutInHead(UptoNumber(l, order, n + 1), Number(l, order, n + 1), Upto(l, order, n + 1), c);
  }

  lemma CutInHead(head: string, d: string, body: string, c: nat)
    requires body == head + " " + d + " " + ";" && c <= |head| + 1
    ensures (body + " ")[..c] == (head + " ")[..c]
  {
  }

  lemma BodyReads(l: Ledger, order: seq<Addr>, n: nat)
    requires n <= |order| && Keyed(l) && Enumerates(order, l.records.Keys)
    ensures var l' := Firsts(l, order, n);
            ParseSnapshot(Upto(l, order, n)) == if Portable(l') then Ok(l') else Err(OutOfRange)
    ensures |Tokens(Upto(l, order, n))| == 4 + 4 * n
  {
    FirstsText(l, order, n);
    SnapshotRoundTrip(Firsts(l, order, n), order[..n]);
    TrailingBlank(Upto(l, order, n));
    BodyLaid(l, order[..n]);
  }

  // ---------------------------------------------------------------------------
  // What a listener loads
  // ---------------------------------------------------------------------------

  /** How much of a text one read takes. */
  function Cut(l: Ledger, order: seq<Addr>): nat
    requires forall ip :: ip in order ==> ip in l.records
  {
    if |SnapshotText(l, order)| <= MAXLINE then |SnapshotText(l, order)| else MAXLINE
  }

  lemma ReceivedIsCut(l: Ledger, order: seq<Addr>)
    requires forall ip :: ip in order ==> ip in l.records
    ensures Received(SnapshotText(l, order)) == SnapshotText(l, order)[..Cut(l, order)]
    ensures |Upto(l, order, 0)| <= Cut(l, order) <= |Upto(l, order, |order|)| + 1
    ensures Cut(l, order) <= |SnapshotText(l, order)|
  {
    assert order[..|order|] == order && order[..0] == [];
    HeaderLength(l);
    UptoGrows(l, order, 0, |order|);
  }

  datatype Reading = Loads(ledger: Ledger) | Fails(error: ParseError)

  /** What a listener that was sent `l` makes of it, by where the cut falls. */
  ghost predicate ReadAs(l: Ledger, order: seq<Addr>, n: nat, r: Reading)
    requires forall ip :: ip in order ==> ip in l.records
  {
    var c := Cut(l, order);
    || (BehindRecord(l, order, n, c) && r == Loads(Firsts(l, order, n)))
    || (InNumber(l, order, n, c) && exists number: U32 :: LoadsLowered(l, order, n, number, r))
    || (InRecord(l, order, n, c) && r == Fails(BadFormat))
  }

  ghost predicate LoadsLowered(l: Ledger, order: seq<Addr>, n: nat, number: U32, r: Reading)
    requires (forall ip :: ip in order ==> ip in l.records) && InNumber(l, order, n, Cut(l, order))
  {
    && number < l.records[order[n - 1]].lastRequest
    && Dec(number) == Number(l, order, n)[..Cut(l, order) - |UptoNumber(l, order, n)| - 1]
    && r == Loads(Lowered(Firsts(l, order, n), order[..n], number))
  }

  function Read(text: string): Reading {
    var parsed := ParseSnapshot(text);
    if parsed.Ok? then Loads(parsed.value) else Fails(parsed.error)
  }

  /** Whatever the ledger and the order of its records, as long as its numbers fit an `int`: a cut behind a record loads
      the records before it; a cut within a request number loads the records up to that one, with the digits that are
      left for its number; and any other cut fails.  There are no other cuts. */
  lemma ReceivedAs(l: Ledger, order: seq<Addr>) returns (n: nat)
    requires Keyed(l) && Portable(l) && Enumerates(order, l.records.Keys)
    ensures n <= |order| && ReadAs(l, order, n, Read(Received(SnapshotText(l, order))))
  {
    var c := Cut(l, order);
    ReceivedIsCut(l, order);
    n := Place(l, order, |order|, c);
    FirstsPortable(l, order, n);
    if BehindRecord(l, order, n, c) {
      BehindReads(l, order, n, c);
    } else if InNumber(l, order, n, c) {
      var number := NumberReads(l, order, n, c);
      LoweredPortable(l, order, n, number);
      assert LoadsLowered(l, order, n, number, Read(Received(SnapshotText(l, order))));
    } else {
      RecordReads(l, order, n, c);
    }
  }

  lemma FirstsPortable(l: Ledger, order: seq<Addr>, n: nat)
    requires n <= |order| && Portable(l) && forall ip :: ip in order ==> ip in l.records
    ensures Portable(Firsts(l, order, n))
  {
  }

  lemma LoweredPortable(l: Ledger, order: seq<Addr>, n: nat, number: U32)
    requires 0 < n <= |order| && Portable(l) && forall ip :: ip in order ==> ip in l.records
    requires number < l.records[order[n - 1]].lastRequest
    ensures Portable(Lowered(Firsts(l, order, n), order[..n], number))
  {
  }

  // ---------------------------------------------------------------------------
  // Numbers that are accepted again
  // ---------------------------------------------------------------------------

  /** The second ledger takes some request under a number that the first has counted. */
  ghost predicate AcceptsUsed(l: Ledger, l': Ledger) {
    exists ip: Addr, p: ReqPacket :: AcceptsUsedAs(l, l', ip, p)
  }

  ghost predicate AcceptsUsedAs(l: Ledger, l': Ledger, ip: Addr, p: ReqPacket) {
    ip in l.records && 1 <= p.seqNum <= l.records[ip].lastRequest && HandleRequest(l', ip, p).ledger != l'
  }

  lemma FirstsRefuse(l: Ledger, order: seq<Addr>, n: nat)
    requires n <= |order| && Portable(l) && forall ip :: ip in order ==> ip in l.records
    ensures !AcceptsUsed(l, Firsts(l, order, n))
  {
    var l' := Firsts(l, order, n);
    forall ip: Addr, p: ReqPacket ensures !AcceptsUsedAs(l, l', ip, p) {
      RequestActs(l', ip, p);
      if ip in l'.records && 1 <= p.seqNum <= l.records[ip].lastRequest {
        UsedIsNotNext(p.seqNum, l.records[ip].lastRequest);
      }
    }
  }

  lemma UsedIsNotNext(used: int, last: U32)
    requires 1 <= used <= last
    ensures !Congruent(used, last + 1)
  {
  }

  lemma LoweredAccepts(l: Ledger, order: seq<Addr>, n: nat, number: U32)
    requires 1 < n <= |order| && Portable(l) && Enumerates(order, l.records.Keys)
    requires number < l.records[order[n - 1]].lastRequest
    ensures AcceptsUsed(l, Lowered(Firsts(l, order, n), order[..n], number))
  {
    var l' := Lowered(Firsts(l, order, n), order[..n], number);
    var p := ReqPacket(number + 1, order[0], 1);
    assert order[..n][0] == order[0] && order[..n][n - 1] == order[n - 1];
    RequestActs(l', order[n - 1], p);
    assert Congruent(number + 1, number + 1);
    assert AcceptsUsedAs(l, l', order[n - 1], p);
  }

  /** The read stops within a number only when it has passed twenty records. */
  lemma ManyBefore(l: Ledger, order: seq<Addr>, n: nat)
    requires (forall ip :: ip in order ==> ip in l.records) && InNumber(l, order, n, Cut(l, order))
    ensures n >= 20
  {
    Lengths(l, order, n);
    LengthsGrow(l, order, n, |order|);
    assert order[..|order|] == order;
    forall ip | ip in order[..n] ensures ip in l.records {
      assert ip in order;
    }
    BodyLength(l, order[..n]);
  }

  /** A server that loads a snapshot takes a number again that the sender had counted exactly when the cut falls within
      a request number. */
  lemma AcceptsUsedExactly(l: Ledger, order: seq<Addr>, l': Ledger)
    requires Keyed(l) && Portable(l) && Enumerates(order, l.records.Keys)
    requires ParseSnapshot(Received(SnapshotText(l, order))) == Ok(l')
    ensures AcceptsUsed(l, l') <==> exists n: nat :: InNumber(l, order, n, Cut(l, order))
  {
    var n := ReceivedAs(l, order);
    var c := Cut(l, order);
    if InNumber(l, order, n, c) {
      PlacesApart(l, order, n, n, c);
      ManyBefore(l, order, n);
      var number: U32 :| LoadsLowered(l, order, n, number, Loads(l'));
      LoweredAccepts(l, order, n, number);
    } else {
      assert l' == Firsts(l, order, n);
      FirstsRefuse(l, order, n);
      forall m: nat ensures !InNumber(l, order, m, c) {
        if InNumber(l, order, m, c) {
          PlacesApart(l, order, m, n, c);
        }
      }
    }
  }

  // ---------------------------------------------------------------------------
  // Money that goes missing
  // ---------------------------------------------------------------------------

  /** The cut leaves the `n`-th record, if not its number, and nothing of the next. */
  ghost predicate Kept(l: Ledger, order: seq<Addr>, n: nat)
    requires forall ip :: ip in order ==> ip in l.records
  {
    BehindRecord(l, order, n, Cut(l, order)) || InNumber(l, order, n, Cut(l, order))
  }

  /** A client with money lies behind the cut. */
  ghost predicate MoneyBehind(l: Ledger, order: seq<Addr>)
    requires forall ip :: ip in order ==> ip in l.records
  {
    exists n: nat, k: nat :: Kept(l, order, n) && n <= k < |order| && l.records[order[k]].balance > 0
  }

  function BalancesFrom(l: Ledger, order: seq<Addr>, n: nat): nat
    requires n <= |order| && forall ip :: ip in order ==> ip in l.records
    decreases |order| - n
  {
    if n == |order| then 0 else l.records[order[n]].balance + BalancesFrom(l, order, n + 1)
  }

  lemma {:induction false} MoneyOfFirsts(l: Ledger, order: seq<Addr>, n: nat)
    requires n <= |order| && Enumerates(order, l.records.Keys)
    ensures Money(l) == Money(Firsts(l, order, n)) + BalancesFrom(l, order, n)
    decreases |order| - n
  {
    if n == |order| {
      assert order[..n] == order;
      assert Firsts(l, order, n).records == l.records;
    } else {
      MoneyOfFirsts(l, order, n + 1);
      var before, after := Firsts(l, order, n).records, Firsts(l, order, n + 1).records;
      assert order[..n + 1] == order[..n] + [order[n]];
      assert order[n] !in order[..n];
      assert after == before[order[n] := l.records[order[n]]];
      MoneyWith(before, order[n], l.records[order[n]]);
    }
  }

  lemma {:induction false} SomethingFrom(l: Ledger, order: seq<Addr>, n: nat)
    requires n <= |order| && forall ip :: ip in order ==> ip in l.records
    ensures BalancesFrom(l, order, n) > 0 <==> exists k :: n <= k < |order| && l.records[order[k]].balance > 0
    decreases |order| - n
  {
    if n < |order| {
      SomethingFrom(l, order, n + 1);
    }
  }

  lemma MoneyOfLowered(l: Ledger, order: seq<Addr>, number: U32)
    requires order != [] && forall ip :: ip in order ==> ip in l.records
    ensures Money(Lowered(l, order, number)) == Money(l)
  {
    var ip := order[|order| - 1];
    MoneyWith(l.records, ip, l.records[ip].(lastRequest := number));
  }

  lemma OnePlace(l: Ledger, order: seq<Addr>, m: nat, n: nat)
    requires (forall ip :: ip in order ==> ip in l.records) && Kept(l, order, m) && Kept(l, order, n)
    ensures m == n
  {
    var c := Cut(l, order);
    if InNumber(l, order, m, c) {
      PlacesApart(l, order, m, n, c);
    } else if InNumber(l, order, n, c) {
      PlacesApart(l, order, n, m, c);
    } else if m < n {
      BehindApart(l, order, m, n, c);
    } else if n < m {
      BehindApart(l, order, n, m, c);
    }
  }

  lemma BehindApart(l: Ledger, order: seq<Addr>, m: nat, n: nat, c: nat)
    requires (forall ip :: ip in order ==> ip in l.records) && m < n <= |order|
    ensures !(BehindRecord(l, order, m, c) && BehindRecord(l, order, n, c))
  {
    LaterLonger(l, order, m, n);
  }

  lemma LaterLonger(l: Ledger, order: seq<Addr>, m: nat, n: nat)
    requires (forall ip :: ip in order ==> ip in l.records) && m < n <= |order|
    ensures |Upto(l, order, n)| > |Upto(l, order, m)| + 3
  {
    OneLonger(l, order, n);
    LengthsGrow(l, order, m, n - 1);
  }

  lemma OneLonger(l: Ledger, order: seq<Addr>, n: nat)
    requires 0 < n <= |order| && forall ip :: ip in order ==> ip in l.records
    ensures |Upto(l, order, n)| > |Upto(l, order, n - 1)| + 3
  {
    Lengths(l, order, n);
  }

  /** What a server that loads a snapshot lacks is the money of the clients behind the cut, exactly. */
  lemma MoneyMissingExactly(l: Ledger, order: seq<Addr>, l': Ledger) returns (n: nat)
    requires Keyed(l) && Portable(l) && Enumerates(order, l.records.Keys)
    requires ParseSnapshot(Received(SnapshotText(l, order))) == Ok(l')
    ensures n <= |order| && Kept(l, order, n) && Money(l) == Money(l') + BalancesFrom(l, order, n)
    ensures Money(l') < Money(l) <==> MoneyBehind(l, order)
  {
    n := ReceivedAs(l, order);
    LoadedMoney(l, order, n, l');
    MoneyBehindFrom(l, order, n);
  }

  lemma LoadedMoney(l: Ledger, order: seq<Addr>, n: nat, l': Ledger)
    requires n <= |order| && Enumerates(order, l.records.Keys) && ReadAs(l, order, n, Loads(l'))
    ensures Kept(l, order, n) && Money(l) == Money(l') + BalancesFrom(l, order, n)
  {
    MoneyOfFirsts(l, order, n);
    if !BehindRecord(l, order, n, Cut(l, order)) {
      var number: U32 :| LoadsLowered(l, order, n, number, Loads(l'));
      MoneyOfLowered(Firsts(l, order, n), order[..n], number);
    }
  }

  lemma MoneyBehindFrom(l: Ledger, order: seq<Addr>, n: nat)
    requires n <= |order| && (forall ip :: ip in order ==> ip in l.records) && Kept(l, order, n)
    ensures MoneyBehind(l, order) <==> BalancesFrom(l, order, n) > 0
  {
    SomethingFrom(l, order, n);
    forall m: nat | Kept(l, order, m) ensures m == n {
      OnePlace(l, order, m, n);
    }
  }
}
