/** Snapshots that are cut off: how much may be missing from the end of one before it is no longer itself. */
module Truncation {
  import opened MachineInts
  import opened Wrappers
  import opened Text
  import opened Ledgers
  import opened Snapshots

  // ---------------------------------------------------------------------------
  // Beginnings of texts and of numbers
  // ---------------------------------------------------------------------------

  /** The beginning of a text has no more words than the whole. */
  lemma {:induction false} FewerTokens(s: string, k: nat)
    requires k <= |s|
    ensures |Tokens(s[..k])| <= |Tokens(s)|
    decreases |s|
  {
    var p := s[..k];
    if k > 0 {
      if IsSpace(s[0]) {
        FewerTokens(s[1..], k - 1);
        assert p[1..] == s[1..][..k - 1];
      } else {
        var n := WordEnd(s);
        if k <= n {
          WordEndIs(p, k);
          assert p[k..] == "";
        } else {
          WordEndIs(p, n);
          FewerTokens(s[n..], k - n);
          Slices(s, n, k);
        }
      }
    }
  }

  lemma Slices(s: string, n: nat, k: nat)
    requires n <= k <= |s|
    ensures s[..k][n..] == s[n..][..k - n]
  {
  }

  /** The beginning of a printed number is a smaller printed number. */
  lemma {:induction false} DecPrefix(n: nat, j: nat) returns (m: nat)
    requires 0 < j < |Dec(n)|
    ensures Dec(m) == Dec(n)[..j] && m < n
  {
    if j == |Dec(n)| - 1 {
      m := n / 10;
    } else {
      m := DecPrefix(n / 10, j);
      assert Dec(n / 10)[..j] == Dec(n)[..j];
    }
  }

  // ---------------------------------------------------------------------------
  // Too few words
  // ---------------------------------------------------------------------------

  /** Every record takes four words, of which the last may be missing at the very end. */
  lemma {:induction false} RecordsNeedTokens(tokens: seq<string>, i: nat, records: map<Addr, ClientRecord>)
    requires var out := ParseRecords(tokens, i, records); out.Ok? && |out.value| > |records|
    ensures i + 4 * (|ParseRecords(tokens, i, records).value| - |records|) <= |tokens| + 1
    decreases |tokens| - i
  {
    var r := ClientRecord(QuadAddr(tokens[i]), Stoul(tokens[i + 1]).value, ToU32(Stoi(tokens[i + 2]).value));
    var more := Inserted(records, r);
    assert ParseRecords(tokens, i, records) == ParseRecords(tokens, i + 4, more);
    InsertedSize(records, r);
    if |ParseRecords(tokens, i + 4, more).value| > |more| {
      RecordsNeedTokens(tokens, i + 4, more);
    }
  }

  lemma InsertedSize(records: map<Addr, ClientRecord>, r: ClientRecord)
    ensures |Inserted(records, r)| <= |records| + 1
  {
    if r.ip !in records {
      assert records[r.ip := r].Keys == records.Keys + {r.ip};
      assert |records[r.ip := r]| == |records[r.ip := r].Keys|;
    }
  }

  lemma TooFewTokens(s: string, l: Ledger)
    requires l.records != map[] && |Tokens(s)| < 4 * |l.records| + 3
    ensures ParseSnapshot(s) != Ok(l)
  {
    var out := ParseRecords(Tokens(s), 4, map[]);
    if out.Ok? && |out.value| == |l.records| {
      RecordsNeedTokens(Tokens(s), 4, map[]);
    }
  }

  // ---------------------------------------------------------------------------
  // The last separator
  // ---------------------------------------------------------------------------

  /** The semicolon of the last record is not missed. */
  lemma {:induction false} LastSeparatorIdle(tokens: seq<string>, i: nat, records: map<Addr, ClientRecord>)
    requires |tokens| % 4 == 3 && i % 4 == 0
    ensures ParseRecords(tokens + [";"], i, records) == ParseRecords(tokens, i, records)
    decreases |tokens| + 1 - i
  {
    if i < |tokens| {
      assert i + 2 < |tokens|;
      var balance, lastRequest := Stoul(tokens[i + 1]), Stoi(tokens[i + 2]);
      if balance.Ok? && lastRequest.Ok? {
        var r := ClientRecord(QuadAddr(tokens[i]), balance.value, ToU32(lastRequest.value));
        LastSeparatorIdle(tokens, i + 4, Inserted(records, r));
      }
    }
  }

  lemma SeparatorMissing(s: string, t: string)
    requires Tokens(t) == Tokens(s) + [";"] && |Tokens(s)| % 4 == 3
    ensures ParseSnapshot(s) == ParseSnapshot(t)
  {
    assert forall k :: 0 <= k < 3 ==> Tokens(t)[k] == Tokens(s)[k];
    LastSeparatorIdle(Tokens(s), 4, map[]);
  }

  // ---------------------------------------------------------------------------
  // Where a snapshot can be cut
  // ---------------------------------------------------------------------------

  function Last(l: Ledger, order: seq<Addr>): ClientRecord
    requires order != [] && forall ip :: ip in order ==> ip in l.records
  {
    l.records[order[|order| - 1]]
  }

  /** A snapshot up to, and without, its last request number. */
  function Head(l: Ledger, order: seq<Addr>): string
    requires order != [] && forall ip :: ip in order ==> ip in l.records
  {
    BodyText(l, order[..|order| - 1]) + " " + Quad(Last(l, order).ip) + " " + Dec(Last(l, order).balance)
  }

  lemma Regroup(b: string, q: string, n: string, d: string)
    ensures b + " " + (q + " " + n + " " + d + " " + ";") == (b + " " + q + " " + n) + " " + d + " " + ";"
  {
  }

  lemma Parts(l: Ledger, order: seq<Addr>)
    requires order != [] && forall ip :: ip in order ==> ip in l.records
    ensures BodyText(l, order) == Head(l, order) + " " + Dec(Last(l, order).lastRequest) + " " + ";"
    ensures SnapshotText(l, order) == BodyText(l, order) + " "
  {
    var r := Last(l, order);
    Regroup(BodyText(l, order[..|order| - 1]), Quad(r.ip), Dec(r.balance), Dec(r.lastRequest));
  }

  lemma HeadTokens(l: Ledger, order: seq<Addr>)
    requires order != [] && forall ip :: ip in order ==> ip in l.records
    ensures |Tokens(Head(l, order))| == 4 * |order| + 2
  {
    var b, r := BodyText(l, order[..|order| - 1]), Last(l, order);
    BodyLaid(l, order[..|order| - 1]);
    QuadRoundTrip(r.ip);
    TokensAppend(b, Tokens(b), Quad(r.ip));
    TokensAppend(b + " " + Quad(r.ip), Tokens(b) + [Quad(r.ip)], Dec(r.balance));
  }

  /** Reading a snapshot whose end was cut off after the last request number gives what the whole gives. */
  lemma UpToLastNumber(l: Ledger, order: seq<Addr>)
    requires order != [] && Keyed(l) && Enumerates(order, l.records.Keys)
    ensures var s := Head(l, order) + " " + Dec(Last(l, order).lastRequest);
            ParseSnapshot(s) == (if Portable(l) then Ok(l) else Err(OutOfRange)) &&
            ParseSnapshot(s + " ") == ParseSnapshot(s)
    ensures ParseSnapshot(BodyText(l, order)) == if Portable(l) then Ok(l) else Err(OutOfRange)
  {
    var s := Head(l, order) + " " + Dec(Last(l, order).lastRequest);
    LastNumberTokens(l, order);
    SeparatorMissing(s, BodyText(l, order));
    SnapshotRoundTrip(l, order);
    TrailingBlank(BodyText(l, order));
    TrailingBlank(s);
  }

  lemma LastNumberTokens(l: Ledger, order: seq<Addr>)
    requires order != [] && forall ip :: ip in order ==> ip in l.records
    ensures var s := Head(l, order) + " " + Dec(Last(l, order).lastRequest);
            |Tokens(s)| % 4 == 3 && Tokens(BodyText(l, order)) == Tokens(s) + [";"]
  {
    Parts(l, order);
    HeadTokens(l, order);
    NumberAndSeparator(Head(l, order), Dec(Last(l, order).lastRequest), BodyText(l, order), |order|);
  }

  lemma NumberAndSeparator(head: string, d: string, body: string, n: nat)
    requires Clean(d) && body == head + " " + d + " " + ";" && |Tokens(head)| == 4 * n + 2
    ensures |Tokens(head + " " + d)| % 4 == 3
    ensures Tokens(body) == Tokens(head + " " + d) + [";"]
  {
    TokensAppend(head, Tokens(head), d);
    TokensAppend(head + " " + d, Tokens(head + " " + d), ";");
  }

  lemma TrailingBlank(s: string)
    ensures ParseSnapshot(s + " ") == ParseSnapshot(s)
  {
    TokensJoin(s, "");
    assert s + " " + "" == s + " ";
    assert Tokens(s) + [] == Tokens(s);
  }

  /** The same ledger with a smaller last number. */
  function Lowered(l: Ledger, order: seq<Addr>, number: U32): Ledger
    requires order != [] && forall ip :: ip in order ==> ip in l.records
  {
    var ip := order[|order| - 1];
    l.(records := l.records[ip := l.records[ip].(lastRequest := number)])
  }

  lemma {:induction false} SameBody(l: Ledger, l': Ledger, order: seq<Addr>)
    requires forall ip :: ip in order ==> ip in l.records && ip in l'.records && l'.records[ip] == l.records[ip]
    requires HeaderText(l') == HeaderText(l)
    ensures BodyText(l', order) == BodyText(l, order)
    decreases |order|
  {
    if order != [] {
      SameBody(l, l', order[..|order| - 1]);
    }
  }

  lemma LoweredHead(l: Ledger, order: seq<Addr>, number: U32)
    requires order != [] && Keyed(l) && Enumerates(order, l.records.Keys)
    ensures var l' := Lowered(l, order, number);
            && Keyed(l') && Enumerates(order, l'.records.Keys)
            && Head(l', order) == Head(l, order) && Last(l', order).lastRequest == number
  {
    var l' := Lowered(l, order, number);
    assert l'.records.Keys == l.records.Keys;
    assert order[|order| - 1] !in order[..|order| - 1];
    SameBody(l, l', order[..|order| - 1]);
  }

  /** Cut within the last number, a portable snapshot is read, without an error, as one with a smaller number
      there. */
  lemma CutNumber(l: Ledger, order: seq<Addr>, j: nat) returns (number: U32)
    requires order != [] && Keyed(l) && Enumerates(order, l.records.Keys)
    requires 0 < j < |Dec(Last(l, order).lastRequest)|
    ensures number < Last(l, order).lastRequest && Lowered(l, order, number) != l
    ensures Dec(number) == Dec(Last(l, order).lastRequest)[..j]
    ensures ParseSnapshot(Head(l, order) + " " + Dec(Last(l, order).lastRequest)[..j]) ==
            if Portable(Lowered(l, order, number)) then Ok(Lowered(l, order, number)) else Err(OutOfRange)
  {
    number := DecPrefix(Last(l, order).lastRequest, j);
    LoweredHead(l, order, number);
    UpToLastNumber(Lowered(l, order, number), order);
    LoweredDiffers(l, order, number);
  }

  lemma LoweredDiffers(l: Ledger, order: seq<Addr>, number: U32)
    requires order != [] && (forall ip :: ip in order ==> ip in l.records) && number != Last(l, order).lastRequest
    ensures Lowered(l, order, number) != l
  {
    assert Lowered(l, order, number).records[order[|order| - 1]] != l.records[order[|order| - 1]];
  }

  lemma {:induction false} EnumeratedSize(order: seq<Addr>, keys: set<Addr>)
    requires Enumerates(order, keys)
    ensures |keys| == |order|
    decreases |order|
  {
    if order == [] {
      assert keys == {};
    } else {
      var n := |order| - 1;
      assert forall ip :: ip in order[..n] <==> ip in keys - {order[n]};
      EnumeratedSize(order[..n], keys - {order[n]});
    }
  }

  /** Cut before the last number, a snapshot has lost a record. */
  lemma CutHead(l: Ledger, order: seq<Addr>, c: nat)
    requires order != [] && Enumerates(order, l.records.Keys) && c <= |Head(l, order)| + 1
    ensures ParseSnapshot((Head(l, order) + " ")[..c]) != Ok(l)
  {
    var s := Head(l, order) + " ";
    FewerTokens(s, c);
    HeadTokens(l, order);
    TokensJoin(Head(l, order), "");
    assert Head(l, order) + " " + "" == s;
    EnumeratedSize(order, l.records.Keys);
    assert |l.records| == |l.records.Keys|;
    TooFewTokens(s[..c], l);
  }

  lemma CutSmall(l: Ledger, order: seq<Addr>, c: nat)
    requires order != [] && Keyed(l) && Enumerates(order, l.records.Keys)
    requires var t := |SnapshotText(l, order)|; t - 3 <= c <= t
    ensures ParseSnapshot(SnapshotText(l, order)[..c]) == if Portable(l) then Ok(l) else Err(OutOfRange)
  {
    var text, body := SnapshotText(l, order), BodyText(l, order);
    var s := Head(l, order) + " " + Dec(Last(l, order).lastRequest);
    Parts(l, order);
    UpToLastNumber(l, order);
    SnapshotRoundTrip(l, order);
    CutEnd(s, body, text, c);
  }

  lemma CutEnd(s: string, body: string, text: string, c: nat)
    requires body == s + " " + ";" && text == body + " " && |text| - 3 <= c <= |text|
    ensures text[..c] in {s, s + " ", body, text}
  {
    assert c == |text| - 3 ==> text[..c] == s;
    assert c == |text| - 2 ==> text[..c] == s + " ";
    assert c == |text| - 1 ==> text[..c] == body;
    assert c == |text| ==> text[..c] == text;
  }

  lemma CutDeep(l: Ledger, order: seq<Addr>, c: nat)
    requires order != [] && Keyed(l) && Enumerates(order, l.records.Keys)
    requires c < |SnapshotText(l, order)| - 3
    ensures ParseSnapshot(SnapshotText(l, order)[..c]) != Ok(l)
  {
    Parts(l, order);
    if c <= |Head(l, order)| + 1 {
      CutHead(l, order, c);
      CutBefore(Head(l, order), Dec(Last(l, order).lastRequest), SnapshotText(l, order), c);
    } else {
      CutDeepNumber(l, order, c);
    }
  }

  lemma CutDeepNumber(l: Ledger, order: seq<Addr>, c: nat)
    requires order != [] && Keyed(l) && Enumerates(order, l.records.Keys)
    requires |Head(l, order)| + 1 < c < |SnapshotText(l, order)| - 3
    ensures ParseSnapshot(SnapshotText(l, order)[..c]) != Ok(l)
  {
    DeepText(l, order, c);
    CutNumberDiffers(l, order, c - |Head(l, order)| - 1, SnapshotText(l, order)[..c]);
  }

  lemma DeepText(l: Ledger, order: seq<Addr>, c: nat)
    requires order != [] && forall ip :: ip in order ==> ip in l.records
    requires |Head(l, order)| + 1 < c < |SnapshotText(l, order)| - 3
    ensures 0 < c - |Head(l, order)| - 1 < |Dec(Last(l, order).lastRequest)|
    ensures SnapshotText(l, order)[..c] ==
            Head(l, order) + " " + Dec(Last(l, order).lastRequest)[..c - |Head(l, order)| - 1]
  {
    Parts(l, order);
    CutWithin(Head(l, order), Dec(Last(l, order).lastRequest), SnapshotText(l, order), c);
  }

  lemma CutNumberDiffers(l: Ledger, order: seq<Addr>, j: nat, text: string)
    requires order != [] && Keyed(l) && Enumerates(order, l.records.Keys)
    requires 0 < j < |Dec(Last(l, order).lastRequest)|
    requires text == Head(l, order) + " " + Dec(Last(l, order).lastRequest)[..j]
    ensures ParseSnapshot(text) != Ok(l)
  {
    var _ := CutNumber(l, order, j);
  }

  lemma CutBefore(head: string, d: string, text: string, c: nat)
    requires text == head + " " + d + " " + ";" + " " && c <= |head| + 1
    ensures text[..c] == (head + " ")[..c]
  {
  }

  lemma CutWithin(head: string, d: string, text: string, c: nat)
    requires text == head + " " + d + " " + ";" + " " && |head| + 1 < c < |text| - 3
    ensures text[..c] == head + " " + d[..c - |head| - 1]
  {
  }

  /** The listener gets back the ledger that was sent exactly when it is portable and its text is at most three
      characters longer than what one read takes. */
  lemma ReceivedExactly(l: Ledger, order: seq<Addr>)
    requires Keyed(l) && Enumerates(order, l.records.Keys)
    ensures ParseSnapshot(Received(SnapshotText(l, order))) == Ok(l) <==>
            Portable(l) && |SnapshotText(l, order)| <= MAXLINE + 3
  {
    var text := SnapshotText(l, order);
    if |text| <= MAXLINE {
      SnapshotRoundTrip(l, order);
    } else {
      SnapshotLength(l, order);
      if |text| <= MAXLINE + 3 {
        CutSmall(l, order, MAXLINE);
      } else {
        CutDeep(l, order, MAXLINE);
      }
    }
  }

  // ---------------------------------------------------------------------------
  // Too many clients
  // ---------------------------------------------------------------------------

  lemma QuadAtLeast(a: Addr)
    ensures |Quad(a)| >= 7
  {
  }

  lemma {:induction false} BodyAtLeast(l: Ledger, order: seq<Addr>)
    requires forall ip :: ip in order ==> ip in l.records
    ensures |BodyText(l, order)| >= 7 + 14 * |order|
    decreases |order|
  {
    if order != [] {
      BodyAtLeast(l, order[..|order| - 1]);
      QuadAtLeast(l.records[order[|order| - 1]].ip);
    }
  }

  /** From 73 clients on no snapshot is ever received as it was sent. */
  lemma NeverFits(l: Ledger, order: seq<Addr>)
    requires Keyed(l) && Enumerates(order, l.records.Keys)
    ensures |SnapshotText(l, order)| >= 8 + 14 * |order|
    ensures |order| >= 73 ==> ParseSnapshot(Received(SnapshotText(l, order))) != Ok(l)
  {
    BodyAtLeast(l, order);
    ReceivedExactly(l, order);
  }
}
