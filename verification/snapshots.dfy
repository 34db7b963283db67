/** Whole-database snapshots as text, in whatever order the hash map enumerates its records. */
module Snapshots {
  import opened MachineInts
  import opened Wrappers
  import opened Ledgers
  import opened Text

  /** `order` lists every key once: one of the orders in which a hash map may be traversed. */
  ghost predicate Enumerates(order: seq<Addr>, keys: set<Addr>) {
    && (forall ip :: ip in order <==> ip in keys)
    && (forall i, j :: 0 <= i < j < |order| ==> order[i] != order[j])
  }

  // ---------------------------------------------------------------------------
  // Printing
  // ---------------------------------------------------------------------------

  function HeaderText(l: Ledger): string {
    DecInt(l.numTransactions) + " " + Dec(l.totalTransferred) + " " + DecInt(l.totalBalance) + " " + "#"
  }

  function RecordText(r: ClientRecord): string {
    Quad(r.ip) + " " + Dec(r.balance) + " " + Dec(r.lastRequest) + " " + ";"
  }

  /** The text without its final blank. */
  function BodyText(l: Ledger, order: seq<Addr>): string
    requires forall ip :: ip in order ==> ip in l.records
  {
    if order == [] then HeaderText(l)
    else BodyText(l, order[..|order| - 1]) + " " + RecordText(l.records[order[|order| - 1]])
  }

  function SnapshotText(l: Ledger, order: seq<Addr>): string
    requires forall ip :: ip in order ==> ip in l.records
  {
    BodyText(l, order) + " "
  }

  method SerializeMetadata(l: Ledger) returns (s: string)
    ensures s == HeaderText(l) + " "
  {
    s := DecInt(l.numTransactions) + " ";
    s := s + Dec(l.totalTransferred) + " ";
    s := s + DecInt(l.totalBalance) + " ";
    s := s + "# ";
  }

  method SerializeRecord(before: string, r: ClientRecord) returns (s: string)
    ensures s == before + RecordText(r) + " "
  {
    s := before;
    s := s + Quad(r.ip) + " ";
    s := s + Dec(r.balance) + " ";
    s := s + Dec(r.lastRequest) + " ; ";
  }

  method ToString(l: Ledger, order: seq<Addr>) returns (s: string)
    requires Enumerates(order, l.records.Keys)
    ensures s == SnapshotText(l, order)
  {
    s := SerializeMetadata(l);
    var i := 0;
    while i < |order|
      invariant 0 <= i <= |order|
      invariant s == BodyText(l, order[..i]) + " "
    {
      var before := s;
      s := SerializeRecord(s, l.records[order[i]]);
      BodyGrows(l, order, i, before, s);
      i := i + 1;
    }
    assert order[..i] == order;
  }

  lemma BodyGrows(l: Ledger, order: seq<Addr>, i: nat, before: string, after: string)
    requires (forall ip :: ip in order ==> ip in l.records) && i < |order|
    requires before == BodyText(l, order[..i]) + " " && after == before + RecordText(l.records[order[i]]) + " "
    ensures after == BodyText(l, order[..i + 1]) + " "
  {
    assert order[..i + 1][..i] == order[..i];
  }

  // ---------------------------------------------------------------------------
  // Parsing
  // ---------------------------------------------------------------------------

  /** The records from token `i` on.  A group of tokens that is cut short is read beyond the end of the list by
      the source; here it is an error. */
  function ParseRecords(tokens: seq<string>, i: nat, records: map<Addr, ClientRecord>)
    : Result<map<Addr, ClientRecord>, ParseError>
    decreases |tokens| - i
  {
    if i >= |tokens| then Ok(records)
    else if i + 2 >= |tokens| then Err(BadFormat)
    else
      var ip := QuadAddr(tokens[i]);
      var balance :- Stoul(tokens[i + 1]);
      var lastRequest :- Stoi(tokens[i + 2]);
      ParseRecords(tokens, i + 4, Inserted(records, ClientRecord(ip, balance, ToU32(lastRequest))))
  }

  /** `insert` does not overwrite. */
  function Inserted(records: map<Addr, ClientRecord>, r: ClientRecord): map<Addr, ClientRecord> {
    if r.ip in records then records else records[r.ip := r]
  }

  function ParseSnapshot(s: string): Result<Ledger, ParseError> {
    ParseTokens(Tokens(s))
  }

  function ParseTokens(tokens: seq<string>): Result<Ledger, ParseError> {
    if |tokens| < 3 then Err(BadFormat)
    else
      var numTransactions :- Stoi(tokens[0]);
      var totalTransferred :- Stoi(tokens[1]);
      var totalBalance :- Stoi(tokens[2]);
      var records :- ParseRecords(tokens, 4, map[]);
      Ok(Ledger(records, totalBalance, ToU32(totalTransferred), numTransactions))
  }

  method FromString(s: string) returns (r: Result<Ledger, ParseError>)
    ensures r == ParseSnapshot(s)
  {
    var tokens := Tokenize(s);
    if |tokens| < 3 {
      return Err(BadFormat);
    }
    var numTransactions :- Stoi(tokens[0]);
    var totalTransferred :- Stoi(tokens[1]);
    var totalBalance :- Stoi(tokens[2]);
    var records: map<Addr, ClientRecord> := map[];
    var i := 4;
    while i < |tokens|
      invariant ParseRecords(tokens, i, records) == ParseRecords(tokens, 4, map[])
    {
      if i + 2 >= |tokens| {
        return Err(BadFormat);
      }
      var balance :- Stoul(tokens[i + 1]);
      var lastRequest :- Stoi(tokens[i + 2]);
      records := Inserted(records, ClientRecord(QuadAddr(tokens[i]), balance, ToU32(lastRequest)));
      i := i + 4;
    }
    return Ok(Ledger(records, totalBalance, ToU32(totalTransferred), numTransactions));
  }

  // ---------------------------------------------------------------------------
  // Round trip
  // ---------------------------------------------------------------------------

  /** The numbers that are printed as unsigned and read as signed fit both. */
  predicate Portable(l: Ledger) {
    l.totalTransferred < TWO31 && forall ip :: ip in l.records ==> l.records[ip].lastRequest < TWO31
  }

  ghost predicate Keyed(l: Ledger) {
    forall ip :: ip in l.records ==> l.records[ip].ip == ip
  }

  predicate RecordAt(tokens: seq<string>, i: nat, r: ClientRecord) {
    && i + 4 <= |tokens|
    && tokens[i] == Quad(r.ip) && tokens[i + 1] == Dec(r.balance) && tokens[i + 2] == Dec(r.lastRequest)
    && tokens[i + 3] == ";"
  }

  ghost predicate Laid(tokens: seq<string>, l: Ledger, order: seq<Addr>)
    requires forall ip :: ip in order ==> ip in l.records
  {
    && |tokens| == 4 + 4 * |order|
    && tokens[0] == DecInt(l.numTransactions) && tokens[1] == Dec(l.totalTransferred)
    && tokens[2] == DecInt(l.totalBalance) && tokens[3] == "#"
    && forall k :: 0 <= k < |order| ==> RecordAt(tokens, 4 + 4 * k, l.records[order[k]])
  }

  lemma HeaderTokens(l: Ledger)
    ensures Tokens(HeaderText(l)) == [DecInt(l.numTransactions), Dec(l.totalTransferred), DecInt(l.totalBalance), "#"]
  {
    var n, t, b := DecInt(l.numTransactions), Dec(l.totalTransferred), DecInt(l.totalBalance);
    TokensOfWord(n);
    TokensAppend(n, [n], t);
    TokensAppend(n + " " + t, [n, t], b);
    TokensAppend(n + " " + t + " " + b, [n, t, b], "#");
  }

  lemma RecordTokens(r: ClientRecord)
    ensures Tokens(RecordText(r)) == [Quad(r.ip), Dec(r.balance), Dec(r.lastRequest), ";"]
  {
    var q, b, n := Quad(r.ip), Dec(r.balance), Dec(r.lastRequest);
    QuadRoundTrip(r.ip);
    TokensOfWord(q);
    TokensAppend(q, [q], b);
    TokensAppend(q + " " + b, [q, b], n);
    TokensAppend(q + " " + b + " " + n, [q, b, n], ";");
  }

  lemma LaidGrows(tokens: seq<string>, tail: seq<string>, l: Ledger, order: seq<Addr>)
    requires (forall ip :: ip in order ==> ip in l.records) && order != []
    requires Laid(tokens, l, order[..|order| - 1]) && RecordAt(tail, 0, l.records[order[|order| - 1]]) && |tail| == 4
    ensures Laid(tokens + tail, l, order)
  {
    var before := order[..|order| - 1];
    forall k | 0 <= k < |order| ensures RecordAt(tokens + tail, 4 + 4 * k, l.records[order[k]]) {
      RecordKept(tokens, tail, l, order, k);
    }
  }

  lemma RecordKept(tokens: seq<string>, tail: seq<string>, l: Ledger, order: seq<Addr>, k: nat)
    requires (forall ip :: ip in order ==> ip in l.records) && k < |order|
    requires Laid(tokens, l, order[..|order| - 1]) && RecordAt(tail, 0, l.records[order[|order| - 1]]) && |tail| == 4
    ensures RecordAt(tokens + tail, 4 + 4 * k, l.records[order[k]])
  {
    if k < |order| - 1 {
      assert RecordAt(tokens, 4 + 4 * k, l.records[order[..|order| - 1][k]]);
    }
  }

  lemma {:induction false} BodyLaid(l: Ledger, order: seq<Addr>)
    requires forall ip :: ip in order ==> ip in l.records
    ensures Laid(Tokens(BodyText(l, order)), l, order)
    decreases |order|
  {
    if order == [] {
      HeaderTokens(l);
    } else {
      var before, r := order[..|order| - 1], l.records[order[|order| - 1]];
      BodyLaid(l, before);
      RecordTokens(r);
      TokensJoin(BodyText(l, before), RecordText(r));
      LaidGrows(Tokens(BodyText(l, before)), Tokens(RecordText(r)), l, order);
    }
  }

  lemma SnapshotLaid(l: Ledger, order: seq<Addr>)
    requires forall ip :: ip in order ==> ip in l.records
    ensures Laid(Tokens(SnapshotText(l, order)), l, order)
  {
    BodyLaid(l, order);
    TokensJoin(BodyText(l, order), "");
    assert BodyText(l, order) + " " + "" == SnapshotText(l, order);
    assert Tokens(BodyText(l, order)) + [] == Tokens(BodyText(l, order));
  }

  /** What reading the first `k` records leaves. */
  function FirstRecords(l: Ledger, order: seq<Addr>, k: nat): map<Addr, ClientRecord>
    requires k <= |order| && forall i :: 0 <= i < |order| ==> order[i] in l.records
  {
    if k == 0 then map[] else Inserted(FirstRecords(l, order, k - 1), l.records[order[k - 1]])
  }

  lemma {:induction false} FirstRecordsAre(l: Ledger, order: seq<Addr>, k: nat)
    requires k <= |order| && Keyed(l) && Enumerates(order, l.records.Keys)
    ensures FirstRecords(l, order, k) == map ip | ip in order[..k] :: l.records[ip]
  {
    if k > 0 {
      FirstRecordsAre(l, order, k - 1);
      assert order[..k] == order[..k - 1] + [order[k - 1]];
      assert order[k - 1] !in order[..k - 1];
    }
  }

  ghost predicate PortableIn(l: Ledger, order: seq<Addr>)
    requires forall i :: 0 <= i < |order| ==> order[i] in l.records
  {
    forall j :: 0 <= j < |order| ==> l.records[order[j]].lastRequest < TWO31
  }

  /** Reading one printed record: only its request number can be out of range. */
  lemma RecordRead(tokens: seq<string>, i: nat, records: map<Addr, ClientRecord>, r: ClientRecord)
    requires RecordAt(tokens, i, r)
    ensures ParseRecords(tokens, i, records) ==
            if r.lastRequest < TWO31 then ParseRecords(tokens, i + 4, Inserted(records, r)) else Err(OutOfRange)
  {
    QuadRoundTrip(r.ip);
    StoulOfDec(r.balance);
    StoiOfDecInt(r.lastRequest);
    assert Dec(r.lastRequest) == DecInt(r.lastRequest);
    FieldsRead(tokens, i, records, r);
  }

  lemma FieldsRead(tokens: seq<string>, i: nat, records: map<Addr, ClientRecord>, r: ClientRecord)
    requires i + 4 <= |tokens|
    requires QuadAddr(tokens[i]) == r.ip && Stoul(tokens[i + 1]) == Ok(r.balance as int)
    requires Stoi(tokens[i + 2]) == if r.lastRequest < TWO31 then Ok(r.lastRequest as int) else Err(OutOfRange)
    ensures ParseRecords(tokens, i, records) ==
            if r.lastRequest < TWO31 then ParseRecords(tokens, i + 4, Inserted(records, r)) else Err(OutOfRange)
  {
  }

  lemma RecordsStep(tokens: seq<string>, i: nat, records: map<Addr, ClientRecord>, r: ClientRecord,
                    j: nat, more: map<Addr, ClientRecord>)
    requires RecordAt(tokens, i, r) && j == i + 4 && more == Inserted(records, r)
    ensures ParseRecords(tokens, i, records) ==
            if r.lastRequest < TWO31 then ParseRecords(tokens, j, more) else Err(OutOfRange)
  {
    RecordRead(tokens, i, records, r);
  }

  /** A run that either goes on or fails at each step ends well exactly when no step fails. */
  lemma {:induction false} Chain<T>(at: seq<T>, good: seq<bool>, bad: T)
    requires |at| == |good| + 1
    requires forall j :: 0 <= j < |good| ==> Linked(at, good, bad, j)
    ensures at[0] == if forall j :: 0 <= j < |good| ==> good[j] then at[|good|] else bad
  {
    if good != [] {
      assert Linked(at, good, bad, 0);
      forall j | 0 <= j < |good[1..]| ensures Linked(at[1..], good[1..], bad, j) {
        assert Linked(at, good, bad, j + 1);
      }
      Chain(at[1..], good[1..], bad);
      assert (forall j :: 0 <= j < |good| ==> good[j]) <==>
             good[0] && forall j :: 0 <= j < |good[1..]| ==> good[1..][j];
    }
  }

  ghost predicate Linked<T>(at: seq<T>, good: seq<bool>, bad: T, j: nat)
    requires |at| == |good| + 1 && j < |good|
  {
    if good[j] then at[j] == at[j + 1] else at[j] == bad
  }

  function ReadAt(tokens: seq<string>, l: Ledger, order: seq<Addr>, k: nat): Result<map<Addr, ClientRecord>, ParseError>
    requires k <= |order| && forall i :: 0 <= i < |order| ==> order[i] in l.records
  {
    ParseRecords(tokens, 4 + 4 * k, FirstRecords(l, order, k))
  }

  function Readings(tokens: seq<string>, l: Ledger, order: seq<Addr>)
    : (at: seq<Result<map<Addr, ClientRecord>, ParseError>>)
    requires forall i :: 0 <= i < |order| ==> order[i] in l.records
    ensures |at| == |order| + 1
  {
    seq(|order| + 1, k requires 0 <= k <= |order| => ReadAt(tokens, l, order, k))
  }

  function Fitting(l: Ledger, order: seq<Addr>): (good: seq<bool>)
    requires forall i :: 0 <= i < |order| ==> order[i] in l.records
    ensures |good| == |order|
    ensures forall k :: 0 <= k < |order| ==> good[k] == (l.records[order[k]].lastRequest < TWO31)
  {
    seq(|order|, k requires 0 <= k < |order| => l.records[order[k]].lastRequest < TWO31)
  }

  lemma ReadAtNext(tokens: seq<string>, l: Ledger, order: seq<Addr>, k: nat)
    requires k < |order| && forall i :: 0 <= i < |order| ==> order[i] in l.records
    requires RecordAt(tokens, 4 + 4 * k, l.records[order[k]])
    ensures Linked(Readings(tokens, l, order), Fitting(l, order), Err(OutOfRange), k)
  {
    ReadAtStep(tokens, l, order, k);
    assert Readings(tokens, l, order)[k] == ReadAt(tokens, l, order, k);
    assert Readings(tokens, l, order)[k + 1] == ReadAt(tokens, l, order, k + 1);
  }

  lemma ReadAtStep(tokens: seq<string>, l: Ledger, order: seq<Addr>, k: nat)
    requires k < |order| && forall i :: 0 <= i < |order| ==> order[i] in l.records
    requires RecordAt(tokens, 4 + 4 * k, l.records[order[k]])
    ensures ReadAt(tokens, l, order, k) ==
            if l.records[order[k]].lastRequest < TWO31 then ReadAt(tokens, l, order, k + 1) else Err(OutOfRange)
  {
    RecordsStep(tokens, 4 + 4 * k, FirstRecords(l, order, k), l.records[order[k]],
                4 + 4 * (k + 1), FirstRecords(l, order, k + 1));
  }

  lemma AllLinked(tokens: seq<string>, l: Ledger, order: seq<Addr>)
    requires forall i :: 0 <= i < |order| ==> order[i] in l.records
    requires forall k :: 0 <= k < |order| ==> RecordAt(tokens, 4 + 4 * k, l.records[order[k]])
    ensures forall k :: 0 <= k < |order| ==> Linked(Readings(tokens, l, order), Fitting(l, order), Err(OutOfRange), k)
  {
    forall k | 0 <= k < |order|
      ensures Linked(Readings(tokens, l, order), Fitting(l, order), Err(OutOfRange), k)
    {
      ReadAtNext(tokens, l, order, k);
    }
  }

  lemma ReadingEnds(tokens: seq<string>, l: Ledger, order: seq<Addr>)
    requires (forall i :: 0 <= i < |order| ==> order[i] in l.records) && |tokens| == 4 + 4 * |order|
    ensures Readings(tokens, l, order)[0] == ParseRecords(tokens, 4, map[])
    ensures Readings(tokens, l, order)[|order|] == Ok(FirstRecords(l, order, |order|))
  {
  }

  lemma RecordsRead(tokens: seq<string>, l: Ledger, order: seq<Addr>)
    requires forall i :: 0 <= i < |order| ==> order[i] in l.records
    requires |tokens| == 4 + 4 * |order|
    requires forall k :: 0 <= k < |order| ==> RecordAt(tokens, 4 + 4 * k, l.records[order[k]])
    ensures ParseRecords(tokens, 4, map[]) ==
            if PortableIn(l, order) then Ok(FirstRecords(l, order, |order|)) else Err(OutOfRange)
  {
    AllLinked(tokens, l, order);
    ReadingEnds(tokens, l, order);
    Chain(Readings(tokens, l, order), Fitting(l, order), Err(OutOfRange));
  }

  ghost predicate PortableRecords(l: Ledger) {
    forall ip :: ip in l.records ==> l.records[ip].lastRequest < TWO31
  }

  lemma AllRecordsRead(tokens: seq<string>, l: Ledger, order: seq<Addr>)
    requires Keyed(l) && Enumerates(order, l.records.Keys)
    requires |tokens| == 4 + 4 * |order|
    requires forall k :: 0 <= k < |order| ==> RecordAt(tokens, 4 + 4 * k, l.records[order[k]])
    ensures ParseRecords(tokens, 4, map[]) == if PortableRecords(l) then Ok(l.records) else Err(OutOfRange)
  {
    RecordsRead(tokens, l, order);
    RecordsWhole(l, order);
  }

  lemma RecordsWhole(l: Ledger, order: seq<Addr>)
    requires Keyed(l) && Enumerates(order, l.records.Keys)
    ensures FirstRecords(l, order, |order|) == l.records
    ensures PortableIn(l, order) <==> PortableRecords(l)
  {
    FirstRecordsAre(l, order, |order|);
    assert order[..|order|] == order;
    assert FirstRecords(l, order, |order|) == l.records;
    if PortableIn(l, order) {
      forall ip | ip in l.records ensures l.records[ip].lastRequest < TWO31 {
        var j :| 0 <= j < |order| && order[j] == ip;
      }
    }
  }

  lemma HeaderRead(s: string, l: Ledger)
    requires |Tokens(s)| >= 4
    requires Stoi(Tokens(s)[0]) == Ok(l.numTransactions as int) && Stoi(Tokens(s)[2]) == Ok(l.totalBalance as int)
    requires Stoi(Tokens(s)[1]) == if l.totalTransferred < TWO31 then Ok(l.totalTransferred as int) else Err(OutOfRange)
    requires ParseRecords(Tokens(s), 4, map[]) == if PortableRecords(l) then Ok(l.records) else Err(OutOfRange)
    ensures ParseSnapshot(s) == if Portable(l) then Ok(l) else Err(OutOfRange)
  {
  }

  /** Whatever the order of traversal, a printed snapshot is read back whole exactly when it is portable;
      otherwise reading it fails with a number out of range. */
  lemma SnapshotRoundTrip(l: Ledger, order: seq<Addr>)
    requires Keyed(l) && Enumerates(order, l.records.Keys)
    ensures ParseSnapshot(SnapshotText(l, order)) == if Portable(l) then Ok(l) else Err(OutOfRange)
  {
    SnapshotLaid(l, order);
    AllRecordsRead(Tokens(SnapshotText(l, order)), l, order);
    NumbersRead(l);
    HeaderRead(SnapshotText(l, order), l);
  }

  lemma NumbersRead(l: Ledger)
    ensures Stoi(DecInt(l.numTransactions)) == Ok(l.numTransactions as int)
    ensures Stoi(DecInt(l.totalBalance)) == Ok(l.totalBalance as int)
    ensures Stoi(Dec(l.totalTransferred)) ==
            if l.totalTransferred < TWO31 then Ok(l.totalTransferred as int) else Err(OutOfRange)
  {
    StoiOfDecInt(l.numTransactions);
    StoiOfDecInt(l.totalTransferred);
    StoiOfDecInt(l.totalBalance);
    assert Dec(l.totalTransferred) == DecInt(l.totalTransferred);
  }

  // ---------------------------------------------------------------------------
  // Any text
  // ---------------------------------------------------------------------------

  /** The record that starts at word `j` has an address, a balance and a request number. */
  predicate Reads(tokens: seq<string>, j: nat) {
    j + 2 < |tokens| && Stoul(tokens[j + 1]).Ok? && Stoi(tokens[j + 2]).Ok?
  }

  function ReadRecord(tokens: seq<string>, j: nat): ClientRecord
    requires Reads(tokens, j)
  {
    ClientRecord(QuadAddr(tokens[j]), Stoul(tokens[j + 1]).value, ToU32(Stoi(tokens[j + 2]).value))
  }

  ghost predicate AllRead(tokens: seq<string>, i: nat) {
    forall j :: i <= j < |tokens| && (j - i) % 4 == 0 ==> Reads(tokens, j)
  }

  lemma AllReadNext(tokens: seq<string>, i: nat)
    requires i < |tokens|
    ensures AllRead(tokens, i) <==> Reads(tokens, i) && AllRead(tokens, i + 4)
  {
    if AllRead(tokens, i) {
      forall j | i + 4 <= j < |tokens| && (j - (i + 4)) % 4 == 0 ensures Reads(tokens, j) {
        EveryFourth(j - i);
      }
    }
    if Reads(tokens, i) && AllRead(tokens, i + 4) {
      forall j | i < j < |tokens| && (j - i) % 4 == 0 ensures Reads(tokens, j) {
        EveryFourth(j - i);
      }
    }
  }

  lemma EveryFourth(d: int)
    requires d > 0
    ensures d % 4 == 0 <==> d >= 4 && (d - 4) % 4 == 0
  {
  }

  /** Records are read to the end exactly when each of them can be. */
  lemma {:induction false} RecordsParseExactly(tokens: seq<string>, i: nat, records: map<Addr, ClientRecord>)
    ensures ParseRecords(tokens, i, records).Ok? <==> AllRead(tokens, i)
    decreases |tokens| - i
  {
    if i < |tokens| {
      AllReadNext(tokens, i);
      if Reads(tokens, i) {
        RecordsParseExactly(tokens, i + 4, Inserted(records, ReadRecord(tokens, i)));
      }
    }
  }

  /** The word at which the first record for this address starts. */
  function FirstFor(tokens: seq<string>, i: nat, ip: Addr): (j: Option<nat>)
    ensures j.Some? ==> i <= j.value < |tokens| && QuadAddr(tokens[j.value]) == ip
    decreases |tokens| - i
  {
    if i >= |tokens| then None else if QuadAddr(tokens[i]) == ip then Some(i) else FirstFor(tokens, i + 4, ip)
  }

  /** Of several records for one address the first counts, and there are no others than those of the text. */
  lemma {:induction false} FirstRecordCounts(tokens: seq<string>, i: nat, records: map<Addr, ClientRecord>, ip: Addr)
    requires ParseRecords(tokens, i, records).Ok?
    ensures var read, j := ParseRecords(tokens, i, records).value, FirstFor(tokens, i, ip);
            if ip in records then ip in read && read[ip] == records[ip]
            else if j.Some? then ip in read && Reads(tokens, j.value) && read[ip] == ReadRecord(tokens, j.value)
            else ip !in read
    decreases |tokens| - i
  {
    if i < |tokens| {
      RecordsParseExactly(tokens, i, records);
      AllReadNext(tokens, i);
      FirstRecordCounts(tokens, i + 4, Inserted(records, ReadRecord(tokens, i)), ip);
    }
  }

  /** A text is a snapshot exactly when it has three numbers that fit an `int`, a word that is not looked at, and
      records that can all be read. */
  lemma ParsesExactly(s: string)
    ensures var tokens := Tokens(s);
            && (ParseSnapshot(s).Ok? <==>
                 && |tokens| >= 3 && Stoi(tokens[0]).Ok? && Stoi(tokens[1]).Ok? && Stoi(tokens[2]).Ok?
                 && AllRead(tokens, 4))
            && (ParseSnapshot(s).Ok? ==>
                 var l := ParseSnapshot(s).value;
                 && l.numTransactions == Stoi(tokens[0]).value
                 && l.totalTransferred == ToU32(Stoi(tokens[1]).value)
                 && l.totalBalance == Stoi(tokens[2]).value
                 && forall ip :: ip in l.records <==> FirstFor(tokens, 4, ip).Some?)
  {
    var tokens := Tokens(s);
    RecordsParseExactly(tokens, 4, map[]);
    if ParseSnapshot(s).Ok? {
      forall ip: Addr ensures ip in ParseSnapshot(s).value.records <==> FirstFor(tokens, 4, ip).Some? {
        FirstRecordCounts(tokens, 4, map[], ip);
      }
    }
  }

  // ---------------------------------------------------------------------------
  // Length
  // ---------------------------------------------------------------------------

  lemma DigitBounds()
    ensures Pow10(10) == 10000000000 && Pow10(20) == 100000000000000000000
  {
    assert Pow10(5) == 100000;
    assert Pow10(10) == 100000 * Pow10(5);
    assert Pow10(15) == 100000 * Pow10(10);
    assert Pow10(20) == 100000 * Pow10(15);
  }

  lemma HeaderLength(l: Ledger)
    ensures |HeaderText(l)| <= 36
  {
    DigitBounds();
    DecLength(if l.numTransactions < 0 then -(l.numTransactions as int) else l.numTransactions, 10);
    DecLength(if l.totalBalance < 0 then -(l.totalBalance as int) else l.totalBalance, 10);
    DecLength(l.totalTransferred, 10);
  }

  lemma RecordLength(r: ClientRecord)
    ensures |RecordText(r)| <= 49
  {
    DigitBounds();
    QuadRoundTrip(r.ip);
    DecLength(r.balance, 20);
    DecLength(r.lastRequest, 10);
  }

  lemma {:induction false} BodyLength(l: Ledger, order: seq<Addr>)
    requires forall ip :: ip in order ==> ip in l.records
    ensures |BodyText(l, order)| <= 36 + 50 * |order|
    decreases |order|
  {
    if order == [] {
      HeaderLength(l);
    } else {
      BodyLength(l, order[..|order| - 1]);
      RecordLength(l.records[order[|order| - 1]]);
    }
  }

  const MAXLINE := 1024

  /** What the listener's read leaves of a datagram. */
  function Received(s: string): string {
    if |s| <= MAXLINE then s else s[..MAXLINE]
  }

  /** A snapshot of n clients takes at most 37 + 50 n characters, so that one of up to 19 arrives whole. */
  lemma SnapshotLength(l: Ledger, order: seq<Addr>)
    requires forall ip :: ip in order ==> ip in l.records
    ensures |SnapshotText(l, order)| <= 37 + 50 * |order|
    ensures |order| <= 19 ==> Received(SnapshotText(l, order)) == SnapshotText(l, order)
  {
    BodyLength(l, order);
  }
}
