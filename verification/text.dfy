/** The text the programs exchange: blank-separated words, decimal numbers, dotted-quad addresses. */
module Text {
  import opened MachineInts
  import opened Wrappers

  datatype ParseError = BadFormat | NotANumber | OutOfRange

  // ---------------------------------------------------------------------------
  // Words
  // ---------------------------------------------------------------------------

  /** The characters that stream extraction skips. */
  predicate IsSpace(c: char) {
    c in {' ', '\t', '\n', '\r', '\U{0B}', '\U{0C}'}
  }

  /** Blank, and the five control characters from tab to carriage return. */
  lemma SpacesAre(c: char)
    ensures IsSpace(c) <==> c as int == 32 || 9 <= c as int <= 13
  {
    assert '\t' as int == 9 && '\n' as int == 10 && '\r' as int == 13;
  }

  predicate Clean(w: string) {
    w != "" && forall i :: 0 <= i < |w| ==> !IsSpace(w[i])
  }

  function WordEnd(s: string): (n: nat)
    ensures n <= |s|
    ensures forall i :: 0 <= i < n ==> !IsSpace(s[i])
    ensures n < |s| ==> IsSpace(s[n])
  {
    if s == "" || IsSpace(s[0]) then 0 else 1 + WordEnd(s[1..])
  }

  function Tokens(s: string): seq<string>
    decreases |s|
  {
    if s == "" then []
    else if IsSpace(s[0]) then Tokens(s[1..])
    else [s[..WordEnd(s)]] + Tokens(s[WordEnd(s)..])
  }

  lemma TokensAtBlank(s: string, i: nat)
    requires i < |s| && IsSpace(s[i])
    ensures Tokens(s[i..]) == Tokens(s[i + 1..])
  {
    assert s[i..][1..] == s[i + 1..];
  }

  lemma TokensAtWord(s: string, start: nat, end: nat)
    requires start < end <= |s|
    requires (forall k :: start <= k < end ==> !IsSpace(s[k])) && (end < |s| ==> IsSpace(s[end]))
    ensures Tokens(s[start..]) == [s[start..end]] + Tokens(s[end..])
  {
    WordEndIs(s[start..], end - start);
    assert s[start..][..end - start] == s[start..end];
    assert s[start..][end - start..] == s[end..];
  }

  /** Words are extracted from the text until none is left. */
  method Tokenize(s: string) returns (tokens: seq<string>)
    ensures tokens == Tokens(s)
  {
    tokens := [];
    var i := 0;
    while i < |s|
      invariant 0 <= i <= |s|
      invariant tokens + Tokens(s[i..]) == Tokens(s)
    {
      if IsSpace(s[i]) {
        TokensAtBlank(s, i);
        i := i + 1;
      } else {
        var start := i;
        i := FindBlank(s, start);
        TokensAtWord(s, start, i);
        assert tokens + [s[start..i]] + Tokens(s[i..]) == tokens + ([s[start..i]] + Tokens(s[i..]));
        tokens := tokens + [s[start..i]];
      }
    }
    assert s[i..] == "";
  }

  method FindBlank(s: string, start: nat) returns (i: nat)
    requires start < |s| && !IsSpace(s[start])
    ensures start < i <= |s|
    ensures forall k :: start <= k < i ==> !IsSpace(s[k])
    ensures i < |s| ==> IsSpace(s[i])
  {
    i := start + 1;
    while i < |s| && !IsSpace(s[i])
      invariant start < i <= |s|
      invariant forall k :: start <= k < i ==> !IsSpace(s[k])
    {
      i := i + 1;
    }
  }

  lemma {:induction false} WordEndIs(s: string, n: nat)
    requires n <= |s| && (forall i :: 0 <= i < n ==> !IsSpace(s[i])) && (n < |s| ==> IsSpace(s[n]))
    ensures WordEnd(s) == n
  {
    if n > 0 {
      WordEndIs(s[1..], n - 1);
    }
  }

  lemma TokensOfWord(w: string)
    requires Clean(w)
    ensures Tokens(w) == [w]
  {
    WordEndIs(w, |w|);
    assert w[..|w|] == w;
  }

  /** A blank separates: the words of two texts joined by one are the words of the first, then of the second. */
  lemma {:induction false} TokensJoin(a: string, b: string)
    ensures Tokens(a + " " + b) == Tokens(a) + Tokens(b)
    decreases |a|
  {
    var s := a + " " + b;
    if a == "" {
      assert s[1..] == b;
    } else if IsSpace(a[0]) {
      TokensJoin(a[1..], b);
      assert s[1..] == a[1..] + " " + b;
    } else {
      var n := WordEnd(a);
      WordEndIs(s, n);
      TokensJoin(a[n..], b);
      assert s[..n] == a[..n];
      assert s[n..] == a[n..] + " " + b;
    }
  }

  /** A text to which a blank and a word are appended has that word after its own. */
  lemma TokensAppend(a: string, tokens: seq<string>, w: string)
    requires Tokens(a) == tokens && Clean(w)
    ensures Tokens(a + " " + w) == tokens + [w]
  {
    TokensJoin(a, w);
    TokensOfWord(w);
  }

  // ---------------------------------------------------------------------------
  // Decimal numbers
  // ---------------------------------------------------------------------------

  predicate IsDigit(c: char) {
    '0' <= c <= '9'
  }

  function DigitChar(d: nat): (c: char)
    requires d < 10
    ensures IsDigit(c) && DigitValue(c) == d
  {
    "0123456789"[d]
  }

  function DigitValue(c: char): nat
    requires IsDigit(c)
  {
    c as int - '0' as int
  }

  predicate AllDigits(s: string) {
    forall i :: 0 <= i < |s| ==> IsDigit(s[i])
  }

  /** The decimal representation of a natural number. */
  function Dec(n: nat): (s: string)
    ensures s != "" && AllDigits(s) && Clean(s)
  {
    if n < 10 then [DigitChar(n)] else Dec(n / 10) + [DigitChar(n % 10)]
  }

  function DecInt(x: int): (s: string)
    ensures Clean(s)
  {
    if x < 0 then "-" + Dec(-x) else Dec(x)
  }

  function Value(s: string): nat
    requires AllDigits(s)
  {
    if s == "" then 0 else 10 * Value(s[..|s| - 1]) + DigitValue(s[|s| - 1])
  }

  lemma {:induction false} ValueOfDec(n: nat)
    ensures Value(Dec(n)) == n
  {
    if n >= 10 {
      ValueOfDec(n / 10);
      assert Dec(n)[..|Dec(n)| - 1] == Dec(n / 10);
    }
  }

  function Pow10(k: nat): nat {
    if k == 0 then 1 else 10 * Pow10(k - 1)
  }

  lemma {:induction false} DecLength(n: nat, k: nat)
    requires k > 0 && n < Pow10(k)
    ensures |Dec(n)| <= k
  {
    if n >= 10 {
      DecLength(n / 10, k - 1);
    }
  }

  /** The digits a number starts with; what follows them is ignored by the library's conversions. */
  function DigitRun(s: string): (n: nat)
    ensures n <= |s| && AllDigits(s[..n])
    ensures n < |s| ==> !IsDigit(s[n])
  {
    if s == "" || !IsDigit(s[0]) then 0
    else
      var n := 1 + DigitRun(s[1..]);
      assert forall i :: 1 <= i < n ==> s[i] == s[1..][i - 1];
      n
  }

  /** A sign, digits, and the rest ignored: the integer that `strtol` and `strtoul` read. */
  function Signed(s: string): Result<int, ParseError> {
    var negative := s != "" && s[0] == '-';
    var body := if s != "" && (s[0] == '-' || s[0] == '+') then s[1..] else s;
    if DigitRun(body) == 0 then Err(NotANumber)
    else
      var v: int := Value(body[..DigitRun(body)]);
      Ok(if negative then -v else v)
  }

  /** `stoi` */
  function Stoi(s: string): Result<int, ParseError> {
    var v :- Signed(s);
    if -TWO31 <= v < TWO31 then Ok(v) else Err(OutOfRange)
  }

  /** `stol` */
  function Stol(s: string): Result<int, ParseError> {
    var v :- Signed(s);
    if -TWO63 <= v < TWO63 then Ok(v) else Err(OutOfRange)
  }

  /** `stoul`: a negative number wraps, as long as its magnitude fits. */
  function Stoul(s: string): Result<int, ParseError> {
    var v :- Signed(s);
    if -TWO64 < v < TWO64 then Ok(ToU64(v)) else Err(OutOfRange)
  }

  lemma DigitRunAll(s: string)
    requires AllDigits(s)
    ensures DigitRun(s) == |s|
  {
  }

  lemma SignedOfDecInt(x: int)
    ensures Signed(DecInt(x)) == Ok(x)
  {
    var n: nat := if x < 0 then -x else x;
    DigitRunAll(Dec(n));
    ValueOfDec(n);
    assert Dec(n)[..|Dec(n)|] == Dec(n);
    assert IsDigit(Dec(n)[0]);
    if x < 0 {
      assert DecInt(x)[1..] == Dec(n);
    }
  }

  lemma SignedOfDec(n: nat)
    ensures Signed(Dec(n)) == Ok(n as int)
  {
    SignedOfDecInt(n);
  }

  lemma StoiOfDecInt(x: int)
    ensures Stoi(DecInt(x)) == if -TWO31 <= x < TWO31 then Ok(x) else Err(OutOfRange)
  {
    SignedOfDecInt(x);
  }

  lemma StolOfDecInt(x: int)
    ensures Stol(DecInt(x)) == if -TWO63 <= x < TWO63 then Ok(x) else Err(OutOfRange)
  {
    SignedOfDecInt(x);
  }

  /** A negative number is read as what it is in 64 unsigned bits. */
  lemma StoulOfDecInt(x: int)
    ensures Stoul(DecInt(x)) ==
            if -TWO64 < x < 0 then Ok(x + TWO64) else if 0 <= x < TWO64 then Ok(x) else Err(OutOfRange)
  {
    SignedOfDecInt(x);
  }

  lemma StoulOfDec(n: U64)
    ensures Stoul(Dec(n)) == Ok(n as int)
  {
    SignedOfDec(n);
  }

  lemma {:induction false} DigitRunIs(digits: string, rest: string)
    requires AllDigits(digits) && (rest == "" || !IsDigit(rest[0]))
    ensures DigitRun(digits + rest) == |digits|
    decreases |digits|
  {
    if digits == "" {
      assert digits + rest == rest;
    } else {
      DigitRunIs(digits[1..], rest);
      assert (digits + rest)[1..] == digits[1..] + rest;
    }
  }

  /** A number is read up to its last digit, whatever comes after. */
  lemma NumberRead(sign: string, digits: string, rest: string)
    requires sign == "" || sign == "+" || sign == "-"
    requires AllDigits(digits) && digits != "" && (rest == "" || !IsDigit(rest[0]))
    ensures Signed(sign + digits + rest) == Ok(if sign == "-" then -(Value(digits) as int) else Value(digits))
  {
    DigitRunIs(digits, rest);
    if sign == "" {
      assert "" + digits + rest == digits + rest;
      assert !(digits[0] == '-' || digits[0] == '+') by {
        assert IsDigit(digits[0]);
      }
      BodyRead(digits + rest, digits, rest, 0);
    } else {
      assert sign + digits + rest == sign + (digits + rest);
      BodyRead(sign + (digits + rest), digits, rest, 1);
    }
  }

  lemma BodyRead(s: string, digits: string, rest: string, skipped: nat)
    requires AllDigits(digits) && digits != "" && DigitRun(digits + rest) == |digits|
    requires skipped <= |s| && s[skipped..] == digits + rest && s != ""
    requires skipped == if s[0] == '-' || s[0] == '+' then 1 else 0
    ensures Signed(s) == Ok(if s[0] == '-' then -(Value(digits) as int) else Value(digits))
  {
    assert (digits + rest)[..|digits|] == digits;
  }

  /** There is none without a digit at the start, or after one sign. */
  lemma NoNumber(s: string)
    ensures Signed(s) == Err(NotANumber) <==>
            || s == ""
            || (s[0] != '+' && s[0] != '-' && !IsDigit(s[0]))
            || ((s[0] == '+' || s[0] == '-') && (|s| == 1 || !IsDigit(s[1])))
  {
  }

  // ---------------------------------------------------------------------------
  // Dotted quads
  // ---------------------------------------------------------------------------

  /** `inet_ntop`: the four bytes of the address in memory order, low byte first on the machines this runs on. */
  function Quad(a: Addr): string {
    Dec(a % 256) + "." + Dec(a / 256 % 256) + "." + Dec(a / 65536 % 256) + "." + Dec(a / 16777216)
  }

  function Fields(s: string): (f: seq<string>)
    ensures |f| >= 1
  {
    if s == "" then [""]
    else
      var f := Fields(s[1..]);
      if s[0] == '.' then [""] + f else [[s[0]] + f[0]] + f[1..]
  }

  /** A byte in plain decimal: no sign, no leading zero. */
  function Octet(s: string): Option<nat> {
    if 1 <= |s| <= 3 && AllDigits(s) && Value(s) < 256 && Dec(Value(s)) == s then Some(Value(s)) else None
  }

  const INADDR_NONE: Addr := 0xFFFF_FFFF

  /** `inet_addr`, on the canonical four-part form. */
  function QuadAddr(s: string): Addr {
    var f := Fields(s);
    if |f| != 4 then INADDR_NONE
    else
      match (Octet(f[0]), Octet(f[1]), Octet(f[2]), Octet(f[3]))
      case (Some(a), Some(b), Some(c), Some(d)) => Joined(a, b, c, d)
      case _ => INADDR_NONE
  }

  function Joined(a: nat, b: nat, c: nat, d: nat): Addr
  {
    ToU32(a + 256 * b + 65536 * c + 16777216 * d)
  }

  lemma {:induction false} FieldsOne(w: string)
    requires AllDigits(w)
    ensures Fields(w) == [w]
  {
    if w != "" {
      FieldsOne(w[1..]);
      assert [w[0]] + w[1..] == w;
    }
  }

  lemma {:induction false} FieldsJoin(w: string, rest: string)
    requires AllDigits(w)
    ensures Fields(w + "." + rest) == [w] + Fields(rest)
    decreases |w|
  {
    var s := w + "." + rest;
    if w == "" {
      assert s[1..] == rest;
    } else {
      FieldsJoin(w[1..], rest);
      assert s[1..] == w[1..] + "." + rest;
      assert [w[0]] + w[1..] == w;
    }
  }

  lemma OctetOfDec(n: nat)
    requires n < 256
    ensures Octet(Dec(n)) == Some(n) && |Dec(n)| <= 3
  {
    ValueOfDec(n);
    assert Pow10(3) == 1000;
    DecLength(n, 3);
  }

  lemma QuadFields(a: string, b: string, c: string, d: string)
    requires AllDigits(a) && AllDigits(b) && AllDigits(c) && AllDigits(d)
    ensures Fields(a + "." + b + "." + c + "." + d) == [a, b, c, d]
  {
    FieldsOne(d);
    FieldsJoin(c, d);
    FieldsJoin(b, c + "." + d);
    FieldsJoin(a, b + "." + (c + "." + d));
    assert a + "." + b + "." + c + "." + d == a + "." + (b + "." + (c + "." + d));
  }

  lemma BytesOf(a: Addr)
    ensures a == Joined(a % 256, a / 256 % 256, a / 65536 % 256, a / 16777216)
    ensures a / 16777216 < 256
  {
    var q := a / 256;
    var r := q / 256;
    assert a == 256 * q + a % 256 && q == 256 * r + q % 256 && r == 256 * (r / 256) + r % 256;
    assert r == a / 65536 && r / 256 == a / 16777216;
  }

  lemma QuadOfBytes(b0: nat, b1: nat, b2: nat, b3: nat)
    requires b0 < 256 && b1 < 256 && b2 < 256 && b3 < 256
    ensures var s := Dec(b0) + "." + Dec(b1) + "." + Dec(b2) + "." + Dec(b3);
            QuadAddr(s) == Joined(b0, b1, b2, b3) && |s| <= 15
  {
    OctetOfDec(b0);
    OctetOfDec(b1);
    OctetOfDec(b2);
    OctetOfDec(b3);
    QuadFields(Dec(b0), Dec(b1), Dec(b2), Dec(b3));
  }

  /** Reading a printed address gives it back. */
  lemma QuadRoundTrip(a: Addr)
    ensures QuadAddr(Quad(a)) == a
    ensures Clean(Quad(a)) && |Quad(a)| <= 15
  {
    BytesOf(a);
    QuadOfBytes(a % 256, a / 256 % 256, a / 65536 % 256, a / 16777216);
  }

  /** An address is printed byte by byte, lowest byte first. */
  lemma QuadOfJoined(b0: nat, b1: nat, b2: nat, b3: nat)
    requires b0 < 256 && b1 < 256 && b2 < 256 && b3 < 256
    ensures Joined(b0, b1, b2, b3) == b0 + 256 * b1 + 65536 * b2 + 16777216 * b3
    ensures Quad(Joined(b0, b1, b2, b3)) == Dec(b0) + "." + Dec(b1) + "." + Dec(b2) + "." + Dec(b3)
  {
    JoinedBytes(b0, b1, b2, b3);
    QuadOfBytesOf(Joined(b0, b1, b2, b3), b0, b1, b2, b3);
  }

  lemma JoinedBytes(b0: nat, b1: nat, b2: nat, b3: nat)
    requires b0 < 256 && b1 < 256 && b2 < 256 && b3 < 256
    ensures var a := Joined(b0, b1, b2, b3);
            && a == b0 + 256 * b1 + 65536 * b2 + 16777216 * b3
            && a % 256 == b0 && a / 256 % 256 == b1 && a / 65536 % 256 == b2 && a / 16777216 == b3
  {
    BytesBack(b0, b1, b2, b3);
    SmallStays(b0 + 256 * b1 + 65536 * b2 + 16777216 * b3);
  }

  lemma SmallStays(a: nat)
    requires a < TWO32
    ensures ToU32(a) == a
  {
  }

  lemma QuadOfBytesOf(a: Addr, b0: nat, b1: nat, b2: nat, b3: nat)
    requires a % 256 == b0 && a / 256 % 256 == b1 && a / 65536 % 256 == b2 && a / 16777216 == b3
    ensures Quad(a) == Dec(b0) + "." + Dec(b1) + "." + Dec(b2) + "." + Dec(b3)
  {
  }

  lemma BytesBack(b0: nat, b1: nat, b2: nat, b3: nat)
    requires b0 < 256 && b1 < 256 && b2 < 256 && b3 < 256
    ensures var a := b0 + 256 * b1 + 65536 * b2 + 16777216 * b3;
            a < TWO32 && a % 256 == b0 && a / 256 % 256 == b1 && a / 65536 % 256 == b2 && a / 16777216 == b3
  {
    var a := b0 + 256 * b1 + 65536 * b2 + 16777216 * b3;
    ByteOut(b0, b1 + 256 * b2 + 65536 * b3, a);
    ByteOut(b1, b2 + 256 * b3, a / 256);
    ByteOut(b2, b3, a / 256 / 256);
    Shifts(a);
  }

  lemma ByteOut(low: nat, high: nat, a: nat)
    requires low < 256 && a == low + 256 * high
    ensures a % 256 == low && a / 256 == high
  {
  }

  lemma Shifts(a: nat)
    ensures a / 65536 == a / 256 / 256 && a / 16777216 == a / 256 / 256 / 256
  {
  }

  /** Parts with a dot between each two. */
  function Dotted(parts: seq<string>): string
    requires |parts| >= 1
  {
    if |parts| == 1 then parts[0] else parts[0] + "." + Dotted(parts[1..])
  }

  lemma {:induction false} FieldsBack(s: string)
    ensures Dotted(Fields(s)) == s
  {
    if s != "" {
      FieldsBack(s[1..]);
      var f := Fields(s[1..]);
      if s[0] == '.' {
        assert Fields(s)[1..] == f;
        assert "" + "." + Dotted(f) == s;
      } else {
        assert Fields(s)[1..] == f[1..];
        assert [s[0]] + s[1..] == s;
        if |f| > 1 {
          assert ([s[0]] + f[0]) + "." + Dotted(f[1..]) == [s[0]] + (f[0] + "." + Dotted(f[1..]));
        }
      }
    }
  }

  lemma DottedFour(f: seq<string>)
    requires |f| == 4
    ensures Dotted(f) == f[0] + "." + f[1] + "." + f[2] + "." + f[3]
  {
    var tail := f[1..][1..];
    assert tail[0] == f[2] && tail[1..] == [f[3]];
    assert Dotted(tail) == f[2] + "." + f[3];
    assert Dotted(f[1..]) == f[1] + "." + (f[2] + "." + f[3]);
    assert f[0] + "." + (f[1] + "." + (f[2] + "." + f[3])) == f[0] + "." + f[1] + "." + f[2] + "." + f[3];
  }

  /** In this form nothing but a printed address is read as one: any other text gives the broadcast address. */
  lemma OnlyPrintedQuads(s: string)
    ensures QuadAddr(s) != INADDR_NONE ==> Quad(QuadAddr(s)) == s
  {
    var f := Fields(s);
    FieldsBack(s);
    if |f| == 4 && Octet(f[0]).Some? && Octet(f[1]).Some? && Octet(f[2]).Some? && Octet(f[3]).Some? {
      DottedFour(f);
      QuadOfJoined(Octet(f[0]).value, Octet(f[1]).value, Octet(f[2]).value, Octet(f[3]).value);
    }
  }
}
