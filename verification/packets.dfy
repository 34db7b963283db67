/** The request and acknowledgement packets, printed and parsed. */
module Packets {
  import opened MachineInts
  import opened Wrappers
  import opened Text

  datatype ReqPacket = ReqPacket(seqNum: I64, receiver: Addr, amount: U64)

  datatype AckPacket = AckPacket(
    seqNum: I64, result: string, newBalance: U64, sender: Addr, receiver: Addr, amount: U64)

  datatype PacketType = REQ | ACK | ERR | KIL

  function PrintReq(p: ReqPacket): string {
    "REQ" + " " + DecInt(p.seqNum) + " " + Quad(p.receiver) + " " + Dec(p.amount) + " " + "END"
  }

  function PrintAck(p: AckPacket): string {
    "ACK" + " " + DecInt(p.seqNum) + " " + p.result + " " + Dec(p.newBalance) + " " + Quad(p.sender) + " " +
    Quad(p.receiver) + " " + Dec(p.amount) + " " + "END"
  }

  /** What the client sends to leave. */
  const KIL_TEXT := "KIL END"

  function ParseReq(s: string): Result<ReqPacket, ParseError> {
    var tokens := Tokens(s);
    if |tokens| != 5 || tokens[0] != "REQ" || tokens[4] != "END" then Err(BadFormat)
    else
      var seqNum :- Stol(tokens[1]);
      var amount :- Stoul(tokens[3]);
      Ok(ReqPacket(seqNum, QuadAddr(tokens[2]), amount))
  }

  function ParseAck(s: string): Result<AckPacket, ParseError> {
    var tokens := Tokens(s);
    if |tokens| != 8 || tokens[0] != "ACK" || tokens[7] != "END" then Err(BadFormat)
    else
      var seqNum :- Stol(tokens[1]);
      var newBalance :- Stoul(tokens[3]);
      var amount :- Stoul(tokens[6]);
      Ok(AckPacket(seqNum, tokens[2], newBalance, QuadAddr(tokens[4]), QuadAddr(tokens[5]), amount))
  }

  predicate ParsesAsKil(s: string) {
    Tokens(s) == ["KIL", "END"]
  }

  /** The first three characters, or what there is. */
  function Tag(s: string): string {
    if |s| < 3 then s else s[..3]
  }

  function TypeOf(s: string): PacketType {
    if Tag(s) == "REQ" then REQ
    else if Tag(s) == "ACK" then ACK
    else if Tag(s) == "ERR" then ERR
    else if Tag(s) == "KIL" then KIL
    else ERR
  }

  method ReqToString(p: ReqPacket) returns (s: string)
    ensures s == PrintReq(p)
  {
    s := "REQ";
    s := s + " " + DecInt(p.seqNum);
    s := s + " " + Quad(p.receiver);
    s := s + " " + Dec(p.amount);
    s := s + " " + "END";
  }

  method AckToString(p: AckPacket) returns (s: string)
    ensures s == PrintAck(p)
  {
    s := "ACK";
    s := s + " " + DecInt(p.seqNum);
    s := s + " " + p.result;
    s := s + " " + Dec(p.newBalance);
    s := s + " " + Quad(p.sender);
    s := s + " " + Quad(p.receiver);
    s := s + " " + Dec(p.amount);
    s := s + " " + "END";
  }

  method ToReqPacket(s: string) returns (r: Result<ReqPacket, ParseError>)
    ensures r == ParseReq(s)
  {
    var tokens := Tokenize(s);
    if |tokens| != 5 || tokens[0] != "REQ" || tokens[4] != "END" {
      return Err(BadFormat);
    }
    var seqNum :- Stol(tokens[1]);
    var receiver := QuadAddr(tokens[2]);
    var amount :- Stoul(tokens[3]);
    return Ok(ReqPacket(seqNum, receiver, amount));
  }

  method ToAckPacket(s: string) returns (r: Result<AckPacket, ParseError>)
    ensures r == ParseAck(s)
  {
    var tokens := Tokenize(s);
    if |tokens| != 8 || tokens[0] != "ACK" || tokens[7] != "END" {
      return Err(BadFormat);
    }
    var seqNum :- Stol(tokens[1]);
    var newBalance :- Stoul(tokens[3]);
    var sender := QuadAddr(tokens[4]);
    var receiver := QuadAddr(tokens[5]);
    var amount :- Stoul(tokens[6]);
    return Ok(AckPacket(seqNum, tokens[2], newBalance, sender, receiver, amount));
  }

  method ToKilPacket(s: string) returns (ok: bool)
    ensures ok <==> ParsesAsKil(s)
  {
    var tokens := Tokenize(s);
    return !(|tokens| != 2 || tokens[0] != "KIL" || tokens[1] != "END");
  }

  // ---------------------------------------------------------------------------
  // Round trips
  // ---------------------------------------------------------------------------

  lemma ReqTokens(p: ReqPacket)
    ensures Tokens(PrintReq(p)) == ["REQ", DecInt(p.seqNum), Quad(p.receiver), Dec(p.amount), "END"]
  {
    QuadRoundTrip(p.receiver);
    TokensOfWord("REQ");
    TokensAppend("REQ", ["REQ"], DecInt(p.seqNum));
    TailTokens("REQ" + " " + DecInt(p.seqNum), ["REQ", DecInt(p.seqNum)], Quad(p.receiver), Dec(p.amount));
  }

  /** Every request survives the wire. */
  lemma ReqRoundTrip(p: ReqPacket)
    ensures ParseReq(PrintReq(p)) == Ok(p)
  {
    ReqTokens(p);
    StolOfDecInt(p.seqNum);
    StoulOfDec(p.amount);
    QuadRoundTrip(p.receiver);
  }

  lemma AckTokens(p: AckPacket)
    requires Clean(p.result)
    ensures Tokens(PrintAck(p)) ==
            ["ACK", DecInt(p.seqNum), p.result, Dec(p.newBalance), Quad(p.sender), Quad(p.receiver),
             Dec(p.amount), "END"]
  {
    QuadRoundTrip(p.sender);
    QuadRoundTrip(p.receiver);
    AckHead(DecInt(p.seqNum), p.result, Dec(p.newBalance), Quad(p.sender));
    TailTokens("ACK" + " " + DecInt(p.seqNum) + " " + p.result + " " + Dec(p.newBalance) + " " + Quad(p.sender),
            ["ACK", DecInt(p.seqNum), p.result, Dec(p.newBalance), Quad(p.sender)], Quad(p.receiver), Dec(p.amount));
  }

  lemma TailTokens(head: string, tokens: seq<string>, receiver: string, amount: string)
    requires Tokens(head) == tokens && Clean(receiver) && Clean(amount)
    ensures Tokens(head + " " + receiver + " " + amount + " " + "END") == tokens + [receiver, amount, "END"]
  {
    TokensAppend(head, tokens, receiver);
    TokensAppend(head + " " + receiver, tokens + [receiver], amount);
    TokensAppend(head + " " + receiver + " " + amount, tokens + [receiver] + [amount], "END");
  }

  lemma AckHead(seqNum: string, result: string, balance: string, sender: string)
    requires Clean(seqNum) && Clean(result) && Clean(balance) && Clean(sender)
    ensures Tokens("ACK" + " " + seqNum + " " + result + " " + balance + " " + sender) ==
            ["ACK", seqNum, result, balance, sender]
  {
    TokensOfWord("ACK");
    TokensAppend("ACK", ["ACK"], seqNum);
    TokensAppend("ACK" + " " + seqNum, ["ACK", seqNum], result);
    TokensAppend("ACK" + " " + seqNum + " " + result, ["ACK", seqNum, result], balance);
    TokensAppend("ACK" + " " + seqNum + " " + result + " " + balance, ["ACK", seqNum, result, balance], sender);
  }

  /** Every acknowledgement whose result is one word survives the wire. */
  lemma AckRoundTrip(p: AckPacket)
    requires Clean(p.result)
    ensures ParseAck(PrintAck(p)) == Ok(p)
  {
    AckTokens(p);
    AckParsed(PrintAck(p), p);
  }

  lemma AckParsed(s: string, p: AckPacket)
    requires Tokens(s) ==
             ["ACK", DecInt(p.seqNum), p.result, Dec(p.newBalance), Quad(p.sender), Quad(p.receiver),
             Dec(p.amount), "END"]
    ensures ParseAck(s) == Ok(p)
  {
    StolOfDecInt(p.seqNum);
    StoulOfDec(p.newBalance);
    StoulOfDec(p.amount);
    QuadRoundTrip(p.sender);
    QuadRoundTrip(p.receiver);
  }

  /** The first three characters tell the packets apart. */
  lemma ReqTold(p: ReqPacket)
    ensures TypeOf(PrintReq(p)) == REQ
  {
    assert Tag(PrintReq(p)) == "REQ";
  }

  lemma AckTold(p: AckPacket)
    ensures TypeOf(PrintAck(p)) == ACK
  {
    assert Tag(PrintAck(p)) == "ACK";
  }

  lemma KilTold()
    ensures TypeOf(KIL_TEXT) == KIL && Tokens(KIL_TEXT) == ["KIL", "END"]
  {
    assert Tag(KIL_TEXT) == "KIL";
    KilTokens();
  }

  lemma KilTokens()
    ensures Tokens(KIL_TEXT) == ["KIL", "END"]
  {
    assert KIL_TEXT == "KIL" + " " + "END";
    TokensOfWord("KIL");
    TokensAppend("KIL", ["KIL"], "END");
  }

  /** A request is never taken for an acknowledgement, nor the other way round. */
  lemma NeverConfused(s: string)
    ensures !(ParseReq(s).Ok? && ParseAck(s).Ok?)
  {
  }

  /** A text is a request exactly when it has these five words, two of them numbers in range.  What is not an address
      is taken for the broadcast address. */
  lemma ReqParsedExactly(s: string, p: ReqPacket)
    ensures ParseReq(s) == Ok(p) <==>
            exists seqNum, receiver, amount ::
              && Tokens(s) == ["REQ", seqNum, receiver, amount, "END"]
              && Stol(seqNum) == Ok(p.seqNum as int) && QuadAddr(receiver) == p.receiver
              && Stoul(amount) == Ok(p.amount as int)
  {
    var tokens := Tokens(s);
    if ParseReq(s) == Ok(p) {
      assert tokens == ["REQ", tokens[1], tokens[2], tokens[3], "END"];
    }
  }

  /** A text is an acknowledgement exactly when it has these eight words, three of them numbers in range. */
  lemma AckParsedExactly(s: string, p: AckPacket)
    ensures ParseAck(s) == Ok(p) <==>
            exists seqNum, balance, sender, receiver, amount ::
              && Tokens(s) == ["ACK", seqNum, p.result, balance, sender, receiver, amount, "END"]
              && Stol(seqNum) == Ok(p.seqNum as int) && Stoul(balance) == Ok(p.newBalance as int)
              && QuadAddr(sender) == p.sender && QuadAddr(receiver) == p.receiver
              && Stoul(amount) == Ok(p.amount as int)
  {
    var tokens := Tokens(s);
    if ParseAck(s) == Ok(p) {
      assert tokens == ["ACK", tokens[1], tokens[2], tokens[3], tokens[4], tokens[5], tokens[6], "END"];
    }
  }
}
