/** Texts in, texts out: datagrams from the network sorted by type and handed to the handlers. */
module Multiplexer {
  import opened MachineInts
  import opened Wrappers
  import opened Text
  import opened Packets
  import opened Ledgers
  import opened DbManagers
  import opened Requests

  /** The datagram a text stands for, if the server acts on it.  A farewell that does not parse is not caught. */
  function Understood(sender: Addr, text: string): Result<Option<Datagram>, ParseError> {
    match TypeOf(text)
    case REQ =>
      var parsed := ParseReq(text);
      Ok(if parsed.Ok? then Some(Request(sender, parsed.value)) else None)
    case KIL =>
      if ParsesAsKil(text) then Ok(Some(Kill(sender))) else Err(BadFormat)
    case ACK => Ok(None)
    case ERR => Ok(None)
  }

  datatype Served = Served(ledger: Ledger, reply: Option<string>)

  function Serve(l: Ledger, sender: Addr, text: string): Served {
    match Understood(sender, text)
    case Ok(Some(d)) =>
      var h := Handle(l, d);
      Served(h.ledger, if h.reply.Some? then Some(PrintAck(h.reply.value)) else None)
    case _ => Served(l, None)
  }

  method Multiplex(db: DbManager, sender: Addr, text: string) returns (r: Result<Option<string>, ParseError>)
    requires db.Valid()
    modifies db
    ensures db.Valid()
    ensures db.Contents() == Serve(old(db.Contents()), sender, text).ledger
    ensures r == if Understood(sender, text).Err? then Err(BadFormat)
                 else Ok(Serve(old(db.Contents()), sender, text).reply)
  {
    match TypeOf(text) {
      case REQ =>
        var parsed := ToReqPacket(text);
        if parsed.Err? {
          return Ok(None);
        }
        var reply, _ := ProcessReqPacket(db, sender, parsed.value);
        var answer := AckToString(reply);
        return Ok(Some(answer));
      case KIL =>
        var parsed := ToKilPacket(text);
        if !parsed {
          return Err(BadFormat);
        }
        var reply, _ := ProcessKillPacket(db, sender);
        var answer := AckToString(reply);
        return Ok(Some(answer));
      case _ =>
        return Ok(None);
    }
  }

  /** The text of a packet that a client sends. */
  function SentText(d: Datagram): string
    requires !d.Discovery?
  {
    match d
    case Request(_, packet) => PrintReq(packet)
    case Kill(_) => KIL_TEXT
  }

  /** From the client's packet to the server's handler and back, nothing is lost in the texts: the answer that
      is parsed is the answer that was made. */
  lemma ThroughTheWire(l: Ledger, d: Datagram)
    requires !d.Discovery?
    ensures var h, served := Handle(l, d), Serve(l, d.sender, SentText(d));
            && h.reply.Some? && served.reply.Some?
            && served.ledger == h.ledger
            && ParseAck(served.reply.value) == Ok(h.reply.value)
  {
    UnderstoodAsSent(d);
    RepliesSurvive(l, d);
  }

  lemma UnderstoodAsSent(d: Datagram)
    requires !d.Discovery?
    ensures Understood(d.sender, SentText(d)) == Ok(Some(d))
  {
    match d
    case Request(_, packet) =>
      ReqRoundTrip(packet);
      ReqTold(packet);
    case Kill(_) =>
      KilTold();
  }

  predicate StartsWith(s: string, tag: string) {
    |s| >= |tag| && s[..|tag|] == tag
  }

  /** A text is acted upon exactly when it starts with the tag of a request and parses as one, or starts with the tag
      of a farewell and consists of its two words; with that tag and anything else it ends the process.  It speaks for
      the address it came from. */
  lemma UnderstoodExactly(sender: Addr, text: string, d: Datagram)
    ensures Understood(sender, text) == Ok(Some(d)) <==>
            || (d.Request? && d.sender == sender && StartsWith(text, "REQ") && ParseReq(text) == Ok(d.packet))
            || (d == Kill(sender) && StartsWith(text, "KIL") && Tokens(text) == ["KIL", "END"])
    ensures Understood(sender, text).Err? <==> StartsWith(text, "KIL") && Tokens(text) != ["KIL", "END"]
  {
  }

  /** All other texts leave the ledger alone and get no answer; a text that is acted upon gets the handler's. */
  lemma ServesExactly(l: Ledger, sender: Addr, text: string)
    ensures var served := Serve(l, sender, text);
            && (served.reply.Some? <==> exists d :: Understood(sender, text) == Ok(Some(d)))
            && (served.reply.None? ==> served.ledger == l)
            && (forall d :: Understood(sender, text) == Ok(Some(d)) ==>
                 && served.ledger == Handle(l, d).ledger
                 && Handle(l, d).reply.Some? && served.reply == Some(PrintAck(Handle(l, d).reply.value)))
  {
  }
}
