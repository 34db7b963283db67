/** The client's side: numbering, sending, retrying, and taking its number from whatever the server answers. */
module Clients {
  import opened MachineInts
  import opened Wrappers
  import opened Packets
  import opened Ledgers
  import opened DbManagers
  import opened Requests
  import opened Multiplexer

  const MAX_RETRIES := 5

  datatype Order = Transfer(dest: Addr, amount: U64) | Leave

  /** What the network and the other clients do to one attempt: which datagrams of others are handled before it,
      whether the packet and its answer arrive, and whether a search for the server after a timeout reaches it. */
  datatype Fate = Fate(others: seq<Datagram>, sent: bool, answered: bool, located: bool)

  // ---------------------------------------------------------------------------
  // One attempt, and the loop over attempts, as functions
  // ---------------------------------------------------------------------------

  function Outgoing(current: I32, me: Addr, order: Order): (d: Datagram)
    ensures !d.Discovery? && d.sender == me
  {
    match order
    case Transfer(dest, amount) => Request(me, ReqPacket(current, dest, amount))
    case Leave => Kill(me)
  }

  predicate EndsDispatch(result: string) {
    result == "SUCCESS" || result == "BALANCE_CHECK" || result == "KILL"
  }

  function NextRequest(reply: AckPacket): I32 {
    ToI32(reply.seqNum + 1)
  }

  function Located(l: Ledger, me: Addr, located: bool): Ledger {
    if located then HandleDiscovery(l, me).ledger else l
  }

  datatype Attempted = Attempted(ledger: Ledger, current: I32, done: bool, committed: bool)

  function Attempt(l: Ledger, current: I32, me: Addr, order: Order, fate: Fate): Attempted {
    var before := After(l, fate.others);
    if !fate.sent then
      Attempted(Located(before, me, fate.located), current, false, false)
    else
      var h := Handle(before, Outgoing(current, me, order));
      var committed := h.reply.value.result == "SUCCESS";
      if !fate.answered then
        Attempted(Located(h.ledger, me, fate.located), current, false, committed)
      else
        Attempted(h.ledger, NextRequest(h.reply.value), EndsDispatch(h.reply.value.result), committed)
  }

  datatype Dispatched = Dispatched(ledger: Ledger, current: I32, done: bool, sends: nat, commits: nat)

  /** Attempts under the given fates until one succeeds or the fates run out. */
  function Dispatch(l: Ledger, current: I32, me: Addr, order: Order, fates: seq<Fate>): Dispatched
    decreases |fates|
  {
    if fates == [] then Dispatched(l, current, false, 0, 0)
    else
      var a := Attempt(l, current, me, order, fates[0]);
      var c := if a.committed then 1 else 0;
      if a.done then Dispatched(a.ledger, a.current, true, 1, c)
      else
        var rest := Dispatch(a.ledger, a.current, me, order, fates[1..]);
        rest.(sends := rest.sends + 1, commits := rest.commits + c)
  }

  /** What earlier attempts contributed. */
  function Plus(d: Dispatched, sends: nat, commits: nat): Dispatched {
    d.(sends := d.sends + sends, commits := d.commits + commits)
  }

  // ---------------------------------------------------------------------------
  // The dispatcher object
  // ---------------------------------------------------------------------------

  method ServeAll(db: DbManager, datagrams: seq<Datagram>)
    requires db.Valid()
    modifies db
    ensures db.Valid() && db.Contents() == After(old(db.Contents()), datagrams)
  {
    var i := 0;
    while i < |datagrams|
      invariant 0 <= i <= |datagrams|
      invariant db.Valid() && db.Contents() == After(old(db.Contents()), datagrams[..i])
    {
      match datagrams[i] {
        case Request(sender, packet) => var _, _ := ProcessReqPacket(db, sender, packet);
        case Kill(sender) => var _, _ := ProcessKillPacket(db, sender);
        case Discovery(sender) => var _ := ProcessDiscovery(db, true, sender);
      }
      assert datagrams[..i + 1][..i] == datagrams[..i];
      i := i + 1;
    }
    assert datagrams[..i] == datagrams;
  }

  /** A packet's text through the server, and the text of the answer parsed. */
  method Exchange(db: DbManager, d: Datagram, text: string) returns (reply: AckPacket)
    requires db.Valid() && !d.Discovery? && text == SentText(d)
    modifies db
    ensures db.Valid()
    ensures var h := Handle(old(db.Contents()), d);
            db.Contents() == h.ledger && h.reply == Some(reply)
  {
    ghost var before := db.Contents();
    ThroughTheWire(before, d);
    UnderstoodAsSent(d);
    var r := Multiplex(db, d.sender, text);
    var parsed := ToAckPacket(r.value.value);
    reply := parsed.value;
  }

  class RequestDispatcher {
    var currentRequest: I32

    constructor ()
      ensures currentRequest == 1
    {
      currentRequest := 1;
    }

    method HandleResponse(response: AckPacket) returns (success: bool)
      modifies this
      ensures currentRequest == NextRequest(response)
      ensures success <==> EndsDispatch(response.result)
    {
      currentRequest := ToI32(response.seqNum + 1);
      if response.result == "SUCCESS" {
        return true;
      }
      if response.result == "BALANCE_CHECK" {
        return true;
      }
      if response.result == "KILL" {
        return true;
      }
      return false;
    }

    method SerializeRequest(me: Addr, order: Order) returns (text: string)
      ensures text == SentText(Outgoing(currentRequest, me, order))
    {
      match order {
        case Transfer(dest, amount) => text := ReqToString(ReqPacket(currentRequest, dest, amount));
        case Leave => text := KIL_TEXT;
      }
    }

    /** One turn of the retry loop, against a server that is there only through the texts it is sent. */
    method TryOnce(me: Addr, order: Order, db: DbManager, fate: Fate) returns (done: bool, committed: bool)
      requires db.Valid()
      modifies this, db
      ensures db.Valid()
      ensures Attempted(db.Contents(), currentRequest, done, committed) ==
              Attempt(old(db.Contents()), old(currentRequest), me, order, fate)
    {
      done, committed := false, false;
      ServeAll(db, fate.others);
      var text := SerializeRequest(me, order);
      var answer: Option<AckPacket> := None;
      if fate.sent {
        var reply := Exchange(db, Outgoing(currentRequest, me, order), text);
        committed := reply.result == "SUCCESS";
        answer := if fate.answered then Some(reply) else None;
      }
      if answer == None {
        if fate.located {
          var _ := ProcessDiscovery(db, true, me);
        }
      } else {
        done := HandleResponse(answer.value);
      }
    }

    method DispatchRequest(me: Addr, order: Order, db: DbManager, fates: seq<Fate>)
      returns (done: bool, sends: nat, commits: nat)
      requires |fates| == MAX_RETRIES && db.Valid()
      modifies this, db
      ensures db.Valid()
      ensures Dispatched(db.Contents(), currentRequest, done, sends, commits) ==
              Dispatch(old(db.Contents()), old(currentRequest), me, order, fates)
    {
      done, sends, commits := false, 0, 0;
      while sends < MAX_RETRIES && !done
        invariant 0 <= sends <= MAX_RETRIES && db.Valid()
        invariant Dispatch(old(db.Contents()), old(currentRequest), me, order, fates) ==
                  if done then Dispatched(db.Contents(), currentRequest, true, sends, commits)
                  else Plus(Dispatch(db.Contents(), currentRequest, me, order, fates[sends..]), sends, commits)
        decreases MAX_RETRIES - sends, !done
      {
        ghost var rest := fates[sends..];
        var committed;
        done, committed := TryOnce(me, order, db, fates[sends]);
        assert rest[1..] == fates[sends + 1..];
        commits := commits + if committed then 1 else 0;
        sends := sends + 1;
      }
    }
  }
}
