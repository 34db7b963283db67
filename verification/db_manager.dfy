/** The database object itself: hash maps, mutexes and running totals, as one thread at a time uses them. */
module DbManagers {
  import opened MachineInts
  import opened Ledgers

  class DbManager {
    var databaseRecords: map<Addr, ClientRecord>
    /** The mutex of every client, true while it is held. */
    var clientLocks: map<Addr, bool>
    var databaseLocked: bool
    var metadataLocked: bool
    var totalTransferred: U32
    var numTransactions: I32
    var totalBalance: I32

    /** Between calls no mutex is held, and the clients with a mutex are the clients with a record. */
    ghost predicate Valid()
      reads this
    {
      && clientLocks.Keys == databaseRecords.Keys
      && (forall ip :: ip in clientLocks ==> !clientLocks[ip])
      && !databaseLocked && !metadataLocked
    }

    /** What a copy of the records and totals shows. */
    function Contents(): Ledger
      reads this
    {
      Ledger(databaseRecords, totalBalance, totalTransferred, numTransactions)
    }

    constructor ()
      ensures Valid() && Contents() == EMPTY
    {
      databaseRecords := map[];
      clientLocks := map[];
      databaseLocked, metadataLocked := false, false;
      totalTransferred, numTransactions, totalBalance := 0, 0, 0;
    }

    // -------------------------------------------------------------------------
    // Mutexes: locking one that is held would wait for ever, as there is no other thread to release it
    // -------------------------------------------------------------------------

    method LockDatabase()
      requires !databaseLocked
      modifies this`databaseLocked
      ensures databaseLocked
    {
      databaseLocked := true;
    }

    method UnlockDatabase()
      requires databaseLocked
      modifies this`databaseLocked
      ensures !databaseLocked
    {
      databaseLocked := false;
    }

    method LockMetadata()
      requires !metadataLocked
      modifies this`metadataLocked
      ensures metadataLocked
    {
      metadataLocked := true;
    }

    method UnlockMetadata()
      requires metadataLocked
      modifies this`metadataLocked
      ensures !metadataLocked
    {
      metadataLocked := false;
    }

    /** Fails, changing nothing, for a client without a mutex. */
    method LockClient(ip: Addr) returns (found: bool)
      requires ip in clientLocks ==> !clientLocks[ip]
      modifies this`clientLocks
      ensures found <==> ip in old(clientLocks)
      ensures clientLocks == if found then old(clientLocks)[ip := true] else old(clientLocks)
    {
      found := ip in clientLocks;
      if found {
        clientLocks := clientLocks[ip := true];
      }
    }

    /** Changes nothing for a client without a mutex. */
    method UnlockClient(ip: Addr)
      requires ip in clientLocks ==> clientLocks[ip]
      modifies this`clientLocks
      ensures clientLocks == if ip in old(clientLocks) then old(clientLocks)[ip := false] else old(clientLocks)
    {
      if ip in clientLocks {
        clientLocks := clientLocks[ip := false];
      }
    }

    // -------------------------------------------------------------------------
    // Operations
    // -------------------------------------------------------------------------

    method GetClientInfo(ip: Addr) returns (r: Response)
      ensures r.success <==> ip in databaseRecords
      ensures r.record == if ip in databaseRecords then databaseRecords[ip] else NO_RECORD
      ensures r.status == if ip in databaseRecords then SUCCESS else NOT_FOUND
    {
      if ip in databaseRecords {
        return Response(true, databaseRecords[ip], SUCCESS);
      } else {
        return Response(false, NO_RECORD, NOT_FOUND);
      }
    }

    method RegisterClient(ip: Addr) returns (r: Response)
      requires Valid()
      modifies this
      ensures Valid()
      ensures Outcome(Contents(), r) == Registered(old(Contents()), ip)
    {
      var newClient := NewClient(ip);
      LockDatabase();
      var mutexInserted := ip !in clientLocks;
      if mutexInserted {
        clientLocks := clientLocks[ip := false];
      }
      var _ := LockClient(ip);
      UnlockDatabase();
      if !mutexInserted {
        UnlockClient(ip);
        return Response(false, NO_RECORD, DUPLICATE_IP);
      }
      assert ip !in databaseRecords;  // the insertion cannot find the client present
      databaseRecords := databaseRecords[ip := newClient];
      UnlockClient(ip);
      LockDatabase();
      totalBalance := ToI32(totalBalance + STARTING_BALANCE);
      UnlockDatabase();
      return Response(true, newClient, SUCCESS);
    }

    method MakeTransaction(sender: Addr, receiver: Addr, amount: U64) returns (r: Response)
      requires Valid()
      modifies this
      ensures Valid()
      ensures Outcome(Contents(), r) == Transacted(old(Contents()), sender, receiver, amount)
    {
      LockDatabase();
      var senderFound := LockClient(sender);
      if !senderFound {
        UnlockDatabase();
        return Response(false, NO_RECORD, UNKNOWN_SENDER);
      }
      if amount == 0 {
        UnlockClient(sender);
        UnlockDatabase();
        return Response(true, databaseRecords[sender], BALANCE_CHECK);
      }
      if sender == receiver {
        UnlockClient(sender);
        UnlockDatabase();
        return Response(false, databaseRecords[sender], DUPLICATE_IP);
      }
      var receiverFound := LockClient(receiver);
      if !receiverFound {
        var info := GetClientInfo(sender);
        UnlockClient(sender);
        UnlockDatabase();
        return Response(false, info.record, UNKNOWN_RECEIVER);
      }
      UnlockDatabase();

      r := Transfer(sender, receiver, amount);
    }

    /** The part of a transaction during which both clients, and nothing else, are locked. */
    method Transfer(sender: Addr, receiver: Addr, amount: U64) returns (r: Response)
      requires clientLocks.Keys == databaseRecords.Keys && !databaseLocked && !metadataLocked
      requires sender in clientLocks && receiver in clientLocks && sender != receiver && amount > 0
      requires forall ip :: ip in clientLocks ==> (clientLocks[ip] <==> ip == sender || ip == receiver)
      modifies this
      ensures Valid()
      ensures Outcome(Contents(), r) == Transacted(old(Contents()), sender, receiver, amount)
    {
      databaseRecords := databaseRecords[sender := Bumped(databaseRecords[sender])];
      if databaseRecords[sender].balance < amount {
        UnlockClient(sender);
        UnlockClient(receiver);
        return Response(false, databaseRecords[sender], INSUFFICIENT_BALANCE);
      }
      databaseRecords := databaseRecords[sender := Debited(databaseRecords[sender], amount)];
      assert databaseRecords == old(databaseRecords)[sender := databaseRecords[sender]];
      databaseRecords := databaseRecords[receiver := Credited(databaseRecords[receiver], amount)];
      UnlockClient(sender);
      UnlockClient(receiver);

      LockMetadata();
      totalTransferred := ToU32(totalTransferred + amount);
      numTransactions := ToI32(numTransactions + 1);
      UnlockMetadata();
      return Response(true, databaseRecords[sender], SUCCESS);
    }

    method RemoveClient(ip: Addr) returns (r: Response)
      requires Valid()
      modifies this
      ensures Valid()
      ensures Outcome(Contents(), r) == Removed(old(Contents()), ip)
    {
      LockDatabase();
      var found := LockClient(ip);
      if !found {
        UnlockDatabase();
        return Response(false, NO_RECORD, NOT_FOUND);
      }
      UnlockDatabase();

      var clientCopy := databaseRecords[ip];
      databaseRecords := databaseRecords - {ip};
      LockDatabase();
      UnlockClient(ip);
      clientLocks := clientLocks - {ip};
      UnlockDatabase();

      LockDatabase();
      totalBalance := ToI32(totalBalance - clientCopy.balance);
      UnlockDatabase();
      return Response(true, clientCopy, SUCCESS);
    }

    method GetDbSnapshot() returns (snapshot: Ledger)
      ensures snapshot == Contents()
    {
      return Contents();
    }

    /** Everything is replaced, whatever was there before; each client of the snapshot gets a mutex of its own. */
    method LoadSnapshot(snapshot: Ledger)
      requires !databaseLocked && !metadataLocked
      modifies this
      ensures Valid() && Contents() == snapshot
    {
      clientLocks := map[];
      var rest := snapshot.records.Keys;
      while rest != {}
        invariant rest <= snapshot.records.Keys
        invariant clientLocks.Keys == snapshot.records.Keys - rest
        invariant forall ip :: ip in clientLocks ==> !clientLocks[ip]
        invariant !databaseLocked && !metadataLocked
      {
        var ip :| ip in rest;
        clientLocks := clientLocks[ip := false];
        rest := rest - {ip};
      }
      databaseRecords := snapshot.records;
      numTransactions := snapshot.numTransactions;
      totalBalance := snapshot.totalBalance;
      totalTransferred := snapshot.totalTransferred;
    }
  }
}
