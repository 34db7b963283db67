# Brix, a replicated payment server: model and proofs

Brix keeps the balances of clients in a hash map, moves money between them on request, copies its whole database to
backup servers after every change worth copying, and elects a new coordinator when the old one fails. This project
models the four parts that carry that promise and proves what each of them keeps, and what they give together.

**The concurrent ledger** (`server/src/db_manager/db_manager.cpp`). One thread runs per request.
`ledger.dfy` has registration, transfer and removal as single steps of a ledger value, with the source's integer widths.
`ledger_program.dfy` has the same three as programs, one instruction per lock, unlock, lookup, read or write of shared
state (`RegisterCode` for lines 65-132, `TransactionCode` for 134-236, `RemoveCode` for 238-297), run by any number of
threads in any interleaving. A program point `Thrown` stands for the one lookup that can fail uncaught, by which the
answer to a balance check or to a transfer to oneself reads the sender's record after all locks were given back (lines
152 and 159). A program point `Broken` stands for every branch that the source says should never happen, for every other
`out_of_range` that is not caught, and for the misuse of a mutex.
`lock_protocol.dfy` and `program_invariant.dfy` hold the invariant; `refinement.dfy` shows each step to be either
invisible or one whole operation; `interleavings.dfy`, `conservation.dfy`, `accounts.dfy` and `progress.dfy` say what
follows for runs; `standstill.dfy` and `late_reads.dfy` say exactly which calls can deadlock and which can throw.
`db_manager.dfy` is the class itself, with its maps, mutexes and totals.

**The texts** (`text.dfy`, `packets.dfy`, `snapshots.dfy`, `truncation.dfy`, `cuts.dfy`). Words, decimal numbers, dotted quads;
requests, acknowledgements and database snapshots, printed and parsed, whole or cut off.

**Requests, clients and replication** (`requests.dfy`, `answers.dfy`, `handler_race.dfy`, `multiplexer.dfy`,
`client.dfy`, `delivery.dfy`, `payments.dfy`, `leaving.dfy`, `replication.dfy`, `failover.dfy`, `followers.dfy`,
`takeovers.dfy`, `overlong.dfy`, `lost_client.dfy`).
The handlers over the database object, one at a time or several at once; the client's retry loop against a server that it
reaches only through texts; the cluster, in which snapshots travel as texts to the backups.

**The election** (`election.dfy`, `election_history.dfy`, `election_network.dfy`, `clean_election.dfy`,
`late_election.dfy`). The manager object with its four states, everything it can have been through, and any number of
managers on a network that reorders and repeats datagrams.

The main results, hardest first:

- every interleaving of any number of registrations, transfers and removals is equivalent to its operations one after
  the other, in an order that respects time, with the same status codes (`Linearizable`, `RealTimeOrder`);
- a list of calls can deadlock if and only if one of them reaches for a client that another removes, and the clients that
  it needs to get there are present or get registered (`DeadlockExactly`); every run ends within 19 steps a call, at rest
  or in such a deadlock (`RunsEnd`, `GoesOnOrDeadlocked`);
- money is conserved in every reachable state, in flight or not, and every credit is exact up to 184467440737095
  registrations (`Conserved`, `CreditsExact`);
- over any number of crashes and take-overs, with snapshots travelling as texts, the coordinator's money is what was
  registered less what was withdrawn if and only if in no take-over a client with money lay behind the cut of the last
  broadcast (`MoneySurvivesExactly`); no request number of a registration is paid twice unless such a cut was within a
  request number (`UncutNeverPaidTwice`), and then the successor does accept a used number (`SuccessorAcceptsExactly`);
  with texts that can be read whole neither can happen, hand-overs between live servers included (`NeverPaidTwice`,
  `MoneySurvives`);
- what a snapshot that is cut anywhere is read as: its first clients, its first clients with the last number shortened, or
  an error, by where the cut falls (`ReceivedAs`); as it was sent if and only if two numeric fields fit an `int` and its
  text has at most 1027 characters (`ReceivedExactly`); 19 clients always fit, 73 never do (`SnapshotLength`, `NeverFits`);
- how often one order of a client is paid is a function of which packets and which answers were lost, and of whether the
  client was in step, alone, whoever else is active, as long as the money is there (`PaymentsExactly`); it is more than
  once if and only if, in step, an answer is lost, a later one arrives, and the client sends again
  (`PaidMoreThanOnceExactly`);
- copies of one request in several handlers at once are paid once for each handler that looked before any had acted, as
  far as the money goes (`PaidByWinners`, `WinnersWin`, `PaidTwiceExactly`);
- a client falls back into step after one answer, and under any loss, whatever the other clients do, pays at most once
  more than the answers it lost (`Resynchronises`, `TwoSends`, `PaysAtMost`);
- a client that leaves is told so if and only if a packet of its arrives and is answered while it is registered, which
  depends on the losses alone, and a client whose answer is lost and that finds the server again has been registered
  afresh (`LeavesExactly`, `GoneUnheard`, `LeavesAgain`);
- answers add up: over any history, the balance in every answer is what the answers before it say about its addressee
  (`AnswersAddUp`), and in any interleaving the statuses of the calls are those that the clients' accounts call for
  (`StatusesAddUp`, `BalancesAddUp`);
- in any run of the cluster, a server that only listens holds exactly what its loop makes of all that was broadcast since
  it joined (`ListenersFollow`);
- two coordinators never coexist without an announcement on its way between them (`TwoCoordinators`), and an undisturbed
  election is won by the highest server in every order of deliveries (`HighestWins`, `ElectionEnds`).

Things the code does that a reader would not expect:

- one order can be paid twice when an answer is lost (`PaidTwiceForOne`, exactly when `PaidMoreThanOnceExactly` says);
- a request number that is wrong by a multiple of 2^32 is accepted (`WrongNumberTaken`, exactly when `RequestActs` says);
- a removal can deadlock with another call that reaches for the same client, for ever (exactly when `DeadlockExactly` says,
  `DeadlockStays`);
- the answer to a balance check can end the server with an uncaught exception (exactly when `ThrowsExactly` says);
- a snapshot of 48 clients can be one character too long and is then loaded, without an error, as a different one, after
  which a take-over pays a request a second time (`ReadWrong`, `PaidTwiceAfterTakeOver`), and one of 49 clients can lose
  the last of them and its money (`LoadedWithoutLast`, `MoneyLostAfterTakeOver`);
- the search for the server that follows a lost answer registers a client that had just left, with a new starting
  balance (`AttemptToLeave`, `LeavesAgain`);
- one request can be paid twice by two handlers of one server (exactly when `PaidTwiceExactly` says);
- the wait for answers in an election is counted from the start of the process, although the comments call it the time to
  wait for the announcement, so that late elections do not wait at all: with nothing lost, one failed heartbeat can leave
  the lower of two live servers in the lead, and of any number whoever begins it leads (`LateElectionsDoNotWait`,
  `LateElectionOverturns`, `LateCallerLeads`).

## Model

| member | source | states |
|---|---|---|
| Interleavings.Linearizable | server/src/db_manager/db_manager.cpp:65-297 | any run of any number of the three operations stands for the ledger that its operations give one after the other; every status is the one given at its place; each operation that took effect is there once |
| Interleavings.RealTimeOrder | server/src/db_manager/db_manager.cpp:65-297 | the order of those operations respects time: one that had happened before another was called comes first |
| Refinement.StepRefines | server/src/db_manager/db_manager.cpp:65-297 | every instruction of every thread leaves the indivisible ledger as it was, or performs exactly one operation on it and settles its status |
| Refinement.CreditHappens | server/src/db_manager/db_manager.cpp:212-233 | a paid transfer becomes visible, debit, credit, request number and totals at once, when the receiver is credited |
| Refinement.PoorHappens | server/src/db_manager/db_manager.cpp:212-220 | a transfer that cannot be paid becomes visible as the count of a request, when the balance is checked |
| Refinement.RegisterHappens | server/src/db_manager/db_manager.cpp:100-128 | a registration becomes visible, record and total, when its record is inserted |
| Refinement.RemoveHappens | server/src/db_manager/db_manager.cpp:252-292 | a removal becomes visible, record and total, when its record is erased |
| Refinement.QuietStep | server/src/db_manager/db_manager.cpp:65-297 | all other instructions leave the indivisible ledger unchanged |
| ProgramInvariant.StepInv | server/src/db_manager/db_manager.cpp:65-297 | every step of every thread keeps the whole invariant of locks, records and local variables |
| ProgramInvariant.WriterHolds | server/src/db_manager/db_manager.cpp:82-104 | a record is written, inserted or erased only by the thread that holds that client's mutex |
| ProgramInvariant.OthersKeep | server/src/db_manager/db_manager.cpp:183-216 | what a thread knows about a client it holds, the covered balance above all, survives every step of the others |
| LockProtocol.MutualExclusion | server/src/db_manager/db_manager.cpp:325-338 | two threads never hold the mutex of the same client, although mutexes come and go |
| LockProtocol.EntriesApart | server/src/db_manager/db_manager.cpp:74-82 | no two clients share a mutex |
| LockProtocol.ActionKeeps | server/src/db_manager/db_manager.cpp:74-128 | each way of locking, unlocking, publishing, destroying and erasing keeps the lock discipline |
| Progress.MapsAgree | server/src/db_manager/db_manager.cpp:80-128 | every record's client has a mutex; a mutex without record belongs to a registration before its insert or a removal after its erase |
| Progress.NothingBreaks | server/src/db_manager/db_manager.cpp:77-292 | no run reaches a branch that should never happen, the misuse of a mutex, or an uncaught missing key anywhere but in the late read of lines 152 and 159 |
| LateReads.ThrowsExactly | server/src/db_manager/db_manager.cpp:149-160 | for any ledger and any list of calls, some run has the late read of the sender fail if and only if one call is a balance check or a transfer to oneself, another removes its sender, and that sender is present or is registered by a third |
| LateReads.RunLate | server/src/db_manager/db_manager.cpp:149-160 | in every run, the sender of a call that is about to read late was present, and if its record is gone some call removes it |
| Progress.DestroyIsSafe | server/src/db_manager/db_manager.cpp:275-280 | a mutex that is being destroyed is held by nobody and waited for by nobody |
| Progress.EffectHoldsBoth | server/src/db_manager/db_manager.cpp:141-227 | a transfer takes effect with both clients' mutexes held, and nobody else holds either |
| Progress.GoesOnOrDeadlocked | server/src/db_manager/db_manager.cpp:77-292 | whenever a call has not returned some thread can go on, or the one cycle of a removal with the owner of the database lock is there |
| Progress.RunsEnd | server/src/db_manager/db_manager.cpp:65-297 | n calls take at most 19 n steps; a run that cannot go on has brought every call to its end, unless it is deadlocked |
| Standstill.DeadlockExactly | server/src/db_manager/db_manager.cpp:77-276 | for any ledger and any list of calls, some run of them deadlocks if and only if one call reaches for the client that another removes, and that client, and the sender if it is a transfer, are present or registered by third calls |
| Standstill.CycleNames | server/src/db_manager/db_manager.cpp:240-276 | in every deadlock the waiting call reaches for the very client that the removal holds |
| Standstill.ApartNeverDeadlock | server/src/db_manager/db_manager.cpp:77-292 | a run in which no call reaches for a client that another removes never stands still |
| Standstill.CollisionDeadlocks | server/src/db_manager/db_manager.cpp:240-276 | a run into the deadlock, for each registration, transfer or removal that reaches for a removed client |
| Progress.DeadlockStays | server/src/db_manager/db_manager.cpp:240-276 | once there, the deadlock outlives every further call and step |
| Conservation.RunAccounted | server/src/db_manager/db_manager.cpp:222-224 | in every state, balances plus money in flight are the money of the indivisible ledger |
| Conservation.Conserved | server/src/db_manager/db_manager.cpp:100-292 | in every state, balances plus money in flight equal the total plus registrations not yet counted less removals not yet subtracted, in 32 bits |
| Conservation.ExactMoney | server/src/db_manager/db_manager.cpp:100-292 | up to 184467440737095 registrations the money is exactly what was registered less what was removed |
| Conservation.CreditsExact | server/src/db_manager/db_manager.cpp:223-224 | in every run, as long as the starting balances given out fit 64 bits, every credit about to be written adds exactly its amount to the receiver |
| Conservation.CreditsExactFromEmpty | server/src/db_manager/db_manager.cpp:223-224 | from an empty database that holds up to 184467440737095 registrations |
| Conservation.UnremovedMoney | server/src/db_manager/db_manager.cpp:100-224 | without removals it always holds, as addresses have 32 bits |
| Conservation.RestingState | server/src/db_manager/db_manager.cpp:65-297 | when all calls have returned, records and totals are those of the operations one after the other, records and mutexes agree, and the total is the sum of the balances in 32 bits |
| Accounts.StatusesAddUp | server/src/db_manager/db_manager.cpp:65-297 | in any run, every status is the one called for by the accounts of the clients concerned, and those accounts are told from the earlier calls and their statuses alone |
| Accounts.BalancesAddUp | server/src/db_manager/db_manager.cpp:65-297 | when all calls have returned, each client's record is what the calls and their statuses say about it, and nobody else has one |
| Accounts.TotalsAddUp | server/src/db_manager/db_manager.cpp:229-233 | when all calls have returned, the two totals have grown by the number and the amounts of the transfers that returned success, in 32 bits |
| Ledgers.ApplyMoney | server/src/db_manager/db_manager.cpp:65-297 | each operation moves the sum of balances by what it mints: a starting balance, nothing, or less the removed balance |
| Ledgers.ApplySound | server/src/db_manager/db_manager.cpp:65-297 | each operation keeps records under their own address and the running total equal to the sum of balances in 32 bits |
| Ledgers.StatusTable | server/src/db_manager/db_manager.cpp:65-297 | the status of each operation by membership, amount and the payer's balance before |
| Ledgers.ResponseShows | server/src/db_manager/db_manager.cpp:65-297 | the record that comes back is the client's own after the operation, or the removed one, or none |
| DbManagers.DbManager.constructor | server/src/db_manager/db_manager.cpp:17-34 | an empty database with all mutexes free |
| DbManagers.DbManager.LockClient | server/src/db_manager/db_manager.cpp:325-327 | locks an existing mutex, or fails for a client without one |
| DbManagers.DbManager.UnlockClient | server/src/db_manager/db_manager.cpp:329-338 | unlocks exactly that client, and does nothing for one without a mutex |
| DbManagers.DbManager.GetClientInfo | server/src/db_manager/db_manager.cpp:53-63 | the client's record, or an empty record and NOT_FOUND |
| DbManagers.DbManager.RegisterClient | server/src/db_manager/db_manager.cpp:65-132 | performs the registration of the ledger value, returns its answer, leaves mutexes and records in agreement |
| DbManagers.DbManager.MakeTransaction | server/src/db_manager/db_manager.cpp:134-236 | performs the transfer of the ledger value with the same answer in all six outcomes, releases all mutexes |
| DbManagers.DbManager.Transfer | server/src/db_manager/db_manager.cpp:182-235 | its part under the two clients' mutexes |
| DbManagers.DbManager.RemoveClient | server/src/db_manager/db_manager.cpp:238-297 | performs the removal of the ledger value, record and mutex gone together |
| DbManagers.DbManager.GetDbSnapshot | server/src/db_manager/db_manager.cpp:340-345 | a copy of records and totals |
| DbManagers.DbManager.LoadSnapshot | server/src/db_manager/db_manager.cpp:405-431 | afterwards the snapshot is what the database shows, and exactly its clients have mutexes, all free |
| Text.Tokenize | common/src/packets/string_packets.cpp:11-18 | the loop of stream extractions yields the words of the text |
| Text.TokensJoin | common/src/packets/string_packets.cpp:11-18 | a blank separates the words of what is before it from the words of what is after it |
| Text.QuadRoundTrip | common/src/data_transfer/socket_utils.cpp:72-82 | every address is read back from its dotted form, which is one word of at most 15 characters |
| Text.StoiOfDecInt | server/src/db_manager/db_manager.cpp:365-367 | a printed number is read back as a 32-bit `int` exactly if it is one, and is out of range otherwise |
| Text.StolOfDecInt | common/src/packets/string_packets.cpp:27 | a printed number is read back exactly if it has 64 signed bits, and is out of range otherwise |
| Text.StoulOfDec | common/src/packets/string_packets.cpp:29 | every unsigned 64-bit number is read back |
| Text.StoulOfDecInt | common/src/packets/string_packets.cpp:29 | a printed number that is negative is read as its 64 unsigned bits, and any beyond 64 bits is out of range |
| Text.NumberRead | common/src/packets/string_packets.cpp:27-29 | a number is read up to its last digit, with or without a sign, whatever follows |
| Text.QuadOfJoined | common/src/data_transfer/socket_utils.cpp:72-82 | an address is printed byte by byte, lowest byte first |
| Packets.ReqToString | common/src/packets/packets.cpp:10-28 | prints a request field by field |
| Packets.AckToString | common/src/packets/packets.cpp:31-63 | prints an acknowledgement field by field |
| Packets.ToReqPacket | common/src/packets/string_packets.cpp:10-32 | parses a request or reports what is wrong with it |
| Packets.ToAckPacket | common/src/packets/string_packets.cpp:37-60 | parses an acknowledgement or reports what is wrong with it |
| Packets.ToKilPacket | common/src/packets/string_packets.cpp:62-77 | recognises a farewell |
| Packets.ReqRoundTrip | common/src/packets/packets.cpp:10-28 | parsing a printed request gives it back, for every number, address and amount |
| Packets.AckRoundTrip | common/src/packets/packets.cpp:31-63 | parsing a printed acknowledgement gives it back if its result is one word |
| Packets.ReqTold | common/src/packets/string_packets.cpp:79-92 | a printed request is classified as one |
| Packets.AckTold | common/src/packets/string_packets.cpp:79-92 | a printed acknowledgement is classified as one |
| Packets.KilTold | common/src/packets/string_packets.cpp:62-92 | the client's farewell is classified as one and parses |
| Packets.NeverConfused | common/src/packets/string_packets.cpp:10-60 | no text parses both as a request and as an acknowledgement |
| Packets.ReqParsedExactly | common/src/packets/string_packets.cpp:10-32 | a text is a request exactly when it has its five words, with two numbers in range |
| Packets.AckParsedExactly | common/src/packets/string_packets.cpp:37-60 | a text is an acknowledgement exactly when it has its eight words, with three numbers in range |
| Snapshots.ToString | server/src/db_manager/db_manager.cpp:384-403 | prints the totals and then the records in the order of traversal |
| Snapshots.FromString | server/src/db_manager/db_manager.cpp:347-383 | parses totals and records, four words a record |
| Snapshots.SnapshotRoundTrip | server/src/db_manager/db_manager.cpp:347-403 | in whatever order the map is traversed, a snapshot is read back whole if its transferred total and request numbers fit an `int`, and is out of range otherwise |
| Snapshots.ParsesExactly | server/src/db_manager/db_manager.cpp:347-383 | any text is a snapshot exactly when its three totals and the fields of all its records can be read, and what it is read as has those totals and an entry for each address in it |
| Snapshots.FirstRecordCounts | server/src/db_manager/db_manager.cpp:373-380 | of several records for one address the first counts |
| Snapshots.SnapshotLength | server/src/db_synchronizer/db_synchronizer.cpp:7-60 | the text of n clients has at most 37 + 50 n characters, so that 19 clients fit one read |
| Truncation.CutSmall | server/src/db_manager/db_manager.cpp:373-380 | a snapshot whose last three characters or fewer are cut off is read as if whole |
| Truncation.CutDeep | server/src/db_manager/db_manager.cpp:373-380 | with more than three characters cut off it is never read as what was sent |
| Truncation.CutNumber | server/src/db_manager/db_manager.cpp:373-380 | cut within the last request number, it is read as the same snapshot with a smaller number there, without an error if the other numbers fit an `int` |
| Truncation.ReceivedExactly | server/src/db_synchronizer/db_synchronizer.cpp:52-75 | after the receiver's read, the parsed snapshot is the one sent exactly when it is portable and its text has at most 1027 characters |
| Truncation.NeverFits | server/src/db_synchronizer/db_synchronizer.cpp:7-75 | the text of n clients has at least 8 + 14 n characters, so that from 73 clients on none is received as it was sent |
| Cuts.ReceivedAs | server/src/db_synchronizer/db_synchronizer.cpp:52-75 | for every portable ledger and order of traversal, a cut behind a record loads the records before it, a cut within a request number loads them up to that one with the digits left, any other cut fails, and there are no other cuts |
| Cuts.AcceptsUsedExactly | server/src/db_synchronizer/db_synchronizer.cpp:52-75 | a server that loaded a snapshot takes some request under a number that the sender had counted if and only if the cut falls within a request number |
| Cuts.MoneyMissingExactly | server/src/db_synchronizer/db_synchronizer.cpp:52-75 | what a server that loaded a snapshot lacks is the money of the clients behind the cut, so that money is missing if and only if one of them has some |
| Overlong.ReadWrong | server/src/db_synchronizer/db_synchronizer.cpp:52-75 | the snapshot of 48 clients after 48 registrations and ten payments has 1028 characters, and is received, without an error, as the one in which the last client has made one request instead of ten |
| Overlong.PaidTwiceAfterTakeOver | server/src/db_synchronizer/db_synchronizer.cpp:60-75 | a run of a cluster in which a server joins, is sent that snapshot, takes over after a crash, and pays request 2 of that client a second time |
| LostClient.LoadedWithoutLast | server/src/db_synchronizer/db_synchronizer.cpp:52-75 | the snapshot of 49 clients that have just registered is received, without an error, as one of 48, with 100000 less |
| LostClient.MoneyLostAfterTakeOver | server/src/db_synchronizer/db_synchronizer.cpp:60-75 | a run of a cluster in which a server joins, is sent that snapshot, and takes over after a crash, and 100000 are gone |
| Requests.ProcessDbTransaction | server/src/request_handler/REQ_packet_handler.cpp:11-65 | the transfer and the answer for each of its statuses |
| Requests.ProcessReqPacket | server/src/request_handler/REQ_packet_handler.cpp:108-175 | the new ledger, the answer and the broadcast of the request handler |
| Requests.ProcessKillPacket | server/src/request_handler/KIL_packet_handler.cpp:10-80 | the new ledger, the answer and the broadcast of the farewell handler |
| Requests.ProcessDiscovery | server/src/greeter/server_discovery_service.cpp:65-103 | a coordinator registers whoever asks and broadcasts, another server does nothing |
| Answers.RequestAnswered | server/src/request_handler/REQ_packet_handler.cpp:11-65 | every request is answered with the sender's own number and balance as they are afterwards, and with what it asked for |
| Answers.RequestResult | server/src/request_handler/REQ_packet_handler.cpp:11-153 | the result of every request, by its number, who is registered, the amount, and the balance before |
| Answers.FarewellAnswered | server/src/request_handler/KIL_packet_handler.cpp:26-77 | a farewell removes its sender alone and is answered with the balance that went with it, or reports that there was none; it is broadcast in the first case only |
| Answers.DiscoveryRegisters | server/src/greeter/server_discovery_service.cpp:90-101 | a discovery gives a client without record one with the starting balance, leaves all other records alone, and is broadcast either way |
| Answers.RegisteredExactly | server/src/request_handler/KIL_packet_handler.cpp:26-77 | over any history, a client has a record exactly when it has been heard on discovery and not on farewell since |
| Answers.AnswersAddUp | server/src/request_handler/REQ_packet_handler.cpp:11-171 | over any history, the balance in every answer is the starting balance less the payments that earlier answers reported to its addressee, more those that answers to others reported for it |
| Answers.TotalsAddUp | server/src/db_manager/db_manager.cpp:229-233 | over any history, the two totals are the number and the amounts of the payments that answers reported, in 32 bits |
| Answers.BalanceTotalAddsUp | server/src/db_manager/db_manager.cpp:125-128 | over any history, the total balance is the sum of all balances in 32 bits |
| Requests.ValidMeans | server/src/request_handler/REQ_packet_handler.cpp:94-106 | a request is valid exactly when it carries the next number, in 32 bits |
| Requests.StatusInRange | server/src/request_handler/REQ_packet_handler.cpp:94-106 | with numbers that fit an `int`, duplicate, valid and out of order are at most, one more and beyond the last number |
| Requests.RequestActs | server/src/request_handler/REQ_packet_handler.cpp:108-171 | a request changes the ledger exactly when it has the next number and is a real transfer between two registered clients; it is answered with success exactly when the balance covers it, and only then broadcast |
| Requests.WrongNumberTaken | server/src/request_handler/REQ_packet_handler.cpp:94-106 | a request whose number is 2^32 too small is paid all the same |
| Requests.StaleIsHarmless | server/src/request_handler/REQ_packet_handler.cpp:94-153 | any other number in range leaves the ledger unchanged, broadcasts nothing and is answered with the last number |
| HandlerRace.PaidByWinners | server/src/request_handler/REQ_packet_handler.cpp:116-136 | however the two halves of the handlers of one request's copies interleave, it is paid once for each handler that acts, as far as the balance goes |
| HandlerRace.WinnersWin | server/src/request_handler/REQ_packet_handler.cpp:116-136 | those handlers are the ones that look at the number before any other has acted on what it saw |
| HandlerRace.PaidTwiceExactly | server/src/request_handler/REQ_packet_handler.cpp:116-136 | a number is paid more than once if and only if two handlers look before any has acted, both act, and the sender has the money twice |
| Requests.OthersLeave | server/src/request_handler/REQ_packet_handler.cpp:108-171 | a client's membership and number depend on that client's own packets only |
| Requests.AcceptedInOrder | server/src/request_handler/REQ_packet_handler.cpp:94-153 | over any history of packets, the requests counted since registration carry 1, 2, 3 and so on in 32 bits, and the record holds how many there were |
| Requests.AcceptedExactly | server/src/request_handler/REQ_packet_handler.cpp:94-153 | with numbers that fit an `int` these are exactly 1 to `last_request`, once each, in order |
| Requests.RepliesSurvive | server/src/request_handler/REQ_packet_handler.cpp:162-171 | every answer a server makes is parsed by the client as it was made |
| Multiplexer.Multiplex | server/src/multiplexer/packet_multiplexer.cpp:49-133 | a text is dispatched by its type; a request that does not parse is ignored, a farewell that does not parse is an error |
| Multiplexer.ThroughTheWire | server/src/multiplexer/packet_multiplexer.cpp:74-130 | a client's packet, printed, dispatched, handled, answered and parsed, has the effect and the answer of the handler |
| Multiplexer.UnderstoodExactly | server/src/multiplexer/packet_multiplexer.cpp:74-132 | which texts are acted upon, and as what; a text with the tag of a farewell that is none ends the process |
| Multiplexer.ServesExactly | server/src/multiplexer/packet_multiplexer.cpp:74-132 | all other texts change nothing and get no answer, and those get the handler's |
| Clients.RequestDispatcher.HandleResponse | client/src/data_transfer/client_request_transfer.cpp:195-252 | the next number is taken from the answer; three results end a dispatch |
| Clients.RequestDispatcher.SerializeRequest | client/src/data_transfer/client_request_transfer.cpp:75-84 | a transfer goes out under the current number, a farewell as its literal |
| Clients.RequestDispatcher.TryOnce | client/src/data_transfer/client_request_transfer.cpp:72-139 | one turn of the retry loop, with the server's side, through the texts |
| Clients.RequestDispatcher.DispatchRequest | client/src/data_transfer/client_request_transfer.cpp:66-145 | the whole loop does what its attempts do one after the other, until one succeeds or five have been made |
| Delivery.Resynchronises | client/src/data_transfer/client_request_transfer.cpp:195-196 | whatever the number and whatever the outcome, the number taken from the answer is the one the server expects next |
| Delivery.TwoSends | client/src/data_transfer/client_request_transfer.cpp:66-139 | with nothing lost, a transfer that can be paid is paid exactly once, within two sends, other clients active or not |
| Delivery.PaysAtMost | client/src/data_transfer/client_request_transfer.cpp:66-145 | under any loss a dispatch ends within its attempts, pays at most once per lost answer and once more if it reports success, and never reports success unpaid |
| Delivery.ReportIsTrue | client/src/data_transfer/client_request_transfer.cpp:66-145 | with no answer lost, success means one payment and anything else means none |
| Delivery.PaysAsCommitted | client/src/data_transfer/client_request_transfer.cpp:66-145 | undisturbed, the amount moves between the two balances exactly as often as it was committed, and nobody else is touched |
| Delivery.AttemptToTransfer | client/src/data_transfer/client_request_transfer.cpp:72-139 | one attempt is done exactly when it is answered, in step, and can be paid or is a balance check, and pays exactly when it arrives, in step, and can be paid |
| Delivery.BalanceCheckExactly | client/src/data_transfer/client_request_transfer.cpp:66-145 | under any loss and whatever the others do, a balance check ends with the first answer if the client is in step and with the second if not, and uses no number up |
| Payments.PaymentsExactly | client/src/data_transfer/client_request_transfer.cpp:72-139 | whatever the other clients do, as long as the order can be paid whenever it is due, the payments, the report and the number of attempts of one dispatch are functions of the losses and of whether the client is in step, for every ledger, amount and number |
| Payments.AloneFunded | client/src/data_transfer/client_request_transfer.cpp:72-139 | with nobody else active it can, if the balance covers the payments that the losses call for |
| Payments.PaidMoreThanOnceExactly | client/src/data_transfer/client_request_transfer.cpp:72-139 | it is paid more than once if and only if, once in step, an answer is lost, a later packet is answered, and another is sent |
| Payments.PaidAgainWhen | client/src/data_transfer/client_request_transfer.cpp:72-139 | the same condition on the losses, as positions of attempts |
| Payments.PaidTwiceForOne | client/src/data_transfer/client_request_transfer.cpp:75-129 | whatever registrations went before, one lost answer makes any registered client pay its first order to any other twice |
| Leaving.AttemptToLeave | client/src/data_transfer/client_request_transfer.cpp:75-111 | one attempt to leave: what is removed, what is reported, and who is registered afresh |
| Leaving.LeavesExactly | client/src/data_transfer/client_request_transfer.cpp:66-145 | whatever the others do, a dispatch of a farewell reports success if and only if one of its packets arrives and is answered while the client is registered, which is told from the losses alone; then the client is gone, and otherwise it is registered or not by the losses alone |
| Leaving.ReportedGone | client/src/data_transfer/client_request_transfer.cpp:66-145 | a reported farewell is true even if datagrams of the client's own are still about |
| Leaving.LeavesAtOnce | client/src/data_transfer/client_request_transfer.cpp:75-129 | with nothing lost one packet is enough, and nobody else is touched |
| Leaving.GoneUnheard | client/src/data_transfer/client_request_transfer.cpp:72-145 | a client whose packet arrives but not the answer, and that does not find the server again, is gone and gives up without knowing |
| Leaving.LeavesAgain | client/src/data_transfer/client_request_transfer.cpp:100-111 | a client that then finds the server is registered afresh, and leaves again with the starting balance |
| Leaving.StaysAs | client/src/data_transfer/client_request_transfer.cpp:72-145 | left to itself, a client that is still registered after the dispatch has its old record if no packet arrived, and a new one otherwise |
| Replication.BroadcastUpdate | server/src/db_synchronizer/db_synchronizer.cpp:42-50 | what is sent is the snapshot's text |
| Replication.ListenForUpdates | server/src/db_synchronizer/db_synchronizer.cpp:52-82 | the loop replaces the database by each foreign snapshot in turn, ignoring its own, until one does not parse |
| Replication.FollowedExactly | server/src/db_synchronizer/db_synchronizer.cpp:42-80 | a listener holds what was sent exactly when the snapshot is portable and not too long |
| Followers.FollowedAlso | server/src/db_synchronizer/db_synchronizer.cpp:59-80 | one more datagram replaces what was held if it is another server's, ends the listener if it does not parse, and is ignored if it is its own |
| Followers.FollowedIsLast | server/src/db_synchronizer/db_synchronizer.cpp:59-80 | a listener survives exactly when every foreign datagram parses, and then holds what the last one says |
| Followers.StepFollows | server/src/db_synchronizer/db_synchronizer.cpp:42-80 | every event of the cluster does to a listener what its broadcast, if any, does to the listening loop |
| Followers.ListenersFollow | server/src/db_synchronizer/db_synchronizer.cpp:42-80 | in any run with snapshots of any length, a server that has only listened since it joined and has read all it was sent holds exactly what its loop makes of all broadcasts since, and is gone only if that is an error |
| Followers.ChangesOfLead | server/src/election/redundancy_manager.cpp:67-78 | a crash takes one server away, a take-over or hand-over changes the coordinator, and no database or snapshot under way changes with it |
| Failover.QuietHandler | server/src/request_handler/REQ_packet_handler.cpp:164-167 | what a handler does not broadcast changes neither members nor balances nor totals |
| Failover.StepKeeps | server/src/db_synchronizer/db_synchronizer.cpp:42-80 | every event of a cluster whose broadcast, if it makes one, can be read, handlers, deliveries, joins, crashes and hand-overs, keeps backups in agreement and payments apart |
| Failover.BackupsAgree | server/src/request_handler/REQ_packet_handler.cpp:164-171 | in every run whose broadcasts can be read, a server that has read what was sent to it has the coordinator's members, balances and totals |
| Failover.NeverPaidTwice | server/src/request_handler/REQ_packet_handler.cpp:120-171 | in every run whose broadcasts can be read, with any number of take-overs, no two payments of a registration carry the same number |
| Failover.MoneySurvives | server/src/request_handler/KIL_packet_handler.cpp:26-77 | in every run whose broadcasts can be read, the current coordinator's balances are all registered starting balances less all withdrawn ones |
| Failover.TakeOverLosesNothing | server/src/greeter/server_discovery_service.cpp:90-101 | when in a run whose broadcasts can be read a backup takes over from a crashed coordinator, members, balances, totals and money stay |
| Failover.BroadcastGathers | server/src/db_synchronizer/db_synchronizer.cpp:42-80 | after any broadcast that can be read, whatever hand-overs went before, all backups will hold the coordinator's ledger to the letter |
| Failover.BackupsNotAhead | server/src/db_manager/db_manager.cpp:405-431 | in every run whose broadcasts can be read, a backup's request numbers are at most the coordinator's, unless a living coordinator was replaced and nothing was broadcast since |
| TakeOvers.MoneySurvivesExactly | server/src/db_synchronizer/db_synchronizer.cpp:42-75 | in every run in which coordinators change by failing and numbers fit an `int`, with snapshots of any length, the coordinator's balances never exceed all registered less all withdrawn, and equal it if and only if in no take-over a client with money lay behind the cut of the last broadcast |
| TakeOvers.UncutNeverPaidTwice | server/src/request_handler/REQ_packet_handler.cpp:120-171 | in every such run, even if clients were lost, no two payments of a registration carry the same number as long as in no take-over the cut of the last broadcast was within a request number |
| TakeOvers.SuccessorAcceptsExactly | server/src/db_manager/db_manager.cpp:373-380 | in every such run, a server about to take over accepts a number that the last broadcast had counted if and only if its cut was within a request number |
| Election.RedundancyManager.constructor | server/src/election/redundancy_manager.cpp:49-64 | a server starts in INIT and leads nobody |
| Election.RedundancyManager.Promote | server/src/election/redundancy_manager.cpp:67-74 | becomes coordinator |
| Election.RedundancyManager.Demote | server/src/election/redundancy_manager.cpp:76-78 | is no longer coordinator |
| Election.RedundancyManager.IsValid | server/src/election/single_socket_election.cpp:321-374 | accepts a message of the kind from another id, and then remembers that id |
| Election.RedundancyManager.ElectionResultSwitch | server/src/election/single_socket_election.cpp:176-223 | classifies one reading of the socket |
| Election.RedundancyManager.StartElectionProcedure | server/src/election/single_socket_election.cpp:225-235 | answers, calls an election and enters it |
| Election.RedundancyManager.BackupElection | server/src/election/single_socket_election.cpp:237-243 | calls an election and enters it, from any state |
| Election.RedundancyManager.HandleElectionMessage | server/src/election/single_socket_election.cpp:246-252 | answers a lower caller, waits for a higher one |
| Election.RedundancyManager.HandleAnswerMessage | server/src/election/single_socket_election.cpp:254-260 | a waiting server goes on waiting |
| Election.RedundancyManager.HandleCoordinatorAnnouncement | server/src/election/single_socket_election.cpp:262-274 | follows the announcer, giving up its own lead |
| Election.RedundancyManager.HandleInProgressTimeout | server/src/election/single_socket_election.cpp:276-291 | after a wait of 200 announces itself and leads |
| Election.RedundancyManager.Turn | server/src/election/single_socket_election.cpp:61-173 | one turn of the machine makes the new state and sends the messages that its transition function gives |
| ElectionHistory.NodeKeeps | server/src/election/single_socket_election.cpp:52-89 | INIT is left by the first event and never entered again; the start time never changes |
| ElectionHistory.PromotesExactly | server/src/election/single_socket_election.cpp:136-171 | in any history a server makes itself coordinator exactly on a silent read in an election 200 after its start, and then it has read no higher call and no foreign announcement since it entered the election |
| ElectionHistory.LateElectionsDoNotWait | server/src/election/single_socket_election.cpp:57-59 | an election begun by the heartbeat is won by the first silent read exactly when the process is 200 old |
| LateElection.LateElectionOverturns | server/src/election/single_socket_election.cpp:57-59 | for any two servers, whenever each was started, a run without any loss in which the higher one first leads, one heartbeat fails at the lower one, and nothing is under way at the end, the lower one leading and the higher one following it |
| LateElection.LateCallerLeads | server/src/election/single_socket_election.cpp:57-59 | among any number of servers with no announcement under way, one that is in an election and silent once, 200 after its start or later, is the only coordinator once nothing is under way, in every order of deliveries, and all others take it for that |
| ElectionHistory.WaitsForHigher | server/src/election/single_socket_election.cpp:98-122 | a server begins to wait exactly on a call of a strictly higher one |
| ElectionHistory.WaitedFor | server/src/election/single_socket_election.cpp:98-171 | whoever waits has read a call of a higher server |
| ElectionHistory.LeadershipIsHistory | server/src/election/single_socket_election.cpp:262-291 | a server leads exactly when its last leadership event was its own announcement, and its coordinator address is the source of the last foreign one |
| ElectionHistory.SendsExactly | server/src/election/single_socket_election.cpp:82-171 | what one event makes a server send: the database on a foreign call as coordinator in no election, answers to lower callers, calls of its own, announcements, each in exactly those cases |
| ElectionHistory.SnapshotsFromTheLeader | server/src/election/single_socket_election.cpp:104-108 | in any history a server broadcasts its database exactly on a foreign call that it reads in no election with its own announcement as the last thing it knows of leadership |
| ElectionHistory.GoesExactly | server/src/election/single_socket_election.cpp:82-171 | which events take a server where |
| ElectionHistory.OwnWordsIgnored | server/src/election/single_socket_election.cpp:321-374 | a server that has started takes no notice of its own broadcasts and of what is no message |
| ElectionHistory.RemembersLast | server/src/election/single_socket_election.cpp:91-155 | in any history the remembered id is that of the last foreign message, and the remembered wait is that of the last read |
| ElectionNetwork.RoutedIs | server/src/election/single_socket_election.cpp:293-319 | what is under way after a reaction: an answer to its one addressee, an announcement to everybody |
| ElectionNetwork.StepKeepsSane | server/src/election/single_socket_election.cpp:321-374 | nobody signs with another's id, and INIT never leads, even with loss |
| ElectionNetwork.TopNeverWaitsInRun | server/src/election/single_socket_election.cpp:225-260 | in every run, even with loss, the server with the highest id never waits |
| ElectionNetwork.StepKeepsRivals | server/src/election/single_socket_election.cpp:262-291 | every event but a loss keeps an announcement under way between any two coordinators |
| ElectionNetwork.TwoCoordinators | server/src/election/single_socket_election.cpp:262-291 | in every run without loss, of two coordinators one has its announcement on the way to the other |
| CleanElection.OnlyTheTopWins | server/src/election/single_socket_election.cpp:136-151 | only the highest server reaches the end of its wait with no call under way, and then all others wait |
| CleanElection.ElectionCourse | server/src/election/single_socket_election.cpp:82-171 | an undisturbed election is undecided, or decided for the highest server, in every order of deliveries and repetitions |
| CleanElection.HighestWins | server/src/election/single_socket_election.cpp:136-171 | nobody but the highest server ever leads, and once its announcement is read every other server is settled on its address |
| CleanElection.ElectionEnds | server/src/election/single_socket_election.cpp:276-291 | when all is read, the highest server's next silence after its wait decides the election |

## Left out

- Sockets, thread creation, broadcast setup, finding the own address, loopback filtering and buffer termination: datagrams
  are values in a multiset, a queue or a history, and a timeout is an event.
- Packets.ToReqPacket: reads an address in four decimal parts only, where `inet_addr` also takes fewer parts, octal and
  hexadecimal ones; no program of the repository prints those.
- Packets.ToAckPacket: reads addresses in four decimal parts only, likewise.
- Snapshots.FromString: reports an error for a text whose words end within a record or before the totals, where the source
  reads beyond the end of a vector.
- Clients.RequestDispatcher.TryOnce: takes each answer as the answer to the current attempt; answers to earlier attempts
  that arrive late are not modelled.
- Clients.RequestDispatcher.DispatchRequest: likewise without late answers.
- Failover.StepKeeps: for events whose broadcast can be read.
- Failover.BackupsAgree: for runs whose broadcasts can be read; what a backup holds otherwise is `Cuts.ReceivedAs`.
- Failover.NeverPaidTwice: likewise; without that, see `TakeOvers.UncutNeverPaidTwice` and `Overlong.PaidTwiceAfterTakeOver`.
- Failover.MoneySurvives: likewise; without that, see `TakeOvers.MoneySurvivesExactly` and
  `LostClient.MoneyLostAfterTakeOver`.
- Failover.TakeOverLosesNothing: likewise for runs whose broadcasts can be read.
- Failover.BroadcastGathers: likewise for a broadcast that can be read.
- Failover.BackupsNotAhead: likewise, and not between the replacement of a living coordinator and the next broadcast.
- TakeOvers.MoneySurvivesExactly: without hand-overs between live servers, after which the old coordinator may hold more
  than the new one.
- TakeOvers.UncutNeverPaidTwice: likewise without hand-overs between live servers.
- The text form of the three election messages.
- A hash map is read and written in single steps: the data races of the source on the buckets of its unordered maps, and
  on the fields that the heartbeat thread shares with the election thread, are not part of this model.
- An uncaught exception ends the whole server; in the model the other threads may still go on, which only adds runs.
- The contents of a record that an operation returns after unlocking are modelled only for one thread at a time; with many
  threads the status, the state, and whether the record is still there are.
- `num_transactions` and `total_balance` overflow by wrapping, which C++ leaves undefined for a signed `int`.
- `load_snapshot` and `get_db_snapshot` take no locks; they are modelled between operations only.
- Request handlers of one server running at once are modelled for the copies of one request (`HandlerRace`); all other
  claims about request numbers take each handler as one step.
- Snapshots that overtake one another, and clients that address a backup: backups read their snapshots in order, and a
  successor has read all of its own when it takes over.
- The wall clock's truncation to `int`: time is a number that does not decrease.
- `KIL_Packet::to_string`, which prints another tag and is not used.
- The request queue, client discovery, the heartbeat's own messages, console input, logging and dates; a heartbeat that
  fails is an event that can happen at any server at any time.
- That an election comes to an end is shown from the moment when all datagrams have been read; that they are read is up
  to the network.
