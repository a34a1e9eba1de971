# Verified models of the ccfolio server

A Dafny 4.11 project about the parts of the server that carry state, and about its two tool
runners. Each part is modelled on values by small step functions; what the code promises is
proved about those functions for every input and every run. Where the code is an object whose
methods update its fields there is also a class whose methods are proved to do exactly what the
step functions say. `dafny verify dfyconfig.toml` checks everything.

| files | part |
|---|---|
| `Session.dfy`, `Broadcast.dfy`, `BroadcastProof.dfy`, `BroadcastResults.dfy`, `BroadcastSend.dfy`, `BroadcastTrace.dfy`, `WebSocketSession.dfy` | WebSocket sessions, the membership set and broadcasting threads |
| `LogModel.dfy`, `LogResults.dfy`, `LogTrace.dfy`, `LogService.dfy` | the log service: producers, worker, shutdown |
| `OdbModel.dfy`, `OdbStatements.dfy`, `OdbProof.dfy`, `OdbResults.dfy`, `OdbLaws.dfy`, `UserConnection.dfy` | the generated persistence code: versioned bindings over one shared image |
| `Hex.dfy`, `Password.dfy`, `Entities.dfy`, `UserStore.dfy`, `UserService.dfy`, `Accounts.dfy`, `StoredUsers.dfy`, `CreateRace.dfy` | hex codec, password check, repositories, service; serial and interleaved registration, down to the persisted rows |
| `Router.dfy`, `HttpSession.dfy` | route table and HTTP session |
| `TidyPool.dfy`, `ListFiles.dfy` | the clang-tidy work queue, the clang-format file walk and exit code |

## How the parts are modelled

Concurrency is interleaving of steps. A run is a sequence of states and steps from an initial
state; a theorem about runs quantifies over all of them. Flags and histories in a state are tied
to the steps that led to it (`BroadcastTrace.StepsTell`, `LogTrace.EveryCallIsLogged`,
`LogTrace.StopsTell`, `CreateRace.StepsTell`, `HttpSession.EventsTell`, `TidyPool.TakenInOrder`).

*Broadcast.* A step is one completion on a session's strand or one action of a thread inside
`SharedState::send`: lock, take one pointer, unlock, promote one weak pointer, post, drop the
pointer. `strong` is the shared-pointer use count, raised and lowered where the code makes and
destroys pointers; that it always equals the pending handlers plus the promoted pointers is
proved. A session whose count reaches zero is Dying until its destructor gets the mutex, then
Gone. A strand runs handlers posted by one thread in posting order. Handlers are eventually run.

*Log service.* The worker has eleven program points; testing the wait predicate and blocking are
separate steps, because the stop flag is stored and announced without the mutex. Each read of the
flag or of the queue is one atomic step.

*Persistence.* Buffers live at addresses in a heap; growing one frees its storage and allocates
new, unwritten cells; statements read and write only through the addresses in their binding
arrays, so a stale binding would be visible as garbage. A buffer reallocates only when its
capacity grows, versions start at zero and do not wrap, a fetch stores true sizes and flags
exactly the columns that did not fit.

*Accounts.* Argon2 is any deterministic function of password and salt that may fail; salts, token
signing, and the point at which a transaction fails are arbitrary parameters. The database commits
or rolls back; it has no uniqueness constraint on usernames.

## Where a promise fails, and exactly when

- Shutdown: the comment at `src/Utility/LogService.cc:139` says the worker runs until the service
  is stopped. `LogResults.LostStopHappens` is a six-step run in which it sleeps for ever;
  `LogResults.ShutdownCompletesIff` shows that, with the producers gone, the join returns if and
  only if the stop notification did not find the worker between its predicate test and its block.
- Unique usernames: `CreateRace.DuplicatesHappen` gives two runs that create duplicates;
  `CreateRace.InsertDuplicatesIff` says exactly which inserts add one.
- A failed registration changes nothing, except when the token cannot be signed after the commit:
  `UserStore.FailedRegisterChangesNothingIff`; `UserStore.UnsignedRegistrationStays` is one.
- Hex decoding accepts more than hex: `Hex.DecodesIff` says exactly which texts it takes and what
  each chunk then stands for, `Hex.ReencodeIff` for which texts re-encoding returns the text in
  lower case.
- A route key splits uniquely exactly when the method has no colon (`Router.SplitsIffColonFree`),
  and requests are routed as by a table of pairs if and only if every method with a colon was
  registered over (`Router.LikeAPairMapIff`); `Router.WrongHandlerHappens` is a table that answers
  with the wrong handler.
- `join` of the tidy queue returns if and only if there is at least one worker, or no file, and no
  worker thread dies with a file in hand: `TidyPool.StuckMeansReturned`. `TidyPool.CrashStrandsJoin`
  and, for a negative `-j`, `TidyPool.NegativeJobsStrandJoin` are runs that wait for ever.

## Model

| member | source | states |
|---|---|---|
| SessionModel.ReaderStepsKeep | src/Network/WebSocketSession.cc:24-46 | accept and read completions keep the use count exact and, until the session ends, exactly one reader under way |
| SessionModel.OnSendKeeps | src/Network/WebSocketSession.cc:53-62 | running a posted send starts a write only on an empty queue and keeps delivered, queue and posted together equal to the send history |
| SessionModel.OnWriteKeeps | src/Network/WebSocketSession.cc:64-74 | a completed write delivers the queue head and starts the next; a failed one delivers nothing and leaves the queue blocked |
| SessionModel.PostKeeps | src/Network/WebSocketSession.cc:48-51 | a post extends history and pending handlers by one and owns one more pointer |
| SessionModel.PointerKeeps | src/Network/SharedState.cc:33-34 | promoting and dropping a pointer keep the count exact; the last drop, and only it, ends the session's life |
| SessionModel.DeadIsDrained | src/Network/WebSocketSession.cc:53-74 | an unfailed session without pointers has delivered all; a queued message means one write and a live session |
| BroadcastProof.PromotersAfter | src/Network/SharedState.cc:32-34 | moving one thread changes the number of promoted pointers to a session by that thread alone |
| BroadcastProof.OrderedGrows | src/Network/SharedState.cc:32-34 | the message a thread posts follows all its earlier ones at that session and was not posted there before |
| BroadcastProof.UnlockKeepsSent | src/Network/SharedState.cc:24-30 | publishing a snapshot owes the message to exactly its members |
| BroadcastProof.TurnKeepsSent | src/Network/SharedState.cc:32-34 | each turn of the fan-out loop keeps the account of who got, missed and is still owed each broadcast |
| BroadcastProof.TurnCounts | src/Network/SharedState.cc:33-34 | promote, post and drop keep the use count equal to handlers plus promoted pointers |
| BroadcastProof.StepKeepsInv | src/Network/SharedState.cc:8-35 | every step of any thread or strand keeps mutex, membership, lifetime, ordering and delivery accounts |
| BroadcastProof.RunKeepsInv | src/Network/SharedState.cc:8-35 | the invariant holds in every state of every run |
| BroadcastResults.RunOnward | src/Network/WebSocketSession.cc:48-74 | histories only grow; after a write error delivery is frozen, after death nothing is posted |
| BroadcastResults.DrainBeforeDeath | src/Network/WebSocketSession.cc:48-74 | a session that died without a write error delivered exactly what was posted, in order; a non-empty unfailed queue has one write handler and a live session |
| BroadcastResults.LivesUntilEnded | src/Network/WebSocketSession.cc:24-46 | until it ends a session lives, with exactly one accept or read under way, and afterwards none is |
| BroadcastResults.CompletionsFindTheirState | src/Network/WebSocketSession.cc:64-74 | a completed write finds its message at the queue head, a returning handler still owns a pointer, pending work means a live session |
| BroadcastResults.UndeliveredCanMove | src/Network/WebSocketSession.cc:48-74 | while anything posted is undelivered and no write failed, the session has a handler to run |
| BroadcastResults.UndeliveredIsDelivered | src/Network/WebSocketSession.cc:48-74 | from any reachable state, a session whose writes succeed delivers all that was posted within a stated number of its handlers, needing the mutex only to join |
| BroadcastResults.WriteProtocol | src/Network/WebSocketSession.cc:53-74 | at most one write in flight, in flight iff the queue is non-empty, and it is the head; nothing more after a write error |
| BroadcastResults.FifoAtMostOnce | src/Network/SharedState.cc:20-35 | one thread's broadcasts reach every session in their order, none twice |
| BroadcastResults.ExactlyOnceToPromotable | src/Network/SharedState.cc:24-34 | a finished broadcast was posted exactly once to each promotable session of its snapshot and to nobody else; the others were dead |
| BroadcastResults.PromotionDecides | src/Network/SharedState.cc:32-34 | a session is missed iff its use count was zero when tried; otherwise the post follows |
| BroadcastResults.SnapshotsAreSafe | src/Network/SharedState.cc:25-30 | every pointer dereferenced under the lock names a joined session whose destructor has not passed leave; a snapshot is exactly the membership |
| BroadcastResults.NeverPostedToTheDead | src/Network/SharedState.cc:14-34 | once the count is zero nothing is posted any more, however long the destructor waits |
| BroadcastResults.NoDeadlock | src/Network/SharedState.cc:8-35 | in every reachable state a broadcaster can step or waits for another that can |
| BroadcastResults.FanOutStarts | src/Network/SharedState.cc:24-34 | after the unlock a broadcast has at most one step and four for each session of its snapshot to take |
| BroadcastResults.FanOutEnds | src/Network/SharedState.cc:32-35 | however the others interleave, a broadcast past its snapshot ends within that many steps of its own thread |
| BroadcastSend.SnapAll | src/Network/SharedState.cc:24-30 | the locked loop takes each member exactly once, in as many steps |
| BroadcastSend.SendGetsOut | src/Network/SharedState.cc:20-35 | from any reachable state with the mutex free, a call of an idle thread left alone is over after at most four steps and four for each member; its snapshot is the membership at the call, every member alive then has the message exactly once and last, with one handler more, and nothing else changed |
| BroadcastTrace.StepsTell | src/Network/WebSocketSession.cc:24-74 | in every run a session exists iff made, has ended iff an accept or read of it failed, has failed iff a write of it failed, has been accepted and joined iff that happened, has delivered one message for each successful write, was sent what the fan-outs posted, in order, and is gone iff its destructor ran |
| BroadcastTrace.LivesUntilReaderFails | src/Network/WebSocketSession.cc:24-46 | until its accept or a read fails a session lives with exactly one accept or read under way, whatever succeeds; afterwards it has neither |
| BroadcastTrace.DiesDrained | src/Network/WebSocketSession.cc:48-74 | a session that died without a failed write delivered exactly what the fan-outs posted to it, in order, one message for each successful write |
| BroadcastTrace.NothingAfterFailedWrite | src/Network/WebSocketSession.cc:64-74 | after a failed write completion nothing is delivered and no write is under way, for the rest of the run |
| BroadcastTrace.MembersAre | src/Network/SharedState.cc:8-18 | the members are exactly the sessions that joined, after a successful accept, and whose destructor has not run |
| BroadcastTrace.PendingCanRun | src/Network/WebSocketSession.cc:11-74 | on a free strand every pending accept, read, post and write can run with either outcome, and a dying session can leave once the mutex is free |
| WebSocketObjects.WebSocketSession.constructor | src/Network/WebSocketSession.h:45-55 | a new session has one owner, its accept handler |
| WebSocketObjects.WebSocketSession.AcceptCompleted | src/Network/WebSocketSession.cc:24-32 | accept: join and start reading, or end |
| WebSocketObjects.WebSocketSession.ReadCompleted | src/Network/WebSocketSession.cc:34-46 | read: read again, or end |
| WebSocketObjects.WebSocketSession.Send | src/Network/WebSocketSession.cc:48-51 | send posts one handler |
| WebSocketObjects.WebSocketSession.SendCompleted | src/Network/WebSocketSession.cc:53-62 | on_send, in place |
| WebSocketObjects.WebSocketSession.WriteCompleted | src/Network/WebSocketSession.cc:64-74 | on_write, in place |
| WebSocketObjects.SharedState.Join | src/Network/SharedState.cc:8-12 | the session is added and nothing else changes |
| WebSocketObjects.SharedState.Leave | src/Network/SharedState.cc:14-18 | the session is removed and nothing else changes |
| WebSocketObjects.SharedState.Snapshot | src/Network/SharedState.cc:24-30 | the vector holds every member exactly once |
| WebSocketObjects.SharedState.Send | src/Network/SharedState.cc:20-35 | undisturbed, every live member gets the message exactly once and its use count grows by its one new handler; dead members are untouched |
| LogModel.MutexKeeps | src/Utility/LogService.cc:97-101 | worker and producers hold the mutex exactly at their locked program points |
| LogModel.WorkConserves | src/Utility/LogService.cc:144-160 | a worker step moves entries along without loss, copy or reordering |
| LogModel.QueueKeeps | src/Utility/LogService.cc:96-160 | every step keeps pushed equal to consumed, held and queued, and the file equal to what was consumed |
| LogModel.WakeupKeeps | src/Utility/LogService.cc:97-147 | every step keeps: a blocked worker with a non-empty queue has a producer about to notify |
| LogModel.PushKeeps | src/Utility/LogService.cc:97-100 | a push moves its producer's pending entry and shows in nobody else's share |
| LogModel.ProducersKeep | src/Utility/LogService.cc:78-101 | each producer's pushes and pending entry are its calls that passed the level filter, in order |
| LogModel.RunKeepsInv | src/Utility/LogService.cc:24-161 | all of it in every state of every run |
| LogResults.LogConservation | src/Utility/LogService.cc:78-160 | pushed = consumed ++ held ++ queue, the file is what was consumed, and each producer's share is its filtered calls in order |
| LogResults.ExitLosesNothing | src/Utility/LogService.cc:144-160 | the worker exits with an empty queue; what stays unwritten later is exactly what was pushed after that |
| LogResults.NoLostWakeup | src/Utility/LogService.cc:97-147 | in every reachable state a blocked worker with work is about to be notified, and the worker owns the mutex exactly at its locked points |
| LogResults.ShutdownProgress | src/Utility/LogService.cc:24-160 | once the stop flag is set a worker not asleep never falls asleep again, each of its steps strictly descends to the exit, only a producer that can go on delays it, only a push undoes progress; after the stop notification it is asleep only if that was lost |
| LogResults.Finishes | src/Utility/LogService.cc:144-160 | an awake worker left alone consumes everything, writes it to an open file, and exits |
| LogResults.ShutdownCompletesIff | src/Utility/LogService.cc:24-31 | with producers gone the join returns iff the stop notification did not fall between predicate test and block; then everything pushed is in the file |
| LogResults.LostStopHappens | src/Utility/LogService.cc:26-27 | a run in which that notification is lost and the worker never moves again |
| LogTrace.EveryCallIsLogged | src/Utility/LogService.cc:48-101 | in every run a producer has pushed, or is about to push, exactly the calls it made at or above the level then in force, in order; the level is the last one set |
| LogTrace.UndisturbedCall | src/Utility/LogService.cc:72-102 | a call below the level does nothing; any other, undisturbed, ends with its entry last in the queue and a blocked worker woken |
| LogTrace.StopsTell | src/Utility/LogService.cc:24-36 | in every run the flag is cleared by the store alone, the file closed by the join alone, and a notification is lost iff it comes while the worker is between test and block |
| LogTrace.CatchesUp | src/Utility/LogService.cc:144-160 | while the service runs a worker left alone takes everything queued to the file and then blocks |
| LogTrace.EverythingGetsWritten | src/Utility/LogService.cc:72-160 | in every run, whenever no call is under way and no stop has begun, some worker steps bring all that was pushed to the file |
| LogTrace.DestructionCompletes | src/Utility/LogService.cc:24-36 | store, notify, some worker steps and join follow one on the other and leave the file closed with everything pushed, unless the worker is between test and block |
| LogTrace.SpuriousIsHarmless | src/Utility/LogService.cc:147 | a spurious wakeup sends an idle worker through the test and back to sleep |
| LogObjects.LogService.Log | src/Utility/LogService.cc:72-102 | a call below the level is dropped, any other is queued last |
| LogObjects.LogService.Wait | src/Utility/LogService.cc:147 | the wait ends with the service stopped or something queued, skips nothing that arrives, and does nothing if there is no reason to wait |
| LogObjects.LogService.DrainQueue | src/Utility/LogService.cc:148-158 | the queue goes to an open file in order |
| LogObjects.LogService.ProcessMessages | src/Utility/LogService.cc:141-161 | whatever arrives at its waits, in any batches, the worker ends with everything queued before and everything that arrived in the file, in order |
| LogObjects.LogService.Destroy | src/Utility/LogService.cc:24-36 | undisturbed destruction leaves an empty queue and a closed, complete file |
| OdbModel.ReserveKeeps | app/Entities/odb/User-odb.cxx:104-126 | a buffer grows to fit, moves only if it grows, and spares the other columns |
| OdbModel.SetColumnKeeps | app/Entities/odb/User-odb.cxx:197-207 | setting a column stores its text and size, and reallocates iff the capacity changed |
| OdbProof.VersionedKeeps | app/Entities/odb/User-odb.cxx:346-354 | an image whose version moves whenever a buffer does leaves no stale binding unmarked |
| OdbProof.InitImageKeeps | app/Entities/odb/User-odb.cxx:185-238 | init stores the object's three strings and reports growth |
| OdbProof.InsertCoherent | app/Entities/odb/User-odb.cxx:343-367 | insert executes with parameter and id bindings equal to a fresh bind |
| OdbProof.UpdateCoherent | app/Entities/odb/User-odb.cxx:389-423 | update executes with its image and id slots equal to a fresh bind |
| OdbProof.EraseCoherent | app/Entities/odb/User-odb.cxx:440-451 | erase executes with a bound id |
| OdbProof.SelectCoherent | app/Entities/odb/User-odb.cxx:568-591 | select executes with result and id bindings equal to a fresh bind |
| OdbProof.FetchFresh | app/Entities/odb/User-odb.cxx:591-593 | a fetch through a fresh binding stores true sizes and every text that fits |
| OdbProof.GrowsFlagged | app/Entities/odb/User-odb.cxx:93-129 | grow enlarges the flagged columns to their recorded sizes and touches no other |
| OdbProof.RegrowKeeps | app/Entities/odb/User-odb.cxx:595-607 | growth makes insert, update and select bindings stale, the select binding is renewed, and every column fits |
| OdbProof.FindReads | app/Entities/odb/User-odb.cxx:564-610 | whatever the capacities, the image after find_ holds the whole row |
| OdbProof.RefetchIsReady | app/Entities/odb/User-odb.cxx:595-607 | a find refetches iff some text is longer than its buffer, through a fresh binding; stopping there leaves growth and rebinding done and nothing stale |
| OdbResults.PersistMeans | app/Entities/odb/User-odb.cxx:332-374 | persist inserts the object's strings under the next id and returns that id |
| OdbResults.UpdateMeans | app/Entities/odb/User-odb.cxx:376-429 | update replaces exactly the row of that id, or reports that there is none |
| OdbResults.FindMeans | app/Entities/odb/User-odb.cxx:509-610 | find returns exactly the row of that id, or reports that there is none; with a failing refetch it fails iff some text of the row does not fit its buffer |
| OdbResults.ConnectionRefinesTable | app/Entities/odb/User-odb.cxx:332-610 | any sequence of operations, with statements and refetches failing anywhere, does to the table what it means on a plain map, and returns that unless its own refetch failed |
| OdbResults.BindingCoherence | app/Entities/odb/User-odb.cxx:343-607 | after any such sequence the next execution of any statement, and the refetch of a find, sees a fresh bind |
| OdbResults.VersionsTell | app/Entities/odb/User-odb.cxx:393-421 | any operation that moves a buffer moves the image version, and any that changes a binding moves its version |
| OdbResults.PersistThenFind | app/Entities/odb/User-odb.cxx:332-374 | persist, any operations sparing the new row, then find: the same three strings |
| OdbLaws.UpdateThenFind | app/Entities/odb/User-odb.cxx:376-429 | an update says whether the row is there; if so, after operations sparing the row, find returns the new strings, if not it never returns the row |
| OdbLaws.EraseThenFind | app/Entities/odb/User-odb.cxx:431-455 | an erase says whether the row is there, and whatever follows, no find of an issued id returns it again |
| OdbLaws.FaultsFail | app/Entities/odb/User-odb.cxx:332-455 | an operation whose statement fails says so and leaves the table alone |
| OdbLaws.GrowsIffTooLong | app/Entities/odb/User-odb.cxx:185-238 | init moves the image version iff one of the strings is longer than its buffer |
| OdbLaws.BoundAnewIffStale | app/Entities/odb/User-odb.cxx:346-421 | each binding is made anew iff it was never made or the image moved on since |
| OdbObjects.UserConnection.InitImageFrom | app/Entities/odb/User-odb.cxx:185-238 | init, in place |
| OdbObjects.UserConnection.Persist | app/Entities/odb/User-odb.cxx:332-374 | in place, on any coherent connection: the table gets the object's strings under the next id and nothing else changes, and the connection stays coherent |
| OdbObjects.UserConnection.Update | app/Entities/odb/User-odb.cxx:376-429 | in place, on any coherent connection: the table's row of that id, and only that, is replaced, or its absence reported, and the connection stays coherent |
| OdbObjects.UserConnection.Erase | app/Entities/odb/User-odb.cxx:431-455 | in place, on any coherent connection: the table loses exactly that row, or its absence is reported, and the connection stays coherent |
| OdbObjects.UserConnection.GrowAndRefetch | app/Entities/odb/User-odb.cxx:595-607 | the truncated path, in place, whether or not the refetch succeeds |
| OdbObjects.UserConnection.Find | app/Entities/odb/User-odb.cxx:509-610 | in place, on any coherent connection: exactly the row of that id is returned, or its absence reported, or the failed refetch, and the connection stays coherent |
| Hex.ToHex | src/Utility/Utility.h:33-42 | two characters for each byte |
| Hex.DecodeInvertsEncode | src/Utility/Utility.h:33-59 | decoding inverts encoding for every byte sequence |
| Hex.EncodedAt | src/Utility/Utility.h:33-42 | the text has, for each byte, its high and then its low digit, in 0123456789abcdef |
| Hex.EncodeInjective | src/Utility/Utility.h:33-42 | different byte sequences have different texts |
| Hex.EncodeIsLowerHex | src/Utility/Utility.h:33-42 | encoding yields lower-case hex digits only |
| Hex.ReencodeIff | src/Utility/Utility.h:49-59 | re-encoding a decoded text gives its lower case iff the text is pairs of hex digits of either case |
| Hex.StoiTakes | src/Utility/Utility.h:55 | a chunk is converted iff it starts with a digit, or with one space or sign and then a digit; its value to the byte |
| Hex.DecodesIff | src/Utility/Utility.h:49-59 | a text is decoded iff every one of its chunks has one of those forms, and then gives one byte for each chunk; any other chunk anywhere ends it with an exception |
| Hex.DecodeIsLenient | src/Utility/Utility.h:54-55 | instances of it: the texts of one digit, a digit and junk, a space or sign and a digit |
| Hex.ToHexString | src/Utility/Utility.h:33-42 | the encoding loop |
| Hex.FromHexString | src/Utility/Utility.h:49-59 | the decoding loop, two characters at a time |
| Password.VerifiesIffSameHash | src/Security/PasswordHelper.cc:52-164 | against a stored hash and salt, verification holds iff the raw hashes are equal, and throws iff hashing fails |
| Password.PasswordAnswers | src/Security/PasswordHelper.cc:52-164 | for any stored text and salt: which failures throw, with which message, and that otherwise the hex texts are compared |
| Password.HashPasswordWithArgon2 | src/Security/PasswordHelper.cc:52-91 | hash, then hex text and salt |
| Password.VerifyUser | src/Security/PasswordHelper.cc:100-115 | decode the salt, then verify; every exception becomes one |
| Password.VerifyPasswordWithArgon2 | src/Security/PasswordHelper.cc:125-164 | hash again and compare texts |
| UserStore.FirstNamedFinds | app/Repositories/UserRepository.h:85-94 | the lookup finds the first row of that name, and nothing iff there is none |
| UserStore.RepositoriesAnswer | app/Repositories/UserRepository.h:44-101 | lookup and creation succeed in exactly the stated cases and answer every other with its message |
| UserStore.LoginIs | app/Services/UserService.h:93-132 | for every request, table and fault: login succeeds iff the request is usable, the lookup works, a first row of the name exists, the password hashes to its text under its salt, and the name can be signed; the success carries that name and token, each refusal its message |
| UserStore.RegisterIs | app/Services/UserService.h:49-85 | for every request, table and fault: a registration adds one row, as stated, in exactly the stated cases, and succeeds iff it adds it and the name can be signed |
| UserStore.RegisterRefuses | app/Services/UserService.h:49-85 | which message each refused registration gets, and when an id is used up |
| UserStore.FailedRegisterChangesNothingIff | app/Services/UserService.h:49-85 | a failed registration leaves the rows alone except exactly when signing fails after the commit |
| UserStore.UnsignedRegistrationStays | app/Services/UserService.h:64-66 | a registration whose token cannot be signed answers failure and leaves its row, so that trying again is refused and logging in works |
| UserObjects.OdbRepository.Create | app/Repositories/OdbRepository.h:44-63 | begin, persist, commit; a failure anywhere leaves no row and no open transaction |
| UserObjects.UserRepository.GetUserByUsername | app/Repositories/UserRepository.h:78-101 | the loop that returns on its first row |
| UserObjects.UserRepository.CreateUser | app/Repositories/UserRepository.h:44-70 | look up, then insert |
| UserObjects.UserService.CreateUser | app/Services/UserService.h:49-85 | registration end to end |
| UserObjects.UserService.UserLogin | app/Services/UserService.h:93-132 | login end to end |
| Accounts.LookupInAnyOrder | app/Repositories/UserRepository.h:85-94 | while usernames are unique the lookup is the same in whatever order the database returns the rows |
| Accounts.LookupIs | app/Repositories/UserRepository.h:78-101 | on rows that represent a map, lookup is map lookup |
| Accounts.InsertRepresents | app/Repositories/OdbRepository.h:44-51 | inserting an unused name keeps names unique and extends the map |
| Accounts.StepMeans | app/Services/UserService.h:49-132 | one call changes the rows as the map of accounts says, and succeeds iff the map says so and the token can be signed |
| Accounts.StoreRefinesMap | app/Services/UserService.h:49-132 | serial runs with any insert and signing failures refine a map: unique names, refused creates change nothing, answers agree up to signing |
| Accounts.MapHoldsOwners | app/Repositories/UserRepository.h:44-70 | the map holds, for each name, its first registration that could succeed |
| Accounts.LoginIffRegistered | app/Services/UserService.h:93-132 | from an empty table login succeeds iff its token can be signed, the name was registered, and the password hashes, under that salt, to the same bytes |
| StoredUsers.CreateIsPersist | app/Repositories/OdbRepository.h:44-63 | whatever fails, the repository's Create leaves in the rows what persist on any coherent connection leaves in the table, with a commit that fails undoing the row but not the id |
| StoredUsers.StoredIsFound | app/Entities/odb/User-odb.cxx:509-610 | every committed row is read back whole by its id on any coherent connection |
| StoredUsers.RegisteredIsFound | app/Services/UserService.h:49-85 | after any serial calls every registered name has a row with its owner's hash and salt in hex, and a find of its id, whatever the buffers, returns exactly it |
| CreateRace.StepKeepsInv | app/Repositories/UserRepository.h:48-56 | a pending insert's lookup came before, or missed, every row of its name |
| CreateRace.StepsTell | app/Repositories/UserRepository.h:48-56 | in every run there is one row for each insert that went through, in order, and rows and pending inserts carry the name, outcome and time of their caller's last lookup |
| CreateRace.DuplicatesNeedOverlappingSteps | app/Repositories/UserRepository.h:48-56 | in every run, of two rows with one name, the lookup step just before the later insert by its caller came before the earlier insert step, or failed |
| CreateRace.DuplicatesNeedOverlap | app/Repositories/UserRepository.h:48-56 | two rows share a name only if the later lookup preceded the earlier insert or failed |
| CreateRace.InsertDuplicatesIff | app/Repositories/UserRepository.h:48-56 | the row an insert adds is a duplicate iff a row of its name is there that its lookup preceded or missed by failing |
| CreateRace.UninterruptedIsCreateUser | app/Repositories/UserRepository.h:44-70 | a lookup followed at once by its insert does to the usernames, and answers, what createUser does |
| CreateRace.DuplicatesHappen | app/Entities/odb/User.sql:7-11 | both kinds of duplicate are reachable |
| Router.KeySplits | src/Network/Router.h:25-32 | with colon-free methods the joined key determines method and target |
| Router.SplitsIffColonFree | src/Network/Router.h:27-32 | a method is colon-free iff no key of it is also the key of another pair with a colon-free method |
| Router.RequestReachesEntry | src/Network/Router.h:25-40 | after any addRoute calls whatever, a request runs the handler of the last call with its joined key, or is refused if there is none |
| Router.RoutedRightIff | src/Network/Router.h:25-40 | for a request with a colon-free method that is the last call for exactly its pair iff the entry's method is colon-free or there is no entry |
| Router.LikeAPairMapIff | src/Network/Router.h:25-40 | all such requests are routed as by a map of pairs iff every call still in effect has a colon-free method |
| Router.RoutesLikeAPairMap | src/Network/Router.h:25-40 | in particular, with colon-free methods, a request runs the last handler registered for exactly its method and target, or is refused |
| Router.ColonsWouldCollide | src/Network/Router.h:27 | a colon in a method makes two routes share a key |
| Router.WrongHandlerHappens | src/Network/Router.h:25-40 | two calls after which a request gets the answer of a route it does not name, and one after which an unregistered pair is answered |
| Router.RouteTable.AddRoute | src/Network/Router.h:25-28 | any method, path and handler: the map keeps standing for the calls made |
| Router.RouteTable.Handle | src/Network/Router.h:30-40 | the entry in effect answers, the pair's last call if methods are colon-free; the response is left alone when refused |
| HttpSession.RespondsByRegistration | src/Network/HttpSession.cc:8-28 | the answer is that of the entry in effect, on a response with the request's version and keep-alive, otherwise 404; for a colon-free request method it is the exact pair's iff the entry's method is colon-free |
| HttpSession.CompleteKeepsInv | src/Network/HttpSession.cc:68-124 | a completion keeps one operation and the account of answers |
| HttpSession.OneAtATimeInOrder | src/Network/HttpSession.cc:68-124 | at most one operation outstanding; written responses are, in order, the answers to the first requests read, at most one behind |
| HttpSession.ClosingEndsTheRun | src/Network/HttpSession.cc:80-124 | after end of stream, error, upgrade or a closing response nothing is outstanding, after anything else exactly one operation is |
| HttpSession.EventsTell | src/Network/HttpSession.cc:68-124 | in every run the requests handled are those read, in order; one response was written for each successful write; what is under way, and can complete either way, follows from the last event: after a message, the write of that request's answer |
| HttpSession.Connection.OnRead | src/Network/HttpSession.cc:80-110 | on_read with handle_request, in place |
| HttpSession.Connection.OnWrite | src/Network/HttpSession.cc:112-124 | on_write, in place |
| TidyPool.StepKeepsInv | tools/run-clang-tidy.py:207-243 | every step of main thread or worker keeps the account of files, the counter and the failure list |
| TidyPool.FilesArePartitioned | tools/run-clang-tidy.py:431-457 | selected files are those to put, queued, in hand and done; the counter is what is queued or in hand |
| TidyPool.TakenInOrder | tools/run-clang-tidy.py:419-449 | workers take the selected files in order, and a bounded queue never exceeds its bound |
| TidyPool.WaitsOnlyFor | tools/run-clang-tidy.py:207-243 | a put waits only for a full bounded queue, join only for unfinished files, an idle worker only for an empty queue, a busy one for nothing |
| TidyPool.JoinMeansAllRan | tools/run-clang-tidy.py:452-459 | when join returned every selected file ran exactly once, no worker died with one, failures are exactly the files with non-zero codes, and the exit code says whether there is one |
| TidyPool.RunsAreBounded | tools/run-clang-tidy.py:207-243 | every run is finite, with an explicit bound |
| TidyPool.StuckMeansReturned | tools/run-clang-tidy.py:419-459 | for any number of workers, none included, a run that cannot go on has returned from join iff there was a worker or nothing to do and no worker died with a file |
| TidyPool.CrashStrandsJoin | tools/run-clang-tidy.py:207-243 | a run in which the worker dies with a file and join waits for ever |
| TidyPool.NegativeJobsStrandJoin | tools/run-clang-tidy.py:419-452 | with a negative -j no worker starts, every file is put, and join waits for ever though nobody died |
| ListFiles.PrunedIsFiltered | tools/run-clang-format.py:67-90 | the pruned walk equals the filtered full walk, for every tree and exclude list, in order |
| ListFiles.JoinIs | tools/run-clang-format.py:71-78 | a joined path is the directory, one slash and the name |
| ListFiles.SelectedIff | tools/run-clang-format.py:67-90 | the walk of a directory returns a path iff names lead to a file of that path with a listed extension and neither it nor a directory on the way matches a pattern |
| ListFiles.FilesFirst | tools/run-clang-format.py:70-71 | the full walk lists each file once, the directory's own files first, as listed |
| ListFiles.ThenSubdirectories | tools/run-clang-format.py:70-71 | after them each subdirectory's walk, one after the other, as listed |
| ListFiles.ArgumentsStand | tools/run-clang-format.py:68-89 | without the recursive flag the result is the arguments in order |
| ListFiles.ShareOf | tools/run-clang-format.py:68-89 | with it, a directory stands for its walk and any other argument for itself, in place |
| ListFiles.DropAll | tools/run-clang-format.py:72-83 | trimming pattern by pattern keeps exactly what no pattern matches |
| ListFiles.Trim | tools/run-clang-format.py:71-83 | the exclude loop on one directory's two lists |
| ListFiles.PickListed | tools/run-clang-format.py:84-87 | the extension loop |
| ListFiles.Walk | tools/run-clang-format.py:70-87 | the recursive walk over the trimmed lists |
| ListFiles.SelectFiles | tools/run-clang-format.py:61-90 | list_files: each directory's filtered full walk, every other argument as it is |
| ListFiles.ExitCode | tools/run-clang-format.py:346-404 | the exit code is 2 iff some file caused trouble, 1 iff none did and some file differs, 0 iff all are clean, whatever the order of results |

## Left out

- Sockets, TLS, timeouts, body limits, WebSocket framing, the contents of read messages: an operation only completes with success or error.
- `SharedState::doc_root`, HTTP response headers other than content type, `fail` logging: no effect on the protocols.
- Handlers dropped by `io_context::stop`: they end the process.
- Exceptions thrown by route handlers, and allocation failures anywhere.
- Memory-model effects of the unlocked reads at `src/Utility/LogService.cc:144` and of `setLevel`: each read and write is one atomic step.
- Formatting of log entries, dates and the singleton of the log service; the file is opened once, as in the code, and a write to it succeeds.
- LogResults.ShutdownCompletesIff: a spurious wakeup, which the language allows but does not promise, would rescue a lost stop; it is a step of the runs but not counted on here.
- `query`, `reload`, `erase_query`, the pointer-returning `find`, delayed loads, callbacks and caches of the persistence code: no version logic beyond what is modelled, or inside the library.
- NULL flags of the columns: all columns are declared NOT NULL and no path sets one.
- Wrap-around of ids and version counters: they are unbounded.
- UserStore.FailedRegisterChangesNothingIff: a commit that reports failure although the database performed it is not modelled; a reported failure is a rollback.
- JSON parsing and rendering, DTOs, controllers, token contents and checking: a parsed request or its absence, and an opaque token, stand for them.
- `ReadAll`, `Read`, `Update` and `Delete` of the generic repository: the same transaction frame around one library call.
- `excludes_from_file`, diff text, colours, subprocess launching, glob and extension matching of the tool runners: lists and functions given from outside.
- Symbolic links to directories and unreadable directories in the walk: the tree is what `os.walk` descends into.
- WebSocketObjects.SharedState.Send: the object's method is one call that nothing interrupts; calls interleaved with each other and with handlers are the runs of `Broadcast.dfy`.
- LogObjects.LogService.Log: the object has no lock and no condition variable; those are the steps of `LogModel.dfy`.
- LogObjects.LogService.ProcessMessages: entries arrive only while the worker waits, as a given list; pushes during a write are steps of `LogModel.dfy`.
- LogObjects.LogService.Wait: entries arrive only while the worker waits; pushes during a write are steps of `LogModel.dfy`.
- LogObjects.LogService.Destroy: the notification and the thread join are a call of the worker's loop here; their interleavings are the runs of `LogModel.dfy`.
- UserObjects.UserRepository.GetUserByUsername: the database returns rows in insertion order; `Accounts.LookupInAnyOrder` shows that only a table with duplicates could tell.
- TidyPool.StepKeepsInv: the runner is modelled on values as a step system, since its threads share the queue and list with no object of their own; Ctrl-C and the fix phases after the pool are not modelled.
