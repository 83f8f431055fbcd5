# A model of the telephony driver's schedulers, locks, call tracking and storage

The driver connects the Windows telephony service to a SIP server over XMPP.
This project models the parts of it where threads, clocks and histories meet,
and proves what they promise over whole runs.

| file | what it models |
|---|---|
| `WorkerPool.dfy` | the keyed worker pool: one queue, one auto-reset event, a map of the keys in flight, any number of workers and of threads that add |
| `RecursiveLock.dfy` | the recursive lock with timeouts: interlocked counter, owner id, depth, spinlock, auto-reset event; one step per memory access |
| `CallHandlers.dfy` | one handler of a telephone call: what it makes of each event, its branch table, its time limits |
| `CallMachine.dfy` | the two state machines of a session: routing, creation, removal, ownership of events |
| `CallProgress.dfy` | how long a MakeCall may take, that no call is left behind, who receives a retract |
| `CallOutcomes.dfy` | what becomes of a call: that it is not dropped early, what a retract comes to, that only its own events reach a MakeCall |
| `CallRecords.dfy` | what is on record about a call: its branches, its notifications, the order of admission |
| `LoginProgress.dfy` | how a session logs in and shuts down |
| `CallObjects.dfy` | the handlers and the state machines as objects changed in place, proved against `CallHandlers` and `CallMachine` |
| `Archive.dfy` | the meaning of the binary stream: bytes and offsets, typed values, version stamp, chunks in the registry |
| `RegStream.dfy` | the stream object with its growing buffer, proved against `Archive` |
| `RequestQueue.dfy` | the asynchronous request queue of a line: drop-first insertion, dispatch, completion, removal |
| `RequestOrder.dfy` | in which order its requests are served, and when it comes to a standstill |
| `RequestPlaces.dfy` | what two threads that add requests at once can do to that order |
| `RequestAnswers.dfy` | that every request is answered once |
| `Connection.dfy` | the connection object with its request list changed in place, proved against `RequestQueue` |
| `AddressCounters.dfy` | the call counters of an address, kept up from notifications |
| `PhoneDisplay.dfy` | the display of a telephone: a wrapped grid in one buffer |
| `Inbox.dfy` | the inbox between other threads and the polling thread |

Each component has a state, the steps that may happen to it (`Enabled`,
`Apply`), and its runs (`Legal`, `Run`).  A step is one critical section, one
memory access or one call, whichever other threads can get in between.  A main
result holds of every run from the start state.  Objects that the driver
changes in place are classes; their methods are proved to do exactly what the
step says.  Handles and addresses of objects are numbers that are compared and
nothing else.  Clocks, timeouts and the answers of the server are arguments of
the steps, so a result holds for all of them.

## What does not hold

Six things the code or its comments lead one to expect are not so.  In each
case the model follows the code, a lemma gives the input that shows it, and
another proves the exact condition under which the expectation is met.

* A lock that nobody holds can refuse a zero timeout.  A timed-out attempt
  leaves its increment behind, so from the first such attempt on the lock rests
  with its event signalled instead of its counter at -1
  (`ZeroTimeoutCanFailUnheld`, `ZeroTimeoutSucceedsExactlyWhen`).
* The retract of a call's last branch does not always end that call.  Every
  MakeCall takes every retract, its own or not, and deletes it
  (`RetractCanGoAstray`, `RetractReachesItsCallExactlyWhen`).
* Removing the request being worked on stops the queue: the next one is not
  started, and only a drop request or new data gets it going.  Completing a
  drop request that waits behind it does the same
  (`RemovalCanStall`, `CompletedDropCanStall`, `QueueStallsExactlyWhen`,
  `StalledQueueResumesExactlyWhen`).
* A drop request can be overtaken, and two requests can be worked on at once.
  The place of a new request is chosen under the lock and the request inserted
  under it again; a call in between can make the place wrong
  (`TwoCanBeStarted`, `DropCanBeOvertaken`, `PlaceHoldsExactlyWhen`).  Where
  nothing gets in between, neither happens (`OnlyTheHeadIsStarted`,
  `DropGoesFirst`, `EarlierRequestsGoFirst`).
* The counters of an address can stay wrong.  A call writes its state under its
  own lock and notifies the address under another; if two notifications of one
  call change places, a counter is put back to zero and then counted up
  (`LateNotificationLeavesAGhost`).  A counter is right in the end exactly if, in
  the order of arrival, no more calls were ever reported to leave its class than
  to enter it (`CounterIsRightExactlyWhenNeverBelow`).
* A string read back from a stream ends at its first NUL, and a stream without
  a version stamp is taken for a stamped one if its first number looks like a
  mark (`TextIsCutAtNul`, `RoundTrip`, `NumberIsReadAsVersion`,
  `UnstampedIsTakenForStampedExactlyWhen`).

The comment in `RemovePendingRequests` says that the provider is told of the
cancellation of requests that have started.  The code tells it of all but those
in their first state, and the model does the same (`RequestQueue.Removal`).

## Model

| member | source | states |
|---|---|---|
| WorkerPool.ThreadPool.Enqueue | TspLib3/Include/PoolMgr.h:541-551 | the locked part of Add appends at the end of the queue and nothing else changes |
| WorkerPool.ThreadPool.TopUpEvent | TspLib3/Include/PoolMgr.h:424-427 | entering the fetch signals the event exactly if the queue is not empty |
| WorkerPool.ThreadPool.TakeRunnable | TspLib3/Include/PoolMgr.h:446-499 | the scan takes the first request that may run, claims its key, removes it alone, and signals exactly if requests remain; nothing changes if none may run |
| WorkerPool.ThreadPool.ReleaseKey | TspLib3/Include/PoolMgr.h:373-388 | finishing a request lowers the count of its key by one and erases it at one |
| WorkerPool.WorkIsNeverStranded | TspLib3/Include/PoolMgr.h:341-396 | no lost wake-up: a runnable queued request has the event signalled, an Add about to signal, or a worker about to scan or to re-enter, in every reachable state and for every policy |
| WorkerPool.AllAsleepMeansEmpty | TspLib3/Include/PoolMgr.h:412-503 | with a worker, all workers asleep, no Add half done and the event clear, the queue is empty |
| WorkerPool.RunningMapIsExact | TspLib3/Include/PoolMgr.h:476-483 | the running map holds exactly the number of requests in flight for each key, and has no entry for the others |
| WorkerPool.PerKeySerialFifo | TspLib3/Include/PoolMgr.h:116-124 | under the default policy at most one request of a key is in flight, and its requests are finished, in flight and queued in the order they were added |
| WorkerPool.EveryRequestExactlyOnce | TspLib3/Include/PoolMgr.h:518-560 | every request ever added is queued, in flight or finished, exactly once |
| WorkerPool.FreeKeyIsRunnable | TspLib3/Include/PoolMgr.h:473-490 | a queued request may run if and only if no worker is working on its key |
| WorkerPool.LeftAloneEverythingFinishes | TspLib3/Include/PoolMgr.h:341-503 | left alone the pool comes to rest within a bound, under any schedule, and only with every request finished |
| RecursiveLock.MutualExclusion | TspLib3/Src/CritSec.cpp:67-114 | two threads are never both holding, entering or being handed the lock, with recursion and timeouts and any number of threads |
| RecursiveLock.LockCountLedger | TspLib3/Src/CritSec.cpp:78-105 | the counter plus one is the owner's depth, plus the attempts under way, plus every attempt that ever timed out; there is exactly one token |
| RecursiveLock.NobodyWaitsForAFreeLock | TspLib3/Src/CritSec.cpp:149-151 | while the counter says free, no thread is inside Lock and none has ever timed out |
| RecursiveLock.SetEventFindsItClear | TspLib3/Src/CritSec.cpp:263-292 | the event is never set while it is signalled, so no hand-over is lost |
| RecursiveLock.WaiterIsNeverStranded | TspLib3/Src/CritSec.cpp:225-254 | a blocked thread always has the event signalled or another thread that holds the lock or passes it on |
| RecursiveLock.UnlockFindsItsOwner | TspLib3/Src/CritSec.cpp:121-144 | the three assertions of Unlock hold for every holder, and the owner is cleared by the unlock of the last level only |
| RecursiveLock.HolderStaysOwner | TspLib3/Src/CritSec.cpp:78-110 | the owner id is a thread's exactly from its entry to the release of its last level |
| RecursiveLock.EventIsCreatedOnce | TspLib3/Src/CritSec.cpp:230-250 | under the spinlock the event is created at most once, and exists whenever it is waited for or set |
| RecursiveLock.WhereAnUnheldLockRests | TspLib3/Src/CritSec.cpp:98-105 | an unheld lock at rest is free if no attempt ever timed out, and rests in the signalled event otherwise |
| RecursiveLock.ZeroTimeoutSucceedsExactlyWhen | TspLib3/Src/CritSec.cpp:96-99 | a zero timeout succeeds exactly if the caller holds the lock, or nobody does and no attempt ever timed out |
| RecursiveLock.ZeroTimeoutCanFailUnheld | TspLib3/Src/CritSec.cpp:96-99 | a run after which an unheld lock refuses a zero timeout |
| RecursiveLock.UnheldLockIsTaken | TspLib3/Src/CritSec.cpp:78-110 | in every reachable state of rest a lock that nobody holds is taken by any thread that asks with a timeout other than zero, however many attempts timed out before, and the signal it rests in is gone |
| RecursiveLock.AloneIsRun | TspLib3/Src/CritSec.cpp:67-171 | what the methods of the lock object do without interference is a legal run of the system of threads |
| RecursiveLock.CriticalSection.Lock | TspLib3/Src/CritSec.cpp:67-114 | in the lock's own fields: the lock is taken if and only if it is free, the caller's, or its event is signalled and the timeout is not zero; otherwise the caller fails, or with an infinite timeout waits; a signal is consumed by exactly the attempt that needed it; owner, depth and counter in each case |
| RecursiveLock.CriticalSection.BlockThread | TspLib3/Src/CritSec.cpp:225-256 | the wait consumes the signal, times out, or with an infinite timeout stays; counter and owner are left alone |
| RecursiveLock.CriticalSection.Unlock | TspLib3/Src/CritSec.cpp:121-171 | one level less; the last level clears the owner and signals exactly if somebody is counted in |
| RecursiveLock.CriticalSection.UnblockWaiter | TspLib3/Src/CritSec.cpp:263-292 | the event exists and is signalled afterwards |
| CallHandlers.OfferedOk | OnSipCore/OnSipCallStateMachine.cpp:469-995 | any event leaves a handler consistent (branches equal to the fold of accepted events, no duplicates, of its own call) and the handler of the same call |
| CallHandlers.OfferOwnsTheEvent | OnSipCommon/StateMachine.h:118-135 | a refused event changes nothing; an accepted one is held in place of the one before, or deleted |
| CallHandlers.MakeCallAdvancesByOne | OnSipCore/OnSipCallStateMachine.cpp:760-995 | an event moves a MakeCall at most one stage on, never back, and the clock of a stage starts as it is entered |
| CallHandlers.AnsweredMakeCallConnects | OnSipCore/OnSipCallStateMachine.cpp:819-893 | ringing, answered, created and confirmed, in that order, lead from the set call to the connected one, each event deleted as the next takes its place |
| CallHandlers.CallConnectsExactlyWhenConfirmed | OnSipCore/OnSipCallStateMachine.cpp:606-636 | an incoming or outgoing handler takes the events of its SIP call, each leaving a branch with its ids, tags and caller, and connects, taking these over, exactly with a confirmed one |
| CallHandlers.ContextsAfterOffer | OnSipCore/OnSipCallStateMachine.cpp:371-415 | the context ids waited for grow by fresh ones with a drop request, lose the one answered with a reply, which changes nothing else, and else stay; only a drop request sends anything |
| CallHandlers.DropRequestDropsEveryBranch | OnSipCore/OnSipCallStateMachine.cpp:371-396 | a drop request is taken by the handler with its call id only, and sends one request per branch with its SIP call id and tags under its own context id; the call is then being dropped, from that moment on |
| CallHandlers.IncomingDropsWithItsLastBranch | OnSipCore/OnSipCallStateMachine.cpp:639-661 | a retract drops an incoming call exactly when no id is left in the fold over all it accepted |
| CallHandlers.RetractDropsExactlyWhen | OnSipCore/OnSipCallStateMachine.cpp:896-943 | for all three kinds: a retract is taken by the handler with that branch and by every MakeCall; it drops the call, from that moment on, exactly if it takes the only branch of an outgoing call, the last one of another, or the outgoing leg of a MakeCall; otherwise state and clock go on and the call goes by the first branch left |
| CallHandlers.AcceptsExactlyWhen | OnSipCore/OnSipCallStateMachine.cpp:469-995 | which of all events a handler takes: active calls by SIP call id, or by setup id and address for a MakeCall; retracts by the fold of its history; drop requests by call id; replies by context |
| CallHandlers.MakeCallMovesExactlyWhen | OnSipCore/OnSipCallStateMachine.cpp:760-895 | what an event of its own does to a MakeCall in each stage: the next stage if it is for the leg under way and reports what is due, dropped if it reports something else or an error, nothing otherwise |
| CallHandlers.MakeCallTellsItsCaller | OnSipCore/OnSipCallStateMachine.cpp:819-893 | a MakeCall goes by the ids and tags of the event that moved it on, shows the dialled number until the outgoing call is created and that call's parties from then on, and knows the outgoing call by its id |
| CallHandlers.RefusedRequestDropsTheCall | OnSipCore/OnSipCallStateMachine.cpp:968-990 | the reply to its own request drops a MakeCall if it is an error and changes nothing if it is not |
| CallHandlers.IdsAfterAdd | OnSipCore/OnSipCallStateMachine.cpp:188-209 | adding a branch replaces the one with its id or appends it, and keeps ids distinct |
| CallHandlers.IdsAfterRemove | OnSipCore/OnSipCallStateMachine.cpp:212-225 | removing a branch takes out its id and nothing else |
| CallHandlers.NewHandlerOk | OnSipCore/OnSipCallStateMachine.cpp:457-466 | a handler created from an event is consistent from the start |
| CallHandlers.NewCallIsNotAnswered | OnSipCore/OnSipCallStateMachine.cpp:457-466 | a call created from an event is offering or proceeding from that moment on, and has the event's ids, tags and parties for its own and for its only branch |
| CallHandlers.NewMakeCallOk | OnSipCore/OnSipCallStateMachine.cpp:718-756 | a MakeCall is consistent once its request was sent, for any setup id and addresses, has the number to dial for its remote party, waits to ring from that moment on, and passes the check by which it is admitted |
| CallHandlers.EveryStateHasALimit | OnSipCore/OnSipCallStateMachine.cpp:425-450 | every state short of Dropped that a handler can be in has a time limit |
| CallHandlers.CheckedOk | OnSipCore/OnSipCallStateMachine.cpp:344-368 | the existence check keeps a handler consistent and of the same call, drops it at most, and reports as gone only what was already dropped |
| CallHandlers.TwoChecksRemove | OnSipCore/OnSipCallStateMachine.cpp:998-1032 | past its limit a handler is dropped by one check and gone with the next |
| CallMachine.EventsAreOwnedOnce | OnSipCore/OnSipXmpp.cpp:240-258 | every event ever given to the session is held by exactly one handler or was deleted exactly once, in both machines |
| CallMachine.RoutingIsUnique | OnSipCore/OnSipCallStateMachine.cpp:1038-1056 | at most one incoming or outgoing handler accepts an active call event, because their SIP call ids differ |
| CallMachine.RoutedByRecipient | OnSipCore/OnSipXmpp.cpp:240-258 | what delivering an event does is settled by its recipient: the login machine, the first call that accepts it, a new call, or nobody, in which case it is deleted |
| CallMachine.AuthorizedExactlyWhen | OnSipCore/OnSipInitStateMachine.cpp:151-174 | authorizing ends well with an authorization event, or with a good reply to the authorize request in its place, where the source reads a date from an event that is not there |
| CallMachine.ReplyCanComeFirst | OnSipCore/OnSipInitStateMachine.cpp:151-163 | a run of two events from the server that leads there |
| CallMachine.BranchesAreTheFold | OnSipCore/OnSipCallStateMachine.cpp:131-256 | while a handler is listed its branch ids are the fold of the events it accepted, of its own call, and an incoming handler's current id is one of them |
| CallMachine.MakeCallsGoForward | OnSipCore/OnSipCallStateMachine.cpp:760-995 | the states a MakeCall has been through are its stages in order without a gap, then only endings |
| CallMachine.DropRequestFindsItsCall | OnSipCore/OnSipCallStateMachine.cpp:371-375 | a drop request reaches the handler of its call id, wherever it stands, and no other |
| CallMachine.DropReplyReachesItsSender | OnSipCore/OnSipCallStateMachine.cpp:400-415 | the reply to a drop request passes the login machine and all other handlers, is consumed by its sender, and nobody waits for it afterwards |
| CallMachine.RemovalIsTheLastWord | OnSipCommon/StateMachine.h:282-309 | the notification of a removal says Dropped and is the last one about its call |
| CallMachine.Reachable | OnSipCommon/StateMachine.h:439-499 | all of the invariants together, in every reachable state of the session |
| CallProgress.MakeCallIsSettledInTime | OnSipCore/OnSipCallStateMachine.cpp:425-438 | swept at least every d ms, a MakeCall still listed 190000 + 4d ms after it was set going is connected or ending |
| CallProgress.NoCallIsStranded | OnSipCommon/StateMachine.h:388-411 | a handler past its limit and offered no event of its own is gone after two more polls, announced as Dropped, whatever happens to other calls |
| CallProgress.CallsKeepTheirIdentity | OnSipCore/OnSipCallStateMachine.cpp:106-131 | call id, type, setup id and SIP call id survive every event and branch promotion until the call is removed |
| CallProgress.UnknownCallIsFollowed | OnSipCore/OnSipCallStateMachine.cpp:1038-1056 | in every reachable session an event nobody takes starts a call exactly if it reports one created or requested; after the sweep that handler is listed, and the session hands it the later events of that SIP call exactly if no MakeCall before it takes them |
| CallProgress.RetractReachesItsCallExactlyWhen | OnSipCore/OnSipCallStateMachine.cpp:896-943 | the session hands a retract to the incoming or outgoing call with that branch exactly if no MakeCall and no other call with that id stands before it |
| CallProgress.RetractCanGoAstray | OnSipCore/OnSipCallStateMachine.cpp:935-942 | a run in which the server's retract of an incoming call's only branch is deleted by a MakeCall and the call goes on ringing |
| CallOutcomes.SilentCallStaysUntilItsLimit | OnSipCore/OnSipCallStateMachine.cpp:344-368 | no call is dropped early: over all runs a call that gets no event of its own is still listed, unchanged, until it has outlived its limit, three hours connected, two minutes ringing, ten seconds being dropped, and 10, 45, 15 and 120 seconds in the stages of a MakeCall |
| CallOutcomes.LeftAloneExactlyWhen | OnSipCore/OnSipCallStateMachine.cpp:425-450 | the check leaves a handler alone if and only if it is not dropped and within that limit in milliseconds, or limits are switched off |
| CallOutcomes.OverdueCallIsDroppedFirst | OnSipCore/OnSipCallStateMachine.cpp:554-576 | a call past its limit is listed as dropped after the first sweep |
| CallOutcomes.RetractEndsItsCallExactlyWhen | OnSipCore/OnSipCallStateMachine.cpp:509-521 | a retract that reaches a call ends it, announced as dropped and off the list before the next event, if and only if it takes its only branch; if not the call stays in its state |
| CallOutcomes.CallEventGoesToItsCall | OnSipCore/OnSipCallStateMachine.cpp:784-797 | in every reachable session an active call event goes to the first call it belongs to, to a MakeCall only with its setup id and one of its addresses, and to a new call only if it belongs to none |
| CallOutcomes.ForeignEventPassesMakeCalls | OnSipCore/OnSipCallStateMachine.h:83-84 | an event without the setup id of a listed MakeCall reaches the call of its SIP call id, wherever that stands, or starts a new one |
| CallRecords.LastWordTellsTheState | OnSipCommon/StateMachine.h:439-499 | in every reachable session the last notification about a listed call says its state, unless its time has run out since |
| CallRecords.DropRequestNamesTheLatestTags | OnSipCore/OnSipCallStateMachine.cpp:371-396 | the requests that drop a call carry, for each branch, the SIP call id and tags of the last event that branch was heard of by |
| CallRecords.CallsAreAdmittedInOrder | OnSipCore/OnSipStateMachineBase.h:170-220 | every call requested is admitted or waiting, once and in the order of the requests, and the next one admitted dials the number of the oldest request |
| LoginProgress.LoginMovesExactlyWhen | OnSipCore/OnSipInitStateMachine.cpp:125-245 | in each state the answer waited for leads on if good and to that state's error if not; a lost connection, a shutdown request and the reply to it are heeded as they should be, and no other event changes anything |
| LoginProgress.LoggedInOnlyAfter | OnSipCore/OnSipInitStateMachine.cpp:140-212 | a session that is logged in was connected, then authorized, then subscribed |
| LoginProgress.ThreeEventsLogIn | OnSipCore/OnSipInitStateMachine.cpp:140-212 | a run in which these three events are enough |
| LoginProgress.ShutDownIsRemoved | OnSipCore/OnSipInitStateMachine.cpp:236-245 | with the reply to its unsubscribe request the login handler is gone at once, so it is never seen shut down |
| CallObjects.CallHandler.IsYourEvent | OnSipCore/OnSipCallStateMachine.cpp:469-995 | the object does to itself, the session and the event what the specification says, for the three kinds of handler (`AcceptsExactlyWhen`, `RetractDropsExactlyWhen` and `MakeCallMovesExactlyWhen` say what that is) |
| CallObjects.CallHandler.Progress | OnSipCore/OnSipCallStateMachine.cpp:807-902 | the stages of a MakeCall, field by field in the order of the source |
| CallObjects.CallHandler.CheckDropRequestEvent | OnSipCore/OnSipCallStateMachine.cpp:371-396 | one request per branch, its context ids remembered, the state PreDropCall, the event deleted |
| CallObjects.CallHandler.CheckDroppedCall | OnSipCore/OnSipCallStateMachine.cpp:231-256 | the branch goes, and the handler's data moves to the first one left, if any |
| CallObjects.CallHandler.IsStillExist | OnSipCore/OnSipCallStateMachine.cpp:554-1032 | the checks in turn come to the one limit of the current state (`LeftAloneExactlyWhen` gives the limits) |
| CallObjects.CallHandler.AssignNewState | OnSipCommon/StateMachine.h:118-124 | state, event and tick are replaced and the event held before is deleted |
| CallObjects.LoginHandler.IsYourEvent | OnSipCore/OnSipInitStateMachine.cpp:125-272 | what the login handler takes, and the state it goes to |
| CallObjects.StateMachine.SignalEvent | OnSipCommon/StateMachine.h:439-499 | offering in turn, creating, deleting and sweeping over the list of objects is the step of the machine |
| CallObjects.StateMachine.CheckStateHandlersExist | OnSipCommon/StateMachine.h:282-309 | erasing from the list while walking it checks every handler once |
| CallObjects.StateMachine.UnknownEvent | OnSipCore/OnSipCallStateMachine.cpp:1038-1056 | the handler created for an event nobody accepted |
| Archive.WriteAppends | TspLib3/Include/regstream.h:74-81 | a write appends, keeps the read offset and what was written, and leaves the write offset strictly inside a buffer of whole kilobytes |
| Archive.WritesJoin | TspLib3/Include/regstream.h:87-103 | two writes leave the same buffer as one of the joined bytes |
| Archive.NumbersAreLittleEndian | TspLib3/Include/spbstrm.h:103-180 | the stored bytes of every number type, lowest first, in two's complement; true is 1 and false 0 |
| Archive.TextLayout | TspLib3/Include/spbstrm.h:222-230 | a string is stored as its length in bytes with the terminator, its units of two bytes, and two zero bytes |
| Archive.ForeignBytes | TspLib3/Include/spbstrm.h:376-396 | any byte but zero reads as true; a string of length zero is empty; one that goes up to the end of the buffer throws with its length consumed |
| Archive.ValueRoundTrip | TspLib3/Include/spbstrm.h:103-404 | one value of any type, written anywhere in a stream, is read back |
| Archive.RoundTrip | TspLib3/Include/spbstrm.h:103-404 | any values written to a stream read to its end come back with the same types, and are equal exactly if no string holds a NUL |
| Archive.TextIsCutAtNul | TspLib3/Include/spbstrm.h:376-396 | a string of one NUL comes back empty |
| Archive.StampRoundTrip | TspLib3/Include/spbstrm.h:411-454 | a version stamp 0..255 reads back as itself, and the values behind it follow |
| Archive.VersionExactlyWhenMarked | TspLib3/Include/spbstrm.h:438-454 | looking for a version throws, yields it, or yields -1 with the stream as it was, told apart by the first four bytes |
| Archive.UnstampedIsTakenForStampedExactlyWhen | TspLib3/Include/spbstrm.h:449-452 | an unstamped stream gives -1 exactly if its first number is not a mark |
| Archive.NumberIsReadAsVersion | TspLib3/Include/spbstrm.h:449-450 | a stream that begins with the number 0x52455607 has a version 7 nobody stamped |
| Archive.LoadAfterSave | TspLib3/Include/regstream.h:132-216 | bytes saved in chunks are loaded in order from ceil(n/1024) chunks, over anything the registry held before |
| Archive.LoadedUpToTheFirstGap | TspLib3/Include/regstream.h:150-178 | loading yields the chunks in front of the first that is missing or longer than a kilobyte, whole and in order, and nothing behind it |
| Archive.ClosingStoresWhatWasWritten | TspLib3/Include/regstream.h:59-65 | closing leaves the registry as it was if nothing was written, and otherwise stores exactly the bytes written |
| Archive.Persists | TspLib3/Include/regstream.h:50-65 | close and open bring back the written bytes in a buffer one kilobyte longer than their chunks, and every read inside them succeeds |
| Archive.PersistentRoundTrip | TspLib3/Include/regstream.h:50-65 | values written, closed and opened again come back; with nothing written the registry stays as it was |
| RegStream.RegStream.Write | TspLib3/Include/regstream.h:74-81 | the object's buffer and offsets after a write are those of the specification |
| RegStream.RegStream.Read | TspLib3/Include/regstream.h:66-73 | a read fails exactly if it would reach the end of the buffer, and moves only the read offset |
| RegStream.RegStream.Realloc | TspLib3/Include/regstream.h:87-103 | growing keeps contents and both offsets |
| RegStream.RegStream.Put | TspLib3/Include/spbstrm.h:103-236 | a value is written as its encoding, a string in two writes |
| RegStream.RegStream.Get | TspLib3/Include/spbstrm.h:241-404 | reading a value, with the state in which an exception leaves the stream |
| RegStream.RegStream.PutVersion | TspLib3/Include/spbstrm.h:411-431 | the stamp is written |
| RegStream.RegStream.GetVersion | TspLib3/Include/spbstrm.h:438-454 | the version, or the read offset put back |
| RegStream.RegStream.QueryValue | TspLib3/Include/regstream.h:150-178 | the loop over the chunks fills the front of the buffer with them in order, up to the first that is missing or too long |
| RegStream.RegStream.SetValue | TspLib3/Include/regstream.h:187-215 | the loop writes the bytes in kilobytes and then their number |
| RegStream.RegStream.Open | TspLib3/Include/regstream.h:50-58 | a buffer with room behind the stored chunks |
| RegStream.RegStream.Close | TspLib3/Include/regstream.h:59-65 | stored exactly if something was written since |
| RequestQueue.ReceiveServesTheHeadRun | TspLib3/Src/Conn.cpp:870-953 | receiving ends, having completed in order the whole run of handler-less requests at the head and started the first with a handler, if none of the run drops a call |
| RequestQueue.ReceiveEndsAtAHandler | TspLib3/Src/Conn.cpp:870-953 | whatever is completed on the way, receiving ends with nothing left or with the head started and its handler called last |
| RequestAnswers.UnmappedCommandsFail | TspLib3/Src/Conn.cpp:907-953 | a request completed on the way succeeds if its command is mapped to nothing, and fails with the error of the device if it is not mapped |
| RequestOrder.DataReachesOneHandler | TspLib3/Src/Conn.cpp:870-900 | new data is offered to the handler of the head, and goes to the handler of unsolicited data exactly if there is none or it refuses |
| RequestOrder.NothingStartsUnlessTheHeadGoes | TspLib3/Src/Conn.cpp:390-443 | adding, completing and removing requests starts nothing and calls no handler unless the queue was empty, a drop request finds nothing started, or the head is completed |
| RequestOrder.OnlyTheHeadIsStarted | TspLib3/Src/Conn.cpp:880-884 | in every queue reached by calls one after the other only the head may have been started |
| RequestOrder.DropGoesFirst | TspLib3/Src/Conn.cpp:251-278 | while a drop request is queued, no request that was unstarted at its arrival is started, whatever is called meanwhile |
| RequestOrder.EarlierRequestsGoFirst | TspLib3/Src/Conn.cpp:278-308 | first in, first out, over all runs: a request that drops no call is not started while any request that was queued before it is still in the queue |
| RequestOrder.PlaceOfANewRequest | TspLib3/Src/Conn.cpp:317-381 | in a queue that is not empty a request joins the end, a drop request comes right behind the one being worked on, and nothing else changes |
| RequestPlaces.PlaceHoldsExactlyWhen | TspLib3/Src/Conn.cpp:256-308 | a place chosen for one state of the queue is right for another exactly if the request drops no call, the queue is empty by then, or a request is being worked on in both or in neither |
| RequestPlaces.TwoCanBeStarted | TspLib3/Src/Conn.cpp:256-308 | a drop request whose place was chosen before another request came leaves two requests started |
| RequestPlaces.DropCanBeOvertaken | TspLib3/Src/Conn.cpp:256-308 | a drop request whose place was chosen before the head was removed is overtaken by a request that was not started when it came |
| RequestOrder.QueueStallsExactlyWhen | TspLib3/Src/Conn.cpp:430-436 | requests go on being worked on through every step but one that removes the running head without completing it and leaves others behind |
| RequestOrder.RemovalCanStall | TspLib3/Src/Conn.cpp:472-530 | a run in which the requests of one call are removed and that of another is left waiting |
| RequestOrder.CompletedDropCanStall | TspLib3/Src/Call.cpp:355-363 | the same by completing a drop request that waits behind the running head |
| RequestOrder.StalledQueueResumesExactlyWhen | TspLib3/Src/Conn.cpp:317-381 | the steps that get a stalled queue going, and no others |
| RequestAnswers.EveryRequestIsAnsweredOnce | TspLib3/Src/Conn.cpp:390-425 | each asynchronous request added was answered to TAPI once, is still owed an answer, or was completed without telling |
| RequestAnswers.AnswersAgreeWithResults | TspLib3/Src/Conn.cpp:390-425 | over all runs, whatever result TAPI is told of a request the request was finished with |
| RequestQueue.PurgeIsIdempotent | TspLib3/Src/Conn.cpp:472-530 | removing pending requests twice is removing them once |
| RequestQueue.PurgeKeepsTheMisses | TspLib3/Src/Conn.cpp:540-663 | the requests kept are those that do not match, in their order |
| RequestQueue.RemovedExactlyWhenAskedFor | TspLib3/Src/Conn.cpp:472-663 | a request is removed exactly if it is not exempt, of the command and the call asked for, and unstarted if so asked; it is then finished with the error, cancelled at the provider unless in its first state, and answered if TAPI waits; of the others nothing is said |
| RequestQueue.RemovalIdlesExactlyWhen | TspLib3/Src/Conn.cpp:575-663 | which other calls a removal sets idle, and which it parts from a conference |
| RequestQueue.RemovedCallIsForgotten | TspLib3/Src/Conn.cpp:540-663 | after everything about a call was removed no request left names it, and those that did not name it are untouched |
| RequestQueue.CompletionTakesExactlyWhen | TspLib3/Src/Call.cpp:355-363 | completing a request takes another one with it exactly if it is a drop request that went well and the other is of its call or would end with it |
| Connection.TspiConnection.AddAsynchRequest | TspLib3/Src/Conn.cpp:251-308 | a drop request goes behind the started ones, any other to the end, and which of them is started at once; a request that drops no call leaves a queue that is not empty as it was, with itself behind |
| Connection.TspiConnection.Insert | TspLib3/Src/Conn.cpp:317-381 | where a request is put for every position asked for, and when it is to be started |
| Connection.TspiConnection.ReceiveData | TspLib3/Src/Conn.cpp:870-900 | the mutual recursion with dispatch and completion ends with the queue of the specification; data that no handler accepts goes to the handler of unsolicited data |
| Connection.TspiConnection.DispatchRequest | TspLib3/Src/Conn.cpp:907-953 | the head is handed to its handler, which may refuse it, or completed with success or failure |
| Connection.TspiConnection.CompleteRequest | TspLib3/Src/Conn.cpp:390-443 | who is told what, that the next request starts only if the head was removed, and that a request completed before is left alone |
| Connection.TspiConnection.OnRequestComplete | TspLib3/Src/Call.cpp:306-371 | a drop request that went well takes the other requests of its call with it, before the next one is started |
| Connection.TspiConnection.IsMatchingRequest | TspLib3/Src/Conn.cpp:540-663 | what matches, and what becomes of a transfer or conference that names the call |
| Connection.TspiConnection.RemovePendingRequests | TspLib3/Src/Conn.cpp:472-530 | starting over from the top after each removal ends, and does what a single pass over the list does |
| AddressCounters.AddressInfo.OnPreCallStateChange | TspLib3/Src/Address.cpp:907-982 | each of the four counters goes up, down or stays by the class of the old and the new state; the line is told the change of the connected count |
| AddressCounters.CountersAreCardinalities | TspLib3/Src/Address.cpp:907-982 | with each call's notifications in order, every counter is the number of calls in its class and is never put back to zero |
| AddressCounters.HeldCallsAreReported | TspLib3/Src/Address.cpp:907-982 | when all notifications are in, in order, the four counters are the numbers of calls on hold, held for a transfer or conference, active and connected |
| AddressCounters.CounterIsRightExactlyWhenNeverBelow | TspLib3/Src/Address.cpp:930-936 | in any order of arrival: once all notifications are in, a counter is the number of calls in its class exactly if the notices, as they arrived, never reported more calls leaving the class than entering it |
| AddressCounters.CounterExceedsByItsRepairs | TspLib3/Src/Address.cpp:930-936 | a counter exceeds the number of calls in its class by the number of times it was put back to zero |
| AddressCounters.LateNotificationLeavesAGhost | TspLib3/Src/Call.cpp:2014-2028 | two notifications of one call in the wrong order leave an active call reported that does not exist |
| PhoneDisplay.DisplayIsTheTape | TspLib3/Src/DISPLAY.CPP:66-113 | after any text each cell shows the last visible character due there, and the cursor stands where the next one goes |
| PhoneDisplay.PlainTextWrapsAround | TspLib3/Src/DISPLAY.CPP:66-88 | text without line feeds, typed on a cleared display: the cell p shows the last character with index p modulo the size, else a space, and the cursor is the length modulo the size |
| PhoneDisplay.ClearRowClearsItsRow | TspLib3/Src/DISPLAY.CPP:158-164 | clearing a row clears it and no other cell |
| PhoneDisplay.PhoneDisplay.AddCharacter | TspLib3/Src/DISPLAY.CPP:66-88 | the buffer and cursor after a character; the cursor stays in bounds and the terminator untouched, line feeds included |
| PhoneDisplay.PhoneDisplay.SetCharacterAtPosition | TspLib3/Src/DISPLAY.CPP:95-113 | one cell changes if position and character are valid, nothing otherwise |
| PhoneDisplay.PhoneDisplay.Init | TspLib3/Src/DISPLAY.CPP:47-59 | a display of positive size starts blank, any other request is ignored |
| PhoneDisplay.PhoneDisplay.Reset | TspLib3/Src/DISPLAY.CPP:136-148 | the nested loops fill every cell with a space and end the buffer |
| PhoneDisplay.PhoneDisplay.ClearRow | TspLib3/Src/DISPLAY.CPP:158-164 | the loop over the columns of one row |
| Inbox.NothingIsLostOrReordered | OnSipCore/OnSipStateMachineBase.h:90-105 | under any interleaving, added is delivered, then in the poller's hand, then waiting, in order, and the counter is the number waiting whenever the lock is free |
| Inbox.PollDeliversAllThatWasCounted | OnSipCore/OnSipStateMachineBase.h:86-105 | a poll delivers everything whose add had been counted when it began, so the unlocked test can only miss the one being added |
| Inbox.MailBox.Add | OnSipCore/OnSipStateMachineBase.h:157-164 | the item is appended and counted |
| Inbox.MailBox.TakeAll | OnSipCore/OnSipStateMachineBase.h:90-105 | everything waiting is taken and the inbox is empty |
| Inbox.MailBox.Poll | OnSipCore/OnSipStateMachineBase.h:228-234 | everything waiting is delivered in order |

## Left out

- The branch of `Unlock` that deletes an idle event (TspLib3/Src/CritSec.cpp:153-167): the waiter reads the handle outside the spinlock. The event, once created, exists for good.
- The timeout of the spinlock itself, except that a thread may give up there as it may in the wait.
- The elapsed time of a wait: a thread with a finite timeout may give up at any moment.
- WorkerPool: how many threads are started, shutdown, and the timing of queue diagnostics. Workers may appear at any time and do not leave.
- The setup id made from the clock and the addresses given by the server are arguments; every result holds for all of them.
- CallObjects.LoginHandler.IsYourEvent: the expiry date read from an authorization event, and the subscriptions, pings and requests sent to the server, are not modelled. Where a reply takes the place of that event (`AuthorizedExactlyWhen`) the model goes on, and what the source does there is not said.
- Polling of the login handler (reauthorization, ping, timeouts) is one step, after which it is disconnected.
- CallMachine: the two inboxes of a machine are drained in one order; events and requests reach it in any order here.
- A drop request for a MakeCall without branches: the source asserts there is one in debug builds only; the model, like the release build, sends no request.
- Archive.RoundTrip: the conversions between narrow and wide strings; a string buffer without a terminator, which the source reads past; allocation failure.
- Registry failures: keys that cannot be opened and values that cannot be written. A value that is missing or too long to read is modelled.
- RequestOrder.DropGoesFirst: in these runs a call into the connection is one step. The lock is free at points within a call; what other threads do there is modelled for the place of a new request only (`PlaceHoldsExactlyWhen`).
- RequestQueue: an overridden `OnNewRequest`, `GetRequest`, and what `OnRequestComplete` does other than removing the requests of a dropped call. A handler's own calls into the queue are steps after it was called. Requests are removed with an error, as all callers do; removed with success, a drop request would remove others in turn.
- Connection.TspiConnection.IsMatchingRequest: setting a call idle is recorded and does nothing else to the list; the missing consultation call of a conference, which the source does not check before setting it idle, is skipped.
- AddressCounters: which TAPI states are active or connected is a parameter, with new and idle calls in neither.
- PhoneDisplay: reading the display back, and the debug assertions on characters.
- 32-bit wrap of tick counts, ids, sizes and counters: all are unbounded.
- XMPP parsing, TAPI structures, capabilities, installers, user interface and logging.
