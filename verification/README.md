# Live-event delivery, verified

A Dafny model of the server's live-event machinery: the per-session write scheduler, the registry of users
and sessions with its subscribe/login rendezvous, chats, the blocking connection pool and the image store.
`dafny verify dfyconfig.toml` checks all of it.

## How it is built

There are two grains.

**Interleaved machines.** A machine is a total function `Do(state, action)`; an action that is not enabled
leaves the state alone, so "for every list of actions" is "for every schedule of every length" (`Runs.dfy`).
Every atomic operation, mutex operation and disk access is a step of its own, mutexes have explicit owners,
and the numbers of threads, events, users and sessions are unbounded.

| machine | theorems | models |
|---|---|---|
| `UserInstanceSteps` | `Delivery`, `SessionTheorems`, `Draining`, `Schedules` | one session: load, exchange, write or push, completion, failure |
| `RegistrySteps` | `Rendezvous`, `CallData`, `FanOut`, `RegistryTheorems`, `RegistrySchedules`, `ChatFanOut` | users, waiting devices, database owners, posts, logoffs |
| `Server` | the same | the registry and its sessions composed: posts call `SendEvent`, failed sessions are erased |
| `LockOrder`, `DeadlockFreedom` | the same | which mutexes each operation takes, in which order |
| `ConnectionPoolSteps` | `ConnectionPoolTheorems` | mutex, condition variable, timeouts, barging, spurious wake-ups |
| `FileManagerSteps` | `FileManagerTheorems`, `FileSchedules` | cache mutex, disk, open streams, hash names |

**Classes.** Above them the source's classes with each method as one step: `UserInstance`, `User`,
`UserStorage`, `CommonCallData`, `ChatStore`, `UserDb`, `Endpoint` (one for chats, one for logins), `ConnectionPool`, `FileManager`. Their fields are
updated in place; each method's new state is a function of the old, and what the source promises is proved
about those functions. `Uninterrupted`, `UninterruptedPool` and `UninterruptedFiles` prove that what the methods of
`UserInstance`, `ConnectionPool` and `FileManager` do is what the machines' steps do when one thread takes them
with nobody in between. What other threads do while a method has given up its lock, and what the
database, the stream and the clock answer, are parameters.

## What the proofs say about the code

- **The stream is the log, nearly.** What a live session's stream has been given is the global log of posts since
  its attachment, filtered by audience, up to disjoint swaps of neighbours (`Server.StreamIsTheLog`).
- **First in, first out is false between threads, near-order is true.** A completion can store IDLE between a
  send's exchange and its push. The event is then stranded until the next send, which overtakes it
  (`Schedules.Stranded`, `Schedules.FifoFails`). What the stream gets is always the send order up to disjoint
  swaps of neighbours (`SessionTheorems.NearFifo`), and exactly the send order if and only if no exchange
  found IDLE above a non-empty queue (`SessionTheorems.FifoExactlyWhen`). An idle session has nothing pending
  all along a run if and only if no IDLE was stored between an exchange and its push
  (`SessionTheorems.IdleIsEmptyExactlyWhen`). With uninterrupted methods order is exact
  (`UserInstances.AtomicFifo`).
- **SHUTDOWN is not absorbing.** A sender past its load overwrites it (`Schedules.ShutdownOverwritten`); it stays
  if and only if no sender is between its load and its exchange (`SessionTheorems.ShutdownAbsorbsExactlyWhen`).
  All the same nothing is written after `OnFinished` (`SessionTheorems.NoWriteAfterFinish`), because nobody has
  the right to write. The early return in `OnAsyncEventFinished` is dead code
  (`SessionTheorems.CompletionNeverSeesShutdown`).
- **A user can be erased with a live session.** The logoff callback tests for emptiness after its unlock
  (core/User.cpp:62-65), and a login before the erase is lost with the user
  (`RegistrySchedules.DropLosesNewSession`, reachable by `RegistrySchedules.RaceIsReachable`). Along a run no
  erasure can lose a session if and only if no login attaches one in that window
  (`RegistryTheorems.LogoffIsHarmlessExactlyWhen`), and then sessions end by their own failure or by
  replacement only (`RegistryTheorems.SessionsEndBy`).
- **An owner under the empty string is forgotten.** The subscribe path reads an empty answer as "no owner"
  (`RegistrySchedules.EmptyOwnerForgets`); an owned app id is always served if and only if the empty string
  does not own it (`RegistrySchedules.OwnerIsFoundExactlyWhen`).
- **A second subscription is dropped.** A subscription that arrives while another waits for the same app id is
  destroyed at once; nothing else is destroyed without having been attached (`CallData.DestroyedWas`).
- **A saved name may not be ready.** `SaveFile` returns early when the file merely exists, and a stream is
  closed only after the cache assignment, so another thread's save may be half written
  (`FileSchedules.EarlyReturnIsNotReady`). A fetch is certain to return the file if and only if it is
  `Ready`; a save that wrote the file itself makes it so for ever.
- **A refused marker is announced.** `AddMarker` posts its event to everybody although no chat was made.

## Model

| member | source | states |
|---|---|---|
| `SessionTheorems.WriteExclusion` | core/UserInstance.cpp:47-86 | in every reachable state the right to write is in exactly one of: state IDLE, a sender, a write in flight, one completion thread, a dead session; so at most one write is outstanding and no two threads are about to write |
| `SessionTheorems.CompletionNeverSeesShutdown` | core/UserInstance.cpp:63-64 | a completion never loads SHUTDOWN |
| `SessionTheorems.WritingStoreChangesNothing` | core/UserInstance.cpp:71 | when a completion stores WRITING the state is WRITING already |
| `SessionTheorems.NoWriteAfterFinish` | core/UserInstance.cpp:77-86 | after OnFinished stored SHUTDOWN nothing is written in any continuation, whatever the state says, and what is queued stays queued |
| `SessionTheorems.ShutdownAbsorbsExactlyWhen` | core/UserInstance.cpp:50-52 | once OnFinished has run, the state is SHUTDOWN in every continuation if and only if it is now and no sender is between its load and its exchange |
| `Finishing.ErasedExactlyAfterCallback` | core/UserInstance.cpp:77-86 | a session is erased if and only if OnFinished has stored SHUTDOWN and its logoff callback has returned, so after every failure, once, and after nothing else |
| `Finishing.CallbackErases` | core/UserInstance.cpp:83-85 | a callback erases the session as soon as no sender holds the instances mutex |
| `SessionTheorems.NearOrderMeans` | core/UserInstance.cpp:47-75 | near-order is: every place holds its own event or is swapped with one neighbour |
| `SessionTheorems.NearFifo` | core/UserInstance.cpp:47-75 | written, then pending, is the send order up to disjoint swaps of neighbours, nothing lost, added or altered |
| `SessionTheorems.OvertakenAtMostOnce` | core/UserInstance.cpp:47-75 | no event is overtaken by two later ones and none overtakes two |
| `SessionTheorems.FifoExactlyWhen` | core/UserInstance.cpp:52-58 | order is exact if and only if no exchange found IDLE above a non-empty queue; each such exchange swaps one pair and needs an IDLE stored between an exchange and its push |
| `SessionTheorems.StrandingBound` | core/UserInstance.cpp:52-74 | IDLE leaves at most one event pending; without an IDLE stored between an exchange and its push it leaves none and what is written is a prefix of what was sent |
| `SessionTheorems.IdleIsEmptyExactlyWhen` | core/UserInstance.cpp:52-74 | along a run IDLE always means nothing pending if and only if no IDLE was stored between an exchange and its push |
| `SessionTheorems.Conservation` | core/UserInstance.cpp:47-75 | accepted events are, as a multiset, those written, queued or in a thread's hand |
| `Delivery.AlwaysInv` | core/UserInstance.cpp:47-86 | the invariant behind the theorems: token, mutex and order, in every reachable state |
| `Draining.EverySchedule` | core/UserInstance.cpp:61-75 | when nobody sends and writes succeed, no schedule changes the order of what is pending, every effective step uses up work, every completion one of those left |
| `Draining.StuckIsDrained` | core/UserInstance.cpp:61-75 | where no completion step is left the session is IDLE with everything written |
| `Draining.CanDrain` | core/UserInstance.cpp:61-75 | such a schedule exists, bounded by the work left |
| `Draining.Drains` | core/UserInstance.cpp:61-75 | from a write in flight and no sender, a full schedule takes exactly queue-length-plus-one completions and writes the queue in order |
| `Schedules.Stranded` | core/UserInstance.cpp:52-67 | a run ending IDLE with an event queued that nothing but a new send moves |
| `Schedules.FifoFails` | core/UserInstance.cpp:47-75 | a run in which the third event is written before the second |
| `Schedules.ShutdownOverwritten` | core/UserInstance.cpp:50-52 | a run in which the state is WRITING after OnFinished |
| `UserInstances.UserInstance.SendEvent` | core/UserInstance.cpp:47-59 | refused after SHUTDOWN, written when IDLE, queued otherwise; written-then-queued grows by the event at its end |
| `UserInstances.UserInstance.OnAsyncEventFinished` | core/UserInstance.cpp:61-75 | the head of the queue is written or the session rests; written-then-queued stays as it is |
| `UserInstances.UserInstance.OnFinished` | core/UserInstance.cpp:77-86 | the state is SHUTDOWN, the queue stays, the callback gets the token |
| `UserInstances.UserInstance.MoveFrom` | core/UserInstance.cpp:21-35 | the target has the source's whole value, the source is left without a stream and with an empty queue |
| `UserInstances.ShutdownExactlyAfterFailure` | core/UserInstance.cpp:77-80 | with uninterrupted methods the state is SHUTDOWN if and only if a write has failed |
| `UserInstances.AtomicFifo` | core/UserInstance.cpp:47-86 | with uninterrupted methods delivery is exactly first in, first out, of what was sent before the first failure |
| `Uninterrupted.OneHappening` | core/UserInstance.cpp:47-86 | what a method of the class does is what its statements, uninterrupted, do in the machine, a failure up to the end of its logoff callback |
| `Uninterrupted.LoadRefuses` | core/UserInstance.cpp:50-51 | before its callback has erased it, a session that is shut down refuses an event at its load |
| `Uninterrupted.AtomicSteps` | core/UserInstance.cpp:47-86 | every history of uninterrupted methods is a run of the machine |
| `Users.ReplacedIsMapUpdate` | core/User.cpp:43-54 | erase-first-match then append keeps tokens distinct, is a map update keyed by token, and leaves the others as they are and in order |
| `Users.WithoutOnTable` | core/User.cpp:57-61 | erasing by token removes that key from the map |
| `Users.BroadcastOnTable` | core/User.cpp:21-27 | a broadcast sends once to every session of the map |
| `Users.DirectedOnTable` | core/User.cpp:29-41 | a directed post sends to the session with the token and no other |
| `Users.MoveDown` | core/User.cpp:49-52 | erasing an element of the vector through move assignments keeps all other sessions' state, queue and order |
| `Users.User.PostEvent` | core/User.cpp:21-27 | every session is sent the event; true if and only if there is one |
| `Users.User.PostEventToInstance` | core/User.cpp:29-41 | the first session with the token is sent the event; true if and only if there is one |
| `Users.User.LoginNewInstance` | core/User.cpp:43-68 | the list is the old one without the token, then the new session |
| `Users.User.EraseSession` | core/User.cpp:57-65 | the session is gone, the rest is unchanged; the user is to be logged off if and only if none is left and the callback is installed |
| `Users.User.HasInstance` | core/User.cpp:80-89 | true if and only if a session has the token |
| `UserStorages.UserStorage.LoginUser` | core/UserStorageImpl.cpp:11-30 | the waiting device is attached and no longer waits, the callback is installed; without a device nothing changes |
| `UserStorages.UserStorage.OnNewEventsSubscriber` | core/UserStorageImpl.cpp:53-67 | the device is published, the first subscriber for an app id staying; then the database is asked, and some owner, if there is one, is logged in |
| `UserStorages.UserStorage.PostToAllUsers` | core/UserStorageImpl.cpp:32-37 | one send to each session of each user, devices unchanged |
| `UserStorages.UserStorage.PostEventToUser` | core/UserStorageImpl.cpp:39-51 | one send to each session of the user, nothing to others; true if and only if he has one |
| `UserStorages.UserStorage.PostEventToInstance` | core/UserStorageImpl.cpp:86-97 | one send to the session, nothing to others; true if and only if it exists |
| `UserStorages.UserStorage.OnSessionLogoff` | core/User.cpp:55-67 | as one step: the session leaves, and with the last one the user |
| `UserStorages.UserStorage.GetUuidByAccessToken` | core/UserStorageImpl.cpp:75-84 | the first user in key order with the token, empty if nobody has it |
| `UserStorages.AlwaysSound` | core/UserStorageImpl.cpp:11-51 | after any requests a registered user has a session, his callback and distinct tokens |
| `UserStorages.LostByLogoffOnly` | core/User.cpp:43-68 | a token is lost by the logoff of its session and by nothing else |
| `UserStorages.TokensAreGiven` | core/UserStorageImpl.cpp:11-30 | whoever has a token got it from a login of his, or from a subscription of which he was the owner |
| `RequestLaws.SessionAtMeans` | core/User.cpp:43-54 | after any requests the session found by token is the one session of the user with it |
| `RequestLaws.RequestsMean` | core/UserStorageImpl.cpp:11-97 | after any requests, what the next one does to the session at any user and token: a login or owned subscription puts there a fresh session on the stream that waited, a post for it sends it the event, its logoff takes it away, and else it is as it was |
| `RequestLaws.DevicesMean` | core/UserStorageImpl.cpp:53-67 | who waited goes on waiting unless the request attaches it, so the first subscriber stays; a new subscription without an owner waits if nobody did; other app ids are untouched |
| `UserStorages.LessMeans` | core/UserStorageImpl.cpp:78-82 | the key order is the lexicographic one |
| `UserStorages.FirstWithIsOne` | core/UserStorageImpl.cpp:75-84 | the token look-up has one answer |
| `RegistryTheorems.RendezvousInProgress` | core/UserStorageImpl.cpp:53-67 | a waiting device whose app id has an owner, not the empty string, always has a subscribe or login in progress for it |
| `RegistryTheorems.RendezvousComplete` | core/UserStorageImpl.cpp:53-67 | once all requests have finished, a subscription whose app id has an owner, not the empty string, is in exactly one session of a recorded owner, or was in one and is destroyed, or was a duplicate |
| `CallData.DestroyedWas` | core/UserStorageImpl.cpp:57-60 | whatever is destroyed was, when it was, in a session of an owner of its app id, or in the hand of a subscriber who found another device waiting for it |
| `RegistrySchedules.EmptyOwnerForgets` | core/UserStorageImpl.cpp:61-66 | a run in which a device whose app id has a real owner is left waiting with every request finished |
| `RegistrySchedules.OwnerIsFoundExactlyWhen` | core/UserStorageImpl.cpp:61-66 | a subscription for an owned app id that meets no login is served whatever the database answers, if and only if the empty string does not own it |
| `RegistryTheorems.CallDataInOnePlace` | network/CommonCallData.cpp:39-45 | every accepted subscription's call data is in exactly one place, and nothing else is anywhere |
| `RegistryTheorems.CallDataMovesForward` | core/UserStorageImpl.cpp:11-30 | every step leaves it or moves it on: from a hand to wait or, as a duplicate, to its end, from waiting to a session only, from there to its end |
| `RegistryTheorems.RegisteredUsers` | core/User.cpp:54-66 | a registered user has his callback, and a session or a logoff still in its callback |
| `RegistryTheorems.SessionsAreBacked` | database/DBMongo.cpp:49-90 | every attached session's token is among its user's recorded app ids |
| `RegistrySchedules.DropLosesNewSession` | core/User.cpp:62-65 | a login between the test for emptiness and the erasure loses its session |
| `RegistrySchedules.RaceIsReachable` | core/User.cpp:55-67 | a run from the empty registry that gets there |
| `RegistryTheorems.LogoffIsHarmlessExactlyWhen` | core/User.cpp:62-65 | along a run no erasure of a user that can happen next loses a session, if and only if no login has attached one between a test for emptiness and its erasure |
| `RegistryTheorems.SessionsEndBy` | core/User.cpp:43-66 | in such runs a session ends by its own failure or by a login that takes over its token |
| `FanOut.HitsBetweenMeans` | core/UserStorageImpl.cpp:32-51 | the filtered log is exactly the posts for the session, each once, in order |
| `FanOut.LiveSessionsSeeTheLog` | core/UserStorageImpl.cpp:32-51 | between posts a session has been sent the log since its attachment filtered by audience, in log order |
| `FanOut.PostsReachExactly` | core/UserStorageImpl.cpp:32-51 | a post reaches a live session if and only if it was made since its attachment and is for everybody, for its user, or for its user and token |
| `FanOut.StorageMutexGuards` | core/UserStorageImpl.cpp:34-36 | while a post holds the storage mutex no other action attaches a session, makes or erases a user, publishes a device or starts a post |
| `FanOut.EndedSessionsAreRetired` | core/UserStorageImpl.cpp:20-26 | a session that an action ends is retired with all it has received, and stays so |
| `FanOut.SessionBegan` | core/UserStorageImpl.cpp:16-18 | a session has been attached without a break since an action before which its device waited and the log was as long as the session says |
| `FanOut.RetiredSessionsSawTheirLife` | core/UserStorageImpl.cpp:32-51 | a session that is gone was sent exactly the log filtered by audience from its attachment to the action that ended it |
| `FanOut.CommonPostsInOneOrder` | core/UserStorageImpl.cpp:32-51 | any two sessions were sent the posts they share in the same order |
| `Server.CallsAreAccepted` | core/UserInstance.cpp:47-59 | until OnFinished every SendEvent call is accepted, in order, but for one in progress |
| `Server.WritesAreCalls` | core/UserInstance.cpp:47-75 | what is written is what was called, also after OnFinished |
| `Server.AlwaysAgrees` | core/User.cpp:21-27 | with the registry and its sessions composed, each live session has been called with exactly what the registry sent it |
| `Server.StreamIsTheLog` | core/UserStorageImpl.cpp:32-51 | what a live session's stream was given is the filtered log since its attachment up to disjoint swaps of neighbours; until a write fails nothing of it is missing from written and pending; without an IDLE between exchange and push it is a prefix of it |
| `Server.SessionsFailExactlyWhen` | core/UserInstance.cpp:77-86 | with both composed, the registry may erase a live session if and only if its OnFinished has run to the end |
| `Server.PostArrives` | core/User.cpp:21-27 | a run of the composition in which a user logs in, his device subscribes, and a post to everybody is written to its stream |
| `LockOrder.EveryOperationDisciplined` | core/UserStorageImpl.cpp:11-51 | every operation takes storage, instances and instance mutexes in that order only, and ends with none |
| `LockOrder.OperationsTake` | core/UserStorageImpl.cpp:11-97 | a post, look-up, login or subscription takes the storage mutex, the instances mutex of each user and the mutex of each session it touches, and no other, each while holding those around it |
| `LockOrder.LogoffTakes` | core/User.cpp:55-67 | a failure takes its session's mutex and has given it back when it takes the instances mutex, under which elements are moved; the storage mutex comes after that, with the last session only |
| `DeadlockFreedom.NoDeadlock` | core/UserStorageImpl.cpp:11-51 | with any number of operations, in every reachable state with one unfinished some operation can step |
| `DeadlockFreedom.MovesAreCounted` | core/UserStorageImpl.cpp:11-97 | every move of an operation brings the end one step nearer |
| `DeadlockFreedom.EverybodyFinishes` | core/UserStorageImpl.cpp:11-97 | no schedule moves for ever, and one that is stuck has every operation finished and every mutex free |
| `Logins.LoginServes` | network/MainEndpointImpl.cpp:125-159 | with uninterrupted requests a login leaves no device waiting for an app id with an owner, unless the empty string owns it |
| `UserDbs.UserDb.LoginUser` | database/DBMongo.cpp:49-91 | the app id is added to the user's unless it is there, everything else stays; an unsupported or undecodable request changes nothing |
| `UserDbs.UserDb.GetUuidByAppId` | database/DBMongo.cpp:342-362 | some owner of the app id, the empty string if there is none |
| `Logins.Endpoint.LoginUser` | network/MainEndpointImpl.cpp:125-159 | a refused login changes nothing; otherwise the owner is recorded and the waiting device attached; no device with an owner waits and every token is owned |
| `Logins.Endpoint.Subscribe` | network/MainEndpointImpl.cpp:330-342 | the accepted stream is attached to an owner or waits because there is none; no device with an owner waits and every token is owned |
| `Logins.Endpoint.FindUser` | core/UserStorageImpl.cpp:75-84 | the first user in key order with the token, who is a recorded owner of it |
| `Logins.OthersKeepConsistent` | core/UserStorageImpl.cpp:32-51 | posts and logoffs keep that no device with an owner waits and every token is owned |
| `Chats.ParticipantsDistinct` | database/DBMongo.cpp:421-431 | over all runs of marker creation and joins no participant is listed twice |
| `Chats.ChatsExactly` | database/DBMongo.cpp:180-233 | a chat exists if and only if a marker with a creator made it |
| `Chats.MembersExactly` | database/DBMongo.cpp:421-431 | over all runs a user takes part in a chat if and only if he made it or joined it afterwards |
| `Chats.ChatStore.AddMarker` | database/DBMongo.cpp:180-233 | a chat with its creator; none for an empty creator or other data that cannot be parsed |
| `Chats.PrintedIsObjectId` | database/DBMongo.cpp:227 | an id of the database printed as text is an object id if and only if it has twelve bytes |
| `Chats.ChatStore.AddUserToChat` | database/DBMongo.cpp:421-431 | afterwards the user is in the chat if it exists, nobody has left and nobody else has come, and no chat is new; an id that is no object id throws |
| `Chats.ChatStore.GetChatParts` | database/DBMongo.cpp:404-419 | the participants, none for an unknown chat; an id that is no object id throws |
| `Chats.Endpoint.AddMarker` | network/MainEndpointImpl.cpp:161-175 | the marker's event goes to every user, also when the marker was refused |
| `Chats.Endpoint.JoinChat` | network/MainEndpointImpl.cpp:300-311 | the token's first user joins, the empty string if nobody has it; an id that is no object id throws |
| `Chats.Endpoint.SendChatMessage` | network/MainEndpointImpl.cpp:259-277 | an empty chat id is refused and one that is no object id throws, with nothing posted; otherwise one send to each session of each participant and none to others |
| `Chats.MessageReachesParticipantsOnce` | network/MainEndpointImpl.cpp:259-277 | after any requests and joins, a session is sent the message once if its user takes part and not otherwise |
| `ChatFanOut.MessageOnceAmongOthers` | network/MainEndpointImpl.cpp:269-276 | the same with other requests between the message's posts, for a session live throughout |
| `CommonCallDatas.CommonCallData.OnAsyncEventFinished` | network/CommonCallData.cpp:39-45 | the stream goes to the registry, nothing of it stays behind, and the flag says so |
| `CommonCallDatas.CommonCallData.MoveFrom` | network/CommonCallData.cpp:19-29 | the stream changes owner, the flag is copied |
| `ConnectionPoolTheorems.Conservation` | database/ConnectionPool.cpp:11-72 | every connection of the pool is free or with exactly one thread, and no other is anywhere |
| `ConnectionPoolTheorems.EmptyWrapperMeansAllTaken` | database/ConnectionPool.cpp:53-61 | an empty wrapper is returned only while every connection is with some other thread |
| `ConnectionPoolTheorems.EmptyWrapperMeansTimeout` | database/ConnectionPool.cpp:53-61 | a thread that returns an empty wrapper has had its sleep timed out in the same call, and has not slept since |
| `ConnectionPoolTheorems.LookMeans` | database/ConnectionPool.cpp:37-61 | a look takes a free connection if there is one, also after a timeout; without one it gives up after a timeout and sleeps, mutex released, otherwise |
| `ConnectionPoolTheorems.EveryFreeConnectionIsAccountedFor` | database/ConnectionPool.cpp:49-72 | while a thread sleeps, free connections are at most the releasers yet to notify plus the woken yet to re-check |
| `ConnectionPoolTheorems.Progress` | database/ConnectionPool.cpp:35-72 | a thread in the pool that is not asleep can move, or the mutex owner can |
| `ConnectionPoolTheorems.NobodySleepsThroughARelease` | database/ConnectionPool.cpp:53-72 | when the pool's own steps have run out, a sleeper means every connection is in a live wrapper |
| `UninterruptedPool.TakesAtOnce` | database/ConnectionPool.cpp:49-51 | a call that finds a connection free returns it without waiting |
| `UninterruptedPool.GoesToSleep` | database/ConnectionPool.cpp:53-56 | a call that finds none sleeps and lets the mutex go |
| `UninterruptedPool.SleepsOn` | database/ConnectionPool.cpp:53-56 | a wake-up without a timeout that finds none changes nothing |
| `UninterruptedPool.GivesUp` | database/ConnectionPool.cpp:53-61 | a timeout that finds none ends the call with an empty wrapper and nothing changed |
| `UninterruptedPool.WakesAndTakes` | database/ConnectionPool.cpp:53-59 | a sleeper that wakes, timed out or not, takes a connection that has become free |
| `UninterruptedPool.Releases` | database/ConnectionPool.cpp:11-16 | the destructor makes its connection free and lets the mutex go before it notifies |
| `UninterruptedPool.Notifies` | database/ConnectionPool.cpp:71 | a notification wakes one sleeper, and is lost without one |
| `ConnectionPools.ConnectionPool.constructor` | database/ConnectionPool.cpp:25-33 | the connections made before the first failure, all of them, are free |
| `ConnectionPools.ConnectionPool.AcquireConnection` | database/ConnectionPool.cpp:35-62 | an empty wrapper if and only if the wait times out before any look finds a connection; else a connection leaves the set that was found |
| `ConnectionPools.ConnectionPool.ReleaseConnection` | database/ConnectionPool.cpp:64-72 | the connection is free again and a waiter is notified; nothing for an empty wrapper |
| `FileManagerTheorems.CacheTruth` | utils/FileManager.cpp:37-123 | a cached value differs from the file's full content only while a save of that name has not reached its cache assignment |
| `FileManagerTheorems.SavedIsReady` | utils/FileManager.cpp:46-56 | a save that wrote the file itself leaves it ready for ever |
| `FileManagerTheorems.ReadySuffices` | utils/FileManager.cpp:59-92 | a fetch that starts when the file is ready returns the file in every interleaving |
| `FileSchedules.ReadyNeeded` | utils/FileManager.cpp:59-92 | if it is not ready and nobody holds the mutex, some schedule makes the fetch return something else |
| `FileManagerTheorems.RoundTrip` | utils/FileManager.cpp:46-91 | once a save that wrote the file has returned, every later fetch returns exactly its bytes |
| `FileSchedules.EarlyReturnIsNotReady` | utils/FileManager.cpp:41-45 | a run in which a save returns the name of a file that is not ready |
| `UninterruptedFiles.SavesNothing` | utils/FileManager.cpp:41-45 | alone, a save of a file that exists returns its name and leaves disk and cache alone |
| `UninterruptedFiles.SavesNew` | utils/FileManager.cpp:46-56 | alone, a save of a new file leaves it on disk and in the cache, the mutex free |
| `UninterruptedFiles.SaveFails` | utils/FileManager.cpp:47-51 | a stream that cannot be opened ends the save with nothing saved |
| `UninterruptedFiles.FetchesCached` | utils/FileManager.cpp:84-91 | alone, a fetch of a cached file returns the entry and changes nothing |
| `UninterruptedFiles.FetchesFromDisk` | utils/FileManager.cpp:65-82 | alone, a fetch of a file that is not cached returns and caches what is on disk |
| `UninterruptedFiles.FetchesNothing` | utils/FileManager.cpp:70-74 | alone, a fetch of a file that is nowhere finds nothing |
| `UninterruptedFiles.Rechecks` | utils/FileManager.cpp:76-82 | after the read, an entry that somebody else has made stays and is returned; else what was read is cached and returned |
| `FileManagers.FileManager.SaveFile` | utils/FileManager.cpp:37-57 | an existing file is left alone; otherwise disk and cache have the content, or nothing changes and the name is empty |
| `FileManagers.FileManager.GetFile` | utils/FileManager.cpp:59-92 | what the cache has, else what others cached during the look at the disk, else what the disk had; empty if there is no file; the file itself if all of these are true to it |
| `FileManagers.FileManager.AddFileToCache` | utils/FileManager.cpp:94-123 | true if and only if the file is cached or exists, which is then cached; what others cached meanwhile stays |
| `FileManagers.SaveThenGet` | utils/FileManager.cpp:37-92 | a get after a save returns the saved bytes if and only if the name was new or its content was the same |

## Left out

Assumptions:

- A session has a stable identity: a user's vector is not restructured while one of its sessions has a write
  in flight. The program's write tags are addresses of elements that the vector moves.
- Logoff finds its session by token; under the same assumption a replaced session's failure does not erase
  its successor. In the registry machine the failing session is the one that has the token.
- Sends to one session are serialised by the user's instances mutex, so the session machine has at most one
  sender at a time.
- Each outstanding write completes once, well or badly. gRPC, the completion queue and its thread count are
  not part of this model; completions come from any number of threads.
- Each database operation is atomic and succeeds, unless an argument makes the driver throw; it is one step on grow-only sets. The MongoDB driver,
  profile fields and token decoding are not part of this model. A new chat's id is one the database has not
  given before.
- The hash is any function that does not collide on the contents saved so far; SHA-256 is not part of this
  model. A write to an open stream succeeds, and an existing file can be opened for reading.
- `std::lock` takes both mutexes at once or waits with neither.
- A login keeps the storage mutex from its look-up to its last statement, so in the registry machine it is
  one step. A post is one step per user.
- With registry and sessions composed a post does not wait for its calls to return, so more can happen there
  than in the program. A session is erased after its callback has started, as one step.
- A post visits the users in any order; the program takes key order, which no session can tell.
- `notify_one` wakes a sleeper if there is one; which one is open.

Not modelled:

- UserStorages.UserStorage.OnSessionLogoff: erases session and user in one step; the race between the two is in the registry machine.
- UserStorages.UserStorage.LoginUser: runs uninterrupted; its rendezvous with subscribes is in the registry machine.
- Logins.Endpoint.LoginUser: runs uninterrupted, and the response's other fields are not part of this model.
- Logins.Endpoint.Subscribe: runs uninterrupted; the interleaved subscription is in the registry machine.
- Chats.Endpoint.SendChatMessage: the posts to the participants are uninterrupted; `ChatFanOut.MessageOnceAmongOthers` has other requests in between.
- ConnectionPools.ConnectionPool.AcquireConnection: what a waiting thread finds at each wake-up is a parameter; where it comes from is in the pool machine.
- ConnectionPools.ConnectionPool.constructor: the loop's 32-bit counter, and the failing connection's exception beyond ending the loop.
- FileManagers.FileManager.GetFile: what the disk read returns and what others cache meanwhile are parameters; where they come from is in the image store machine.
- Chats.Endpoint.JoinChat: the result code, which is the same for a chat that does not exist.
- A user destroyed while one of his logoff callbacks runs, `delete this`, and references into moved data: object lifetime.
- Re-arming the subscription accept slot: it depends on `weak_from_this` under private inheritance.
- Saving and listing chat messages, marker listing, images' database records, profile updates: records written and read back.
- `IsOnline` and `GetMarkerInfo`, which always answer the same.
- Postgres, query manager, push sender, mailer, verification service, random tokens, logging: plumbing.
