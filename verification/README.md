# Verification of node-net's native sockets, servers and block lists

A Dafny 4.11 model of the Rust side of `node-net`, with proofs. `dafny verify dfyconfig.toml`
checks the whole project.

**The lifecycle** (`src/Node/Net/Types.rs`, `src/Node/Net/Socket.rs`). Sockets and servers are
records behind mutexes, shared by callers, connect threads, read loops, accept threads and timer
threads; a global counter of open handles and a self-requeueing pump job keep the program alive.
`Machine.dfy` models this as a step machine over any number of sockets, servers and threads:
a step moves one thread and performs one lock region, one atomic operation, one enqueue or one
spawn; the outcome of every system call is a free choice; a caller may start any operation at any
moment on any socket or server that has been handed out. `Run` takes any sequence of steps, so a
lemma about `Reached(steps)` for all `steps` is a statement about every interleaving of every
program. `Handles`, `Pump`, `Ending`, `CloseOnce`, `Exit`, `Grammar`, `Scripts`, `Attribution`,
`Alone`, `Ownership`, `Bytes`, `Accepting`, `Listening`, `Timers`, `History`, `Flags` and
`Finality` prove what every run keeps; `LateConnect` and `LateOpen` hold particular runs.
`Handshake.dfy` adds the wire: two connected plaintext sockets with a FIFO of bytes and an
end-of-file flag in each direction (half-close, section 3.6.1 of RFC 9293) and any finite plan of
user calls at each end; `HalfOpen.dfy` says which halves are shut and what a half-open end still
writes; `HandshakeActs.dfy` shows that its moves are the machine's steps and its
runs the machine's runs, and `Meeting.dfy` that the machine comes, from its start, to stand at two
such ends. `Objects.dfy` holds the records as classes updated in place, with the read loop and
the write loop as loops; their contracts use the same lock regions (`Records.dfy`) as the machine,
and `Uninterrupted.dfy`, `Calls.dfy` and `Threads.dfy` show that what the objects do is what the
machine's threads do when they run in a row: every operation from its call on, connecting, reading
and accepting for every answer of the outside world.

**The block list** (`src/Node/Net/Types.rs`, `src/Node/Net/BlockList.rs`). `Prefix.dfy` models
the 32- and 128-bit masks with a bitwise `And` and a shift that exists only below the width, and
proves that masking is membership in an interval (CIDR, section 3.1 of RFC 4632; section 2.3 of
RFC 4291). `BlockList.dfy` and `RuleText.dfy` build on that.

Choices of the model:

- A new record is private to its creator until `handle_open`, so creating it and counting it is one step.
- A connect thread and the read loop it spawns as its last act are one thread; so are a `listen`
  call and its accept thread, and a `setTimeout` call and its timer thread. An accepted socket's
  read loop is a thread of its own.
- A caller has a socket in hand once the call that made it has returned, or once its connection
  event has been taken from the queue; operations start only on what is in hand.
- The queue is the part of the log of all enqueued jobs that has not run yet, first in first out;
  a queue exists (`queue` is `Some`) and `dup` succeeds. One job emits `connect` and `ready`.
- A rule keeps the family text of its caller, and a check compares it with "IPv4" or "IPv6", as
  the code does. Where families are meant as a two-valued tag, the lemmas about
  `BlockListCheck` apply with the two texts "IPv4" and "IPv6".

What turned out not to hold of the code, with the exact condition under which it does:

- A closed socket does not always say so: a connect region or a publish region that runs after the
  close stores "opening" or "open" again (`LateConnect.ClosedIsNotAlwaysFinal` is such a run, with
  `connect` enqueued after `close`). `Finality.FinalIffNoConnectInFlight`: a socket that is closed
  and says so will always say so, short of a new connect, if and only if no connect is in flight at
  that moment, and none is once every connect has been answered by `connect` or `error`
  (`Finality.FinalOnceAnswered`); `Finality.OrderlyRunsAreFinal` says the same of whole runs, and
  `Finality.ConditionalFinality` names the steps that break it.
- An open handle does not always keep the program alive: the pump is started once, so a socket or
  server opened after it has retired finds no pump. `LateOpen.OpenHandlesDoNotAlwaysKeepAlive` is
  a run that ends with an open socket, an idle main thread and an empty queue, and
  `LateOpen.LaterSocketsAreUnguarded` reaches such a state from every retired one. The condition is
  that the pump has not retired (`Pump.QueueNeverRunsDry`, `LateOpen.UnguardedIffRetired`).
- A block list does not answer as its adds suggest: no add ever blocks an IPv6 address
  (`BlockList.Ipv6IsNeverBlocked`), and the lower-case text the address wrapper passes is never
  matched (`BlockList.LowercaseAddIsIgnored`). `BlockList.VerdictIsUnion` says what is blocked, and
  `BlockList.SpellingDecides` and `BlockList.OneAddNeedsTheSpelling` when that is what was meant.

## Model

| member | source | states |
|---|---|---|
| Machine.NoThreadIsStuck | src/Node/Net/Types.rs:319-662 | in every run each thread that has not finished works on records that exist and has an answer of the outside world with which it goes on: nothing in the program itself blocks it |
| Scripts.CallsGoByScript | src/Node/Net/Types.rs:234-991 | in every run the thread of every call stands where the operation has come to, and has enqueued exactly what the operation enqueues by then: for `listen`, `error`, or `listening` and then connection events only; for `close`, one `close` at most; and so on for all ten |
| Scripts.WorkIsAlwaysDone | src/Node/Net/Types.rs:319-447 | in every run a connect or read thread, or a call of `destroy`, `destroySoon`, `connectIpc` or a server's `close`, that is past its claim, won or lost, leaves the record closed, and a `destroy` with an error leaves it marked failed |
| Scripts.ReturnedCallsHaveClosed | src/Node/Net/Types.rs:347-373 | said of the calls: one that has returned has closed the socket or server it was called on |
| Handles.HandleConservation | src/Node/Net/Types.rs:86-93 | in every run ACTIVE_HANDLES equals the open sockets and servers plus the closers between claim and release, and is never negative |
| Handles.ZeroMeansAllReleased | src/Node/Net/Types.rs:110-113 | the pump's test `active <= 0` holds exactly when every handle ever opened is closed and released |
| Pump.PumpUniqueness | src/Node/Net/Types.rs:95-119 | in every run pump jobs queued, running or about to be queued number exactly one between start and retirement and none otherwise |
| Pump.RetiresExactlyWhenAllReleased | src/Node/Net/Types.rs:110-113 | a step retires the pump iff it is the pump's own test and all handles are released at that moment |
| Pump.QueueNeverRunsDry | src/Node/Net/Types.rs:95-119 | while a socket or server exists and the pump has not retired, an idle main thread with an empty queue means a creator is just about to start or to enqueue the pump; no open handle is left without one |
| Pump.OnlyTheStarterMayLag | src/Node/Net/Types.rs:100-119 | once the pump has been started, that creator is the one that won the start and is about to enqueue it |
| Pump.RetiredForGood | src/Node/Net/Types.rs:100-105 | after retirement no pump job exists in any continuation, whatever is opened later |
| Ending.ReleasedProgramsEnd | src/Node/Net/Types.rs:100-119 | in every run, once the pump has been started and every handle is released, the main thread alone runs the queue to its end and retires the pump |
| Ending.EndsExactlyWhenReleased | src/Node/Net/Types.rs:100-119 | while the pump lives, steps of the main thread alone can bring the program to its end iff every handle has been released |
| LateOpen.UnguardedIffRetired | src/Node/Net/Types.rs:95-119 | when an open socket finds a started program's main thread idle and its queue empty, nobody is about to enqueue the pump iff the pump has retired |
| LateOpen.LaterSocketsAreUnguarded | src/Node/Net/Types.rs:95-119 | every run in which the pump has retired goes on to one with a new open socket, an idle main thread, an empty queue and nobody about to enqueue the pump |
| LateOpen.OpenHandlesDoNotAlwaysKeepAlive | src/Node/Net/Types.rs:95-119 | a run from the start ends so, with one handle counted and no thread left to do anything |
| CloseOnce.ExactlyOneClose | src/Node/Net/Types.rs:319-344 | under any number of concurrent finishers and destroyers, close jobs enqueued or in hand number one iff the record is closed, none otherwise; the same for servers |
| CloseOnce.ClosedForGood | src/Node/Net/Types.rs:326-329 | a close is never taken back in any continuation, for sockets and servers |
| CloseOnce.CloseTrueMeansError | src/Node/Net/Types.rs:353-362 | a `close(true)` in the log means an error job of that socket is in the log or a destroyer is about to enqueue it |
| CloseOnce.ErrorsHaveCauses | src/Node/Net/Types.rs:347-373 | in every run the error flag has a pending or enqueued error behind it, and every `close(true)` in hand or enqueued reports a set flag |
| Exit.NoCloseLostAtExit | src/Node/Net/Types.rs:110-118 | when the pump reads zero and retires, every socket and server ever opened has exactly one close job in the log |
| Exit.CloserHasEnded | src/Node/Net/Types.rs:441-445 | a connect or read thread whose close is in the log is past its loop, and all it enqueued is a whole sentence and then that close: for a client `lookup error close` or `lookup connect ready`, data, `end`, close; for an accepted socket data, `end`, close |
| Exit.ReaderEndsBeforeItCloses | src/Node/Net/Types.rs:411-445 | if it got as far as its read loop, its last two jobs are `end` and that close, and what precedes them is its `lookup connect ready` (for a client) and its data, whole |
| Exit.ReadLoopLosesNothing | src/Node/Net/Types.rs:411-445 | when the close of a socket was enqueued by its only connect or read thread, the data jobs in the log carry every byte the socket counted, and a thread that reached its read loop enqueued data, `end`, close in that order |
| Grammar.EventGrammar | src/Node/Net/Types.rs:525-662 | over every interleaving the events of a socket's connect and read threads are a prefix of `lookup (error \| connect ready data* end)`, or such a whole sentence followed by close |
| Grammar.AlwaysInRole | src/Node/Net/Types.rs:405-447 | in every run each connect thread and each read loop stands where the events it has enqueued say, chunk sizes 1 to 65536 included |
| Alone.WholeTraceGrammar | src/Node/Net/Types.rs:347-373 | if no other thread has reported on a client socket or is about to (calls that come too late to report anything allowed), all events any thread enqueues about it are a prefix of `lookup (error close(true) \| connect ready data* end close(false))` |
| Alone.AcceptedTraceGrammar | src/Node/Net/Types.rs:405-447 | the same for an accepted socket: a prefix of `data* end close(false)` |
| Alone.SoloOwnsTheTrace | src/Node/Net/Types.rs:525-662 | then the life events of the socket, in the order they were enqueued, are exactly the trace of its own connect or read thread |
| Attribution.AlwaysAttributed | src/Node/Net/Types.rs:319-447 | in every run every life event of a socket was enqueued by a thread that exists to connect, read, destroy or finish that very socket |
| Ownership.AlwaysExclusive | src/Node/Net/Types.rs:798-822 | in every run, while a thread makes a socket no other thread works on it, reports on it or was called to finish it |
| Ownership.NotClosedWhileMade | src/Node/Net/Types.rs:798-822 | a socket still being made, an accepted one up to the start of its read loop included, is neither failed nor closed |
| Ownership.AlwaysOwnsServer | src/Node/Net/Types.rs:767-788 | while a thread makes a server no other thread works on it and it is not closed |
| Ownership.CallsBeginInHand | src/Node/Net/Types.rs:934-942 | a call on a socket can begin exactly when no thread makes or carries it any more and its connection event, if it has one, has been taken from the queue |
| Ownership.ServerCallsBeginInHand | src/Node/Net/Types.rs:767-788 | a call on a server can begin exactly when the call that made it has returned |
| Bytes.ByteConservation | src/Node/Net/Types.rs:427-437 | in every run `bytes_read` equals the bytes in the socket's data jobs plus those counted and not yet pushed |
| Accepting.AcceptConservation | src/Node/Net/Types.rs:934-946 | in every run `connections` equals the connection events enqueued plus those between count and enqueue |
| Accepting.NoSocketAnnouncedTwice | src/Node/Net/Types.rs:912-946 | at most one connection event per socket is enqueued or on its way, and none for a socket that does not exist |
| Accepting.CarriedMeansOne | src/Node/Net/Types.rs:912-946 | an accept thread that carries a socket carries the one connection event of that socket: none is enqueued and no other thread carries it |
| Accepting.AcceptedSocketIsAnnounced | src/Node/Net/Types.rs:912-946 | a socket with its one connection event on its way or enqueued keeps exactly that one: the event stays on its way until enqueued, in every continuation |
| Accepting.ConnectionsAreDistinctHandles | src/Node/Net/Types.rs:912-946 | two connection events never announce the same handle, and each announces an opened one |
| Accepting.EachThreadCountsAtMostOneMore | src/Node/Net/Types.rs:896-946 | after `server_close` has claimed the server, in every continuation each thread counts at most one more connection, and only an accept thread already past its test counts any: threads of a later `listen` count none |
| Accepting.ClosedServerWindsDown | src/Node/Net/Types.rs:896-903 | after `server_close` has claimed the server, `connections` grows in every continuation by at most the number of accept threads already past their test |
| Listening.LoopsEndForAReason | src/Node/Net/Types.rs:894-953 | in every run an accept thread that has announced `listening` ends only because accept failed for good or its server was closed: not for want of a client and not for a failed handshake |
| Listening.OpenServersGoOnAccepting | src/Node/Net/Types.rs:894-953 | in every run an accept thread that has not ended, wherever in its loop it stands, comes by its own steps to its next accept as long as its server is not closed |
| Listening.RetriesGoRound | src/Node/Net/Types.rs:947-949 | with nobody waiting, or after a failed handshake, the loop comes round to the very state it was in |
| Listening.AcceptedSocketsInherit | src/Node/Net/Types.rs:854-932 | in every run an announced socket allows half-open connections iff its server does |
| Listening.OptionsAlwaysFit | src/Node/Net/Types.rs:234-280 | in every run the option a call was given is that of the record it makes, and an accept thread carries its server's |
| History.ServersGoByHistory | src/Node/Net/Types.rs:877-985 | in every run a server listens, and holds its listener, iff a bind has succeeded since it was closed, or at all if it was not |
| Timers.NoTimerRingsAfterClose | src/Node/Net/Socket.rs:44-57 | after a close the timeouts still to come are exactly those of timers already past their wake-up test |
| History.SocketsGoByHistory | src/Node/Net/Socket.rs:35-57 | in every run the stored period is that of the last `setTimeout`, and `connecting` holds iff a connect has begun and no publish has followed |
| History.TimersWakeByHistory | src/Node/Net/Socket.rs:44-57 | in every run a timer that wakes goes on to ring iff its socket has not been closed and the last `setTimeout` asked for its own period |
| Flags.FlagCoherence | src/Node/Net/Types.rs:511-519 | in every run pending holds iff opening, open means neither connecting nor pending, destroyed equals close emitted, a server's closed equals its close emitted |
| Finality.ConditionalFinality | src/Node/Net/Types.rs:639-647 | closed and `ready_state` "closed" agree in exactly the runs in which no connect or publish region ran on the socket after its close |
| Finality.FinalIffNoConnectInFlight | src/Node/Net/Types.rs:511-525 | a socket that is closed and says so says so in every continuation without a new connect iff no connect of it is in flight now |
| Finality.FinalOnceAnswered | src/Node/Net/Types.rs:511-662 | what a caller can wait for: when every call that connects the socket has returned and every connect thread has enqueued `connect` or `error`, no connect is in flight, and a closed socket that says so stays so |
| Finality.OrderlyRunsAreFinal | src/Node/Net/Types.rs:319-332 | if every close of the socket falls when no connect is in flight and nobody connects it once closed, `ready_state` says "closed" exactly while it is closed |
| Finality.ClosedIsAbsorbing | src/Node/Net/Types.rs:319-332 | in runs without such late regions a `ready_state` of "closed" stays, in every continuation |
| LateConnect.ClosedIsNotAlwaysFinal | src/Node/Net/Types.rs:639-652 | a concrete run reaches a closed socket that says "open", with `connect` enqueued after `close` |
| Handshake.RunsAreBounded | src/Node/Net/Types.rs:405-476 | every run of two connected ends with finite plans has at most `TotalWork` moves, a bound fixed by its start |
| Handshake.EveryMoveIsWork | src/Node/Net/Types.rs:405-476 | every move strictly lowers the weighted sum of unsent bytes, unread bytes and thread positions |
| Handshake.ComesToRest | src/Node/Net/Types.rs:405-447 | from every state some run without read errors reaches a state with no enabled move |
| Handshake.OpenOnlyIfHalfOpen | src/Node/Net/Types.rs:411-419 | at rest, without hard read errors, a socket is open only if no write half was ever shut, or its peer is allowHalfOpen, has seen the end and has not ended |
| HalfOpen.ShutsExactly | src/Node/Net/Types.rs:411-419 | in every run an end has shut its write half, or is about to by a call, iff its plan calls end or destroy, or the stream has ended on it and it is not half-open |
| HalfOpen.ShutAtRest | src/Node/Net/Types.rs:411-419 | at rest it has shut it iff so |
| HalfOpen.HalfOpenEndsStayWritable | src/Node/Net/Types.rs:411-419 | the write half of a half-open end whose plan does not ask stays open in every run, its peer's end of stream included |
| HalfOpen.HalfOpenEndsWriteEverything | src/Node/Net/Types.rs:461-476 | such an end gets all its writes through, in order, whatever its peer does, if the kernel does not refuse, and exactly those bytes arrive |
| HalfOpen.ReadersFinish | src/Node/Net/Types.rs:363-371 | at rest a read loop has finished iff its own plan destroys the socket, or its peer has shut its write half, or it left on a hard error |
| Handshake.OneEndClosesBoth | src/Node/Net/Types.rs:266-276 | with allowHalfOpen false on both ends every run comes to rest with both closed and both handles released iff some plan calls end or destroy or both call destroySoon |
| Handshake.BytesArriveInOrder | src/Node/Net/Types.rs:409-437 | in every run the chunks an end has pushed, joined in order and followed by the chunk in hand and what the kernel holds, are byte for byte what the kernel took from its peer; each is 1 to 65536 long, and bytes_read counts those taken over |
| Handshake.NothingLostBeforeEof | src/Node/Net/Types.rs:409-437 | an end that has seen its peer's end of stream has pushed exactly the bytes the kernel took from the peer, in order, and counted them |
| Handshake.SoundRun | src/Node/Net/Types.rs:319-447 | every run keeps the handshake invariant: who has shut, seen the end, closed, and the handle count of the two ends |
| HandshakeActs.ReaderMovesAreActs | src/Node/Net/Types.rs:405-447 | every move of a read loop of the handshake is the machine's step at the same point: same record, same next point, a handle released by both or by neither |
| HandshakeActs.CallerMovesAreActs | src/Node/Net/Types.rs:347-373 | so is every move of a `destroy` or `destroySoon` in progress |
| HandshakeActs.ActsAreMoves | src/Node/Net/Types.rs:405-447 | conversely whatever the machine's read loop or call can do, and the wire allows, the handshake has as a move |
| HandshakeActs.RunsAreMachineRuns | src/Node/Net/Types.rs:319-447 | wherever the machine stands as two ends of the handshake do, it follows every run of theirs step by step, with the same records, points and handle count at the end |
| HandshakeActs.OneEndClosesBothInTheMachine | src/Node/Net/Types.rs:266-276 | under the conditions of `OneEndClosesBoth` the machine has a run after which both sockets are closed and two handles fewer are counted |
| Meeting.ConnectedEndsAreReached | src/Node/Net/Types.rs:798-946 | from its start the machine reaches, through listen, connect, accept and the connection event, a state that stands at two ends just connected, for any plans and any `allowHalfOpen` |
| Meeting.OneEndClosesBothFromTheStart | src/Node/Net/Types.rs:266-276 | with `allowHalfOpen` off, if one plan calls end or destroy or both call destroySoon, a run of the machine from its start closes both sockets and leaves only the server's handle counted |
| Objects.EventLoop.OpenHandle | src/Node/Net/Types.rs:86-105 | counts a handle and enqueues the pump exactly the first time |
| Objects.Socket.constructor | src/Node/Net/Types.rs:226-280 | a fresh opening record, one handle counted, the pump started if it was not |
| Objects.Socket.Attach | src/Node/Net/Types.rs:449-459 | a descriptor is attached iff one was before or dup succeeded, and nothing else changes |
| Objects.Socket.ShutdownWrite | src/Node/Net/Types.rs:266-276 | the write half is shut afterwards iff there is a descriptor |
| Objects.Socket.BeginConnect | src/Node/Net/Types.rs:513-519 | the calling thread's region, whole record; the flags still hang together |
| Objects.Socket.Publish | src/Node/Net/Types.rs:639-647 | the publish region, whole record, with no test of the destroyed flag; the flags still hang together |
| Objects.Socket.Finish | src/Node/Net/Types.rs:319-344 | closes the record once, enqueues one close with the flag as it stands, gives back exactly the handle the record stood for; otherwise nothing; closed and destroyed in either case |
| Objects.Socket.Destroy | src/Node/Net/Types.rs:347-373 | error flag and error job first, then both halves shut if a descriptor is attached and neither if none is, then the finish of the failed record |
| Objects.Socket.ConnectIpc | src/Node/Net/Socket.rs:87-103 | an error job and the finish, whose close carries the flag as it stood: the error does not set it |
| Objects.Socket.StartTimer | src/Node/Net/Socket.rs:35-43 | stores the period; a timer thread starts iff it is positive; the flags still hang together |
| Objects.Socket.WakeTimer | src/Node/Net/Socket.rs:44-57 | a timer rings iff at wake-up the socket is not destroyed and the stored period is its own, hence never on a closed socket |
| Objects.Socket.ReadLoop | src/Node/Net/Types.rs:405-447 | for any results with retries in between: the chunks pushed concatenate to the bytes consumed, each 1 to 65536 long, bytes_read grows by exactly that, one end job and the finish follow, the write half of an attached descriptor is shut if the stream ended and half-open is off |
| Objects.Socket.LeaveLoop | src/Node/Net/Types.rs:411-445 | what follows the loop: the half-close of an attached descriptor after an end of stream without half-open, end job, finish |
| Objects.RetriesDoNotMatter | src/Node/Net/Types.rs:420-426 | leaving a retry out of the results of `read`, wherever it falls, changes neither the bytes consumed nor what stops the loop |
| Objects.ConsumedUpToTheEnd | src/Node/Net/Types.rs:409-440 | chunks and retries never stop the loop and are consumed whole; the first end of stream or hard error stops it, and nothing after that is consumed |
| Objects.WriteAllFd | src/Node/Net/Types.rs:461-476 | for any kernel the bytes handed over are a prefix of the input without gap or repeat, as long as the calls took together, each being offered what the ones before it left; the loop stops only when all is written or the next call refuses, so all is written iff no call refuses |
| Objects.Server.constructor | src/Node/Net/Types.rs:767-788 | a fresh server record, one handle counted, the pump started if it was not |
| Objects.Server.Listen | src/Node/Net/Types.rs:877-892 | after a bind the record listens and `listening` is enqueued; otherwise only `error` is; a closed server that listens again still accepts nothing |
| Objects.Server.Announce | src/Node/Net/Types.rs:934-946 | counts and announces one accepted socket; the flags still hang together |
| Objects.Server.Close | src/Node/Net/Types.rs:969-991 | closes the record once with one close job and one handle released; otherwise nothing; it accepts nothing afterwards in either case |
| Uninterrupted.FinishIsUninterrupted | src/Node/Net/Types.rs:319-344 | three steps of a machine thread in a row have the effect that `Objects.Socket.Finish` promises |
| Uninterrupted.DestroyIsUninterrupted | src/Node/Net/Types.rs:347-373 | all the steps of a destroy, six with an error and four without, have the effect that `Objects.Socket.Destroy` promises: flag, error job, close job, handle |
| Uninterrupted.ServerCloseIsUninterrupted | src/Node/Net/Types.rs:969-991 | three steps of a machine thread from its claim have the effect that `Objects.Server.Close` promises |
| Calls.CloseServerCloses | src/Node/Net/Types.rs:969-991 | a call of a server's `close`, run in a row from the call on, closes an open server with one `close` and one handle released and leaves a closed one alone |
| Calls.DestroySoonFinishes | src/Node/Net/Types.rs:319-344 | a call of `destroySoon` has the effect of `Objects.Socket.Finish` |
| Calls.DestroyDestroys | src/Node/Net/Types.rs:347-373 | a call of `destroy` has the effect of `Objects.Socket.Destroy`, with an error and without |
| Calls.ConnectIpcFails | src/Node/Net/Socket.rs:87-103 | a call of `connectIpc` has the effect of `Objects.Socket.ConnectIpc` |
| Calls.SetTimeoutTimes | src/Node/Net/Socket.rs:35-57 | a call of `setTimeout` stores its period and, left alone, rings once iff the period is positive and the socket is not destroyed |
| Calls.NewSocketMakes | src/Node/Net/Types.rs:234-280 | a call that makes a socket adds one fresh record with the option asked for, one handle, and the pump if nobody had started it |
| Calls.NewServerMakes | src/Node/Net/Types.rs:767-788 | the same for a server |
| Calls.ConnectStarts | src/Node/Net/Types.rs:511-521 | a call of `connect` marks the socket as connecting and starts its connect thread |
| Calls.CreateConnectionStarts | src/Node/Net/Types.rs:511-521 | `createConnection` does both, to a socket of its own |
| Calls.ListenListens | src/Node/Net/Types.rs:877-895 | a call of `listen` that binds makes the server listen, enqueues `listening` and goes on as the accept loop with the server's option |
| Calls.ListenFails | src/Node/Net/Types.rs:954-965 | one that cannot bind enqueues the server's error and nothing else |
| Threads.ConnectSucceeds | src/Node/Net/Types.rs:572-662 | a connect thread whose lookup and dial succeed enqueues `lookup`, publishes, enqueues `connect` and reads |
| Threads.LookupFails | src/Node/Net/Types.rs:525-545 | one whose lookup fails enqueues that `lookup` and has the effect of a destroy with an error |
| Threads.DialFails | src/Node/Net/Types.rs:525-662 | one whose dial fails enqueues a successful `lookup` and has the same effect |
| Threads.ReadLoopIsUninterrupted | src/Node/Net/Types.rs:405-447 | for any results of `read` the machine's read loop has the effect that `Objects.Socket.ReadLoop` promises: the same data jobs, count and end, retries being no result at all |
| Threads.AcceptTakesAClient | src/Node/Net/Types.rs:904-946 | an accept thread that is given a client makes a published socket with the server's option, starts its read loop, counts and announces it, and is back at its test |
| Threads.AcceptTakesNobody | src/Node/Net/Types.rs:947-951 | with nobody, or after a failed handshake, it is back at its test with nothing changed; on an error it ends |
| Threads.TestBeforeAccept | src/Node/Net/Types.rs:896-903 | the test lets it accept iff the server listens and is not closed |
| Prefix.MasksAgree | src/Node/Net/Types.rs:1034-1048 | the two separately written masks are the same number, ones over the prefix and zeros below, for prefix 0, within and beyond the width |
| Prefix.AndClearsLowBits | src/Node/Net/Types.rs:1065-1072 | anding with such a mask rounds down to a multiple of the block size |
| Prefix.MaskedEqualityIsInterval | src/Node/Net/Types.rs:1062-1075 | masked bits are equal iff the address lies in the interval from the masked network on, one place per free bit pattern |
| Prefix.ParsePrefixIsIdempotent | src/Node/Net/Types.rs:1034-1048 | masking twice is masking once, and the first address of the block is kept |
| BlockList.CheckIsAny | src/Node/Net/Types.rs:1057-1058 | a check answers yes iff some rule matches |
| BlockList.RuleIsInterval | src/Node/Net/Types.rs:1057-1089 | every rule, of each kind, matches exactly the addresses of one interval of one version, for its own family text |
| BlockList.SubnetSize | src/Node/Net/Types.rs:1062-1076 | a subnet rule matches exactly two to the power of the free bits of addresses, all within the width |
| BlockList.InsertionMaskIsHarmless | src/Node/Net/BlockList.rs:59-66 | masking the network when it is stored changes no verdict |
| BlockList.SubnetsAreLaminar | src/Node/Net/Types.rs:1062-1076 | two subnets of one version are nested iff the shorter prefix of both networks agrees and disjoint iff it does not |
| BlockList.CompilingToRangesKeepsVerdicts | src/Node/Net/Types.rs:1057-1089 | rewriting every rule as its range leaves every verdict unchanged |
| BlockList.OnlyTheSetOfRulesMatters | src/Node/Net/Types.rs:1057-1058 | permuting the rules or repeating them leaves every verdict unchanged |
| BlockList.BlockListState.PushAddress | src/Node/Net/BlockList.rs:23-32 | pushes the rule of an accepted add and nothing otherwise |
| BlockList.BlockListState.PushRange | src/Node/Net/BlockList.rs:34-52 | pushes the rule when both ends are accepted and nothing otherwise |
| BlockList.BlockListState.PushSubnet | src/Node/Net/BlockList.rs:54-70 | pushes the masked rule with the prefix clamped below by zero and cut to 32 bits, and nothing for a value not accepted |
| BlockList.BlockListState.Check | src/Node/Net/BlockList.rs:72-85 | answers the verdict that the lemmas below characterise and changes nothing |
| BlockList.VerdictIsUnion | src/Node/Net/BlockList.rs:13-85 | after any adds the verdict is membership in the union of the intervals of the accepted adds whose family text is the one compared |
| BlockList.SubnetCoversItsPrefix | src/Node/Net/BlockList.rs:54-70 | a subnet added with a prefix within the width covers exactly the addresses that share that many leading bits, in numbers of 32 and 128; a negative prefix covers every address of the version, one beyond the width the network's own address only |
| BlockList.WidePrefixesAreCut | src/Node/Net/BlockList.rs:60-60 | of a prefix of 33 bits or more only the low 32 count |
| BlockList.Ipv6IsNeverBlocked | src/Node/Net/BlockList.rs:72-85 | after any adds no check of an IPv6 value answers yes, under any family text, and no check under "ipv6" does, of any value |
| BlockList.LowercaseAddIsIgnored | src/Node/Net/BlockList.rs:23-32 | after an address was added with the wrapper's text "ipv4" no check answers yes, of any value and under any text, though under every text but "ipv6" a check of that address should |
| BlockList.SpellingDecides | src/Node/Net/BlockList.rs:13-85 | a list answers every check as intended iff whatever an add not spelled "IPv4" covers is covered by one spelled so; spelling all accepted adds so is enough |
| BlockList.OneAddNeedsTheSpelling | src/Node/Net/BlockList.rs:13-85 | one accepted add that covers anything is answered as intended iff it is spelled "IPv4" |
| RuleText.RuleTextIsDecodable | src/Node/Net/Types.rs:1091-1101 | given a readable address text without separators, every rule with any prefix and any family text is recovered from its text, by one of the three labels and no other |
| RuleText.DecimalReadsBack | src/Node/Net/Types.rs:1094-1096 | the decimal prefix is recovered and holds no separator |
| RuleText.RulesAreListedFaithfully | src/Node/Net/BlockList.rs:87-98 | the list of texts determines the rule vector, in order |

## Left out

- DNS, bind, connect, accept, setsockopt and raw socket addresses: foreign calls, present only as free choices of their outcome.
- TLS sessions: only that set-up can fail, that reads can ask for a retry, and that bytes arrive in order; `socket_write` through a session is not modelled.
- The record fields that no lock region of the lifecycle reads: addresses, `bytes_written`, `max_connections`, ports, the TLS writer and the extension.
- The descriptor field `fd`: the machine has no descriptors; `Objects` keeps whether one is attached and which halves were shut, `Handshake` (whose ends are connected) which halves.
- The width of counters: `bytes_read`, `connections` and ACTIVE_HANDLES are unbounded numbers here, 64-bit in the source.
- Flow control: in `Handshake` the kernel buffers without limit, so a write never waits for the peer to read.
- Synchronous delivery (`queue` is `None`): the pump recurses without bound there.
- Running of callbacks: a job is a tag; what user code does when it runs is any sequence of caller steps.
- Interleaving inside `Objects`: its methods run without interruption; interleavings are the subject of the machine, over values.
- The accept loop on objects: `Objects.Server` has its lock regions; the loop itself is a thread of the machine.
- IP text parsing and printing: parameters, with the one assumption stated in `RuleText.ReadsBack`.
- Option records, port casts, keep-alive and no-delay setters, address getters, `SocketAddress`, `ref` and `unref`, and the thin server wrappers: no hard property.
