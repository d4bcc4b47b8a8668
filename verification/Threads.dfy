/**
 * What the threads in the background do when they run undisturbed: connecting, reading and
 * accepting, for every answer of the outside world.
 */
module Threads {
  import opened Records
  import opened Machine
  import opened Uninterrupted
  import opened Calls
  import Objects

  // ------------------------------------------------------ the connect thread

  /** Lookup and dial succeed: the socket is published, and the thread reads. */
  lemma ConnectSucceeds(st: State, t: nat, s: nat)
    requires At(st, t, Resolve(s)) && s < |st.sockets|
    ensures Steps(st, t, 4)
            == Effect(st.(sockets := st.sockets[s := st.sockets[s].Published()]), t, Read(s),
                      [Lookup(s, true), ConnectReady(s)], 0)
  {
    var dialling := Effect(st, t, Dial(s), [Lookup(s, true)], 0);
    EnqueueStep(st, t, Dial(s), Lookup(s, true));
    OneStepFirst(st, t, 3);
    DialSucceeds(dialling, t, s);
    var x := st.sockets[s].Published();
    assert dialling.sockets[s].Published() == x;
    EffectsAddUp(st.(sockets := st.sockets[s := x]), t, Dial(s), Read(s), Lookup(s, true), [ConnectReady(s)], 0);
  }

  lemma DialSucceeds(st: State, t: nat, s: nat)
    requires At(st, t, Dial(s)) && s < |st.sockets|
    ensures Steps(st, t, 3)
            == Effect(st.(sockets := st.sockets[s := st.sockets[s].Published()]), t, Read(s), [ConnectReady(s)], 0)
  {
    var dialled := Effect(st, t, Publish(s), [], 0);
    SkipStep(st, t, Publish(s));
    OneStepFirst(st, t, 2);
    PublishesAndAnnounces(dialled, t, s);
    var x := st.sockets[s].Published();
    assert dialled.sockets == st.sockets;
    EffectsAddUp(st.(sockets := st.sockets[s := x]), t, Publish(s), Read(s), Pump, [ConnectReady(s)], 0);
  }

  lemma PublishesAndAnnounces(st: State, t: nat, s: nat)
    requires At(st, t, Publish(s)) && s < |st.sockets|
    ensures Steps(st, t, 2)
            == Effect(st.(sockets := st.sockets[s := st.sockets[s].Published()]), t, Read(s), [ConnectReady(s)], 0)
  {
    var published := st.(sockets := st.sockets[s := st.sockets[s].Published()]);
    var mid := Effect(published, t, Announce(s), [], 0);
    SocketStep(st, t, Announce(s), s, st.sockets[s].Published());
    EnqueueStep(mid, t, Read(s), ConnectReady(s));
    EffectsAddUp(published, t, Announce(s), Read(s), Pump, [ConnectReady(s)], 0);
    OneStepFirst(st, t, 1);
    OneStepFirst(mid, t, 0);
  }

  /** What a refused connect ends with: `lookup` as it went, `error`, and the finish. */
  function RefusedEffect(st: State, t: nat, s: nat, found: bool): State
    requires s < |st.sockets| && t < |st.threads|
  {
    var x := st.sockets[s].Failed();
    Effect(st.(sockets := st.sockets[s := x.Finished()]), t, Done,
           [Lookup(s, found)] + ([Error(s)] + Objects.CloseJobs(s, x)), Objects.HandlesOf(x))
  }

  lemma DestroyedAfterLookup(st: State, t: nat, s: nat, found: bool)
    requires t < |st.threads| && s < |st.sockets|
    ensures Steps(Effect(st, t, SetError(s), [Lookup(s, found)], 0), t, 6) == RefusedEffect(st, t, s, found)
  {
    var failing := Effect(st, t, SetError(s), [Lookup(s, found)], 0);
    var x := st.sockets[s].Failed();
    DestroyIsUninterrupted(failing, t, s, true);
    EffectsAddUp(st.(sockets := st.sockets[s := x.Finished()]), t, SetError(s), Done, Lookup(s, found),
                 [Error(s)] + Objects.CloseJobs(s, x), Objects.HandlesOf(x));
  }

  /** The lookup fails. */
  lemma LookupFails(st: State, t: nat, s: nat)
    requires At(st, t, Resolve(s)) && s < |st.sockets|
    ensures Steps(Next(st, Advance(t, Fail)), t, 6) == RefusedEffect(st, t, s, false)
  {
    assert Entries([Lookup(s, false)], t) == [Entry(Lookup(s, false), By(t))];
    Takes(st, t, Fail, SetError(s), Enqueue(Lookup(s, false)), Effect(st, t, SetError(s), [Lookup(s, false)], 0));
    DestroyedAfterLookup(st, t, s, false);
  }

  /** The lookup succeeds and the dial fails. */
  lemma DialFails(st: State, t: nat, s: nat)
    requires At(st, t, Resolve(s)) && s < |st.sockets|
    ensures Steps(Next(Next(st, Advance(t, Ok)), Advance(t, Fail)), t, 6) == RefusedEffect(st, t, s, true)
  {
    var dialling := Effect(st, t, Dial(s), [Lookup(s, true)], 0);
    EnqueueStep(st, t, Dial(s), Lookup(s, true));
    var failing := Effect(dialling, t, SetError(s), [], 0);
    Takes(dialling, t, Fail, SetError(s), Skip, failing);
    EffectsAddUp(st, t, Dial(s), SetError(s), Lookup(s, true), [], 0);
    assert failing == Effect(st, t, SetError(s), [Lookup(s, true)], 0);
    DestroyedAfterLookup(st, t, s, true);
  }

  // ----------------------------------------------------------- the read loop

  /** The thread's steps for one result of `read`. */
  function Reads(st: State, t: nat, r: Objects.ReadResult): State {
    match r
    case Chunk(bytes) => Steps(Next(st, Advance(t, Bytes(|bytes|))), t, 1)
    case WouldBlock => Next(st, Advance(t, Retry))
    case EndOfStream => Steps(Next(st, Advance(t, Eof)), t, 5)
    case HardError => Steps(Next(st, Advance(t, Fail)), t, 4)
  }

  /** And for many, up to the one that ends the loop. */
  function ReadsAll(st: State, t: nat, results: seq<Objects.ReadResult>): State
    decreases |results|
  {
    if results == [] then st
    else if results[0] == Objects.EndOfStream || results[0] == Objects.HardError then Reads(st, t, results[0])
    else ReadsAll(Reads(st, t, results[0]), t, results[1..])
  }

  lemma ChunkIsRead(st: State, t: nat, s: nat, n: nat)
    requires At(st, t, Read(s)) && s < |st.sockets| && 0 < n <= 65536
    ensures Steps(Next(st, Advance(t, Bytes(n))), t, 1)
            == Effect(st.(sockets := st.sockets[s := st.sockets[s].Received(n)]), t, Read(s), [Data(s, n)], 0)
  {
    var received := st.(sockets := st.sockets[s := st.sockets[s].Received(n)]);
    var mid := Effect(received, t, Push(s, n), [], 0);
    Takes(st, t, Bytes(n), Push(s, n), SetSocket(s, st.sockets[s].Received(n)), mid);
    EnqueueStep(mid, t, Read(s), Data(s, n));
    OneStepFirst(mid, t, 0);
    EffectsAddUp(received, t, Push(s, n), Read(s), Pump, [Data(s, n)], 0);
  }

  lemma RetryStays(st: State, t: nat, s: nat)
    requires At(st, t, Read(s)) && s < |st.sockets|
    ensures Next(st, Advance(t, Retry)) == st
  {
    Takes(st, t, Retry, Read(s), Skip, st);
  }

  /** The end of the readable side and the finish: `Objects.Socket.LeaveLoop`. */
  function EndEffect(st: State, t: nat, s: nat): State
    requires s < |st.sockets| && t < |st.threads|
  {
    var x := st.sockets[s];
    Effect(st.(sockets := st.sockets[s := x.Finished()]), t, Done,
           [End(s)] + Objects.CloseJobs(s, x), Objects.HandlesOf(x))
  }

  lemma EndIsQueued(st: State, t: nat, s: nat)
    requires At(st, t, QueueEnd(s)) && s < |st.sockets|
    ensures Steps(st, t, 4) == EndEffect(st, t, s)
  {
    var x := st.sockets[s];
    var claiming := Effect(st, t, Claim(s), [End(s)], 0);
    EnqueueStep(st, t, Claim(s), End(s));
    OneStepFirst(st, t, 3);
    FinishIsUninterrupted(claiming, t, s);
    EffectsAddUp(st.(sockets := st.sockets[s := x.Finished()]), t, Claim(s), Done, End(s),
                 Objects.CloseJobs(s, x), Objects.HandlesOf(x));
  }

  lemma ErrorEnds(st: State, t: nat, s: nat)
    requires At(st, t, Read(s)) && s < |st.sockets|
    ensures Steps(Next(st, Advance(t, Fail)), t, 4) == EndEffect(st, t, s)
  {
    var ending := Effect(st, t, QueueEnd(s), [], 0);
    Takes(st, t, Fail, QueueEnd(s), Skip, ending);
    EndIsQueued(ending, t, s);
    EndEffectLater(st, t, QueueEnd(s), s);
  }

  lemma EndEffectLater(st: State, t: nat, pc: Pc, s: nat)
    requires t < |st.threads| && s < |st.sockets|
    ensures EndEffect(Effect(st, t, pc, [], 0), t, s) == EndEffect(st, t, s)
  {
    var x := st.sockets[s];
    EffectsAddUp(st.(sockets := st.sockets[s := x.Finished()]), t, pc, Done, Pump,
                 [End(s)] + Objects.CloseJobs(s, x), Objects.HandlesOf(x));
  }

  lemma EofEnds(st: State, t: nat, s: nat)
    requires At(st, t, Read(s)) && s < |st.sockets|
    ensures Steps(Next(st, Advance(t, Eof)), t, 5) == EndEffect(st, t, s)
  {
    var halfClosing, ending := Effect(st, t, HalfClose(s), [], 0), Effect(st, t, QueueEnd(s), [], 0);
    Takes(st, t, Eof, HalfClose(s), Skip, halfClosing);
    SkipStep(halfClosing, t, QueueEnd(s));
    EffectsAddUp(st, t, HalfClose(s), QueueEnd(s), Pump, [], 0);
    OneStepFirst(halfClosing, t, 4);
    EndIsQueued(ending, t, s);
    EndEffectLater(st, t, QueueEnd(s), s);
  }

  /** What the read loop makes of `results`: the effect of `Objects.Socket.ReadLoop`. */
  function ReadEffect(st: State, t: nat, s: nat, results: seq<Objects.ReadResult>): State
    requires s < |st.sockets| && t < |st.threads|
  {
    var x := st.sockets[s].Received(|Objects.Consumed(results)|);
    var data := Objects.DataJobs(s, Objects.Chunks(results));
    if Objects.Stopper(results).Some? then
      Effect(st.(sockets := st.sockets[s := x.Finished()]), t, Done,
             data + ([End(s)] + Objects.CloseJobs(s, x)), Objects.HandlesOf(x))
    else
      Effect(st.(sockets := st.sockets[s := x]), t, Read(s), data, 0)
  }

  lemma {:induction false} DataJobsFromTheFront(s: nat, chunk: seq<Byte>, chunks: seq<seq<Byte>>)
    ensures Objects.DataJobs(s, [chunk] + chunks) == [Data(s, |chunk|)] + Objects.DataJobs(s, chunks)
  {
    var all := [chunk] + chunks;
    if chunks == [] {
      assert all[..|all| - 1] == [];
    } else {
      DataJobsFromTheFront(s, chunk, chunks[..|chunks| - 1]);
      assert all[..|all| - 1] == [chunk] + chunks[..|chunks| - 1];
    }
  }

  lemma StoppedAtOnce(st: State, t: nat, s: nat, results: seq<Objects.ReadResult>)
    requires At(st, t, Read(s)) && s < |st.sockets| && results != []
    requires results[0] == Objects.EndOfStream || results[0] == Objects.HardError
    ensures ReadEffect(st, t, s, results) == EndEffect(st, t, s)
  {
    assert st.sockets[s].Received(0) == st.sockets[s];
    assert [] + ([End(s)] + Objects.CloseJobs(s, st.sockets[s])) == [End(s)] + Objects.CloseJobs(s, st.sockets[s]);
  }

  lemma ChunkThenRest(st: State, t: nat, s: nat, results: seq<Objects.ReadResult>)
    requires At(st, t, Read(s)) && s < |st.sockets| && results != [] && results[0].Chunk?
    ensures var n := |results[0].bytes|;
            var read := Effect(st.(sockets := st.sockets[s := st.sockets[s].Received(n)]), t, Read(s), [Data(s, n)], 0);
            ReadEffect(read, t, s, results[1..]) == ReadEffect(st, t, s, results)
  {
    var n, rest := |results[0].bytes|, results[1..];
    var received := st.(sockets := st.sockets[s := st.sockets[s].Received(n)]);
    var x := st.sockets[s].Received(|Objects.Consumed(results)|);
    var data := Objects.DataJobs(s, Objects.Chunks(rest));
    DataJobsFromTheFront(s, results[0].bytes, Objects.Chunks(rest));
    assert received.sockets[s].Received(|Objects.Consumed(rest)|) == x;
    if Objects.Stopper(results).Some? {
      var last := [End(s)] + Objects.CloseJobs(s, x);
      assert received.sockets[s := x.Finished()] == st.sockets[s := x.Finished()];
      assert [Data(s, n)] + (data + last) == [Data(s, n)] + data + last;
      EffectsAddUp(st.(sockets := st.sockets[s := x.Finished()]), t, Read(s), Done, Data(s, n), data + last,
                   Objects.HandlesOf(x));
    } else {
      assert received.sockets[s := x] == st.sockets[s := x];
      EffectsAddUp(st.(sockets := st.sockets[s := x]), t, Read(s), Read(s), Data(s, n), data, 0);
    }
  }

  /** For any results of `read` the thread has the effect that `Objects.Socket.ReadLoop` promises:
      the same data jobs, the same count, the same end; a retry is no result at all. */
  lemma {:induction false} ReadLoopIsUninterrupted(st: State, t: nat, s: nat, results: seq<Objects.ReadResult>)
    requires At(st, t, Read(s)) && s < |st.sockets| && Objects.FitBuffer(results)
    ensures ReadsAll(st, t, results) == ReadEffect(st, t, s, results)
    decreases |results|
  {
    if results == [] {
      NothingRead(st, t, s);
    } else if results[0] == Objects.EndOfStream || results[0] == Objects.HardError {
      StoppedAtOnce(st, t, s, results);
      EofEnds(st, t, s);
      ErrorEnds(st, t, s);
    } else if results[0] == Objects.WouldBlock {
      RetryStays(st, t, s);
      ReadLoopIsUninterrupted(st, t, s, results[1..]);
    } else {
      var n := |results[0].bytes|;
      ChunkIsRead(st, t, s, n);
      ReadLoopIsUninterrupted(
        Effect(st.(sockets := st.sockets[s := st.sockets[s].Received(n)]), t, Read(s), [Data(s, n)], 0), t, s, results[1..]);
      ChunkThenRest(st, t, s, results);
    }
  }

  lemma NothingRead(st: State, t: nat, s: nat)
    requires At(st, t, Read(s)) && s < |st.sockets|
    ensures ReadEffect(st, t, s, []) == st
  {
    assert st.sockets[s].Received(0) == st.sockets[s];
    assert st.sockets[s := st.sockets[s]] == st.sockets;
    assert st.threads[t := st.threads[t].(pc := Read(s))] == st.threads;
    assert st.log + [] == st.log;
  }

  // --------------------------------------------------------- the accept loop

  /** `st` with an accepted socket that is read and announced. */
  function AcceptedEffect(st: State, t: nat, v: nat, allow: bool): State
    requires v < |st.servers| && t < |st.threads|
  {
    var s := |st.sockets|;
    var back := Effect(WithSocket(st, NewSocketState(allow).Published()), t, Check(v, allow),
                       FirstPump(st) + [Connection(v, s)], 0);
    back.(servers := st.servers[v := st.servers[v].Counted()],
          threads := back.threads + [Thread(Read(s), AcceptedReader(s))])
  }

  /** `st` with the socket of the accept thread published and its read loop started. */
  function Published(st: State, t: nat, v: nat, s: nat, allow: bool): State
    requires t < |st.threads| && s < |st.sockets|
  {
    var moved := Moved(st, t, CountConnection(v, s, allow));
    moved.(sockets := st.sockets[s := st.sockets[s].Published()],
           threads := moved.threads + [Thread(Read(s), AcceptedReader(s))])
  }

  lemma ReaderIsStarted(st: State, t: nat, v: nat, s: nat, allow: bool)
    requires At(st, t, SpawnReader(v, s, allow)) && v < |st.servers| && s < |st.sockets|
    ensures var moved := Moved(st, t, CountConnection(v, s, allow));
            Next(st, Advance(t, Ok)) == moved.(threads := moved.threads + [Thread(Read(s), AcceptedReader(s))])
  {
    var moved := Moved(st, t, CountConnection(v, s, allow));
    Takes(st, t, Ok, CountConnection(v, s, allow), Spawn(Thread(Read(s), AcceptedReader(s))),
          moved.(threads := moved.threads + [Thread(Read(s), AcceptedReader(s))]));
  }

  lemma PublishedAndRead(st: State, t: nat, v: nat, s: nat, allow: bool)
    requires At(st, t, PublishAccepted(v, s, allow)) && v < |st.servers| && s < |st.sockets|
    ensures Steps(st, t, 2) == Published(st, t, v, s, allow)
  {
    var published := st.(sockets := st.sockets[s := st.sockets[s].Published()]);
    var a := Moved(published, t, SpawnReader(v, s, allow));
    Takes(st, t, Ok, SpawnReader(v, s, allow), SetSocket(s, st.sockets[s].Published()), a);
    ReaderIsStarted(a, t, v, s, allow);
    assert Moved(a, t, CountConnection(v, s, allow)) == Moved(published, t, CountConnection(v, s, allow));
    OneStepFirst(st, t, 1);
    OneStepFirst(a, t, 0);
  }

  /** What announcing a published socket leaves. */
  function Announced(st: State, t: nat, v: nat, s: nat, allow: bool): State
    requires t < |st.threads| && v < |st.servers| && s < |st.sockets|
  {
    var back := Effect(st, t, Check(v, allow), [Connection(v, s)], 0);
    back.(sockets := st.sockets[s := st.sockets[s].Published()],
          servers := st.servers[v := st.servers[v].Counted()],
          threads := back.threads + [Thread(Read(s), AcceptedReader(s))])
  }

  lemma AnnouncedIsThat(st: State, t: nat, v: nat, s: nat, allow: bool)
    requires t < |st.threads| && v < |st.servers| && s < |st.sockets|
    ensures var c := Published(st, t, v, s, allow);
            Effect(c.(servers := c.servers[v := c.servers[v].Counted()]), t, Check(v, allow), [Connection(v, s)], 0)
            == Announced(st, t, v, s, allow)
  {
    assert Moved(Published(st, t, v, s, allow), t, Check(v, allow)).threads
        == Moved(st, t, Check(v, allow)).threads + [Thread(Read(s), AcceptedReader(s))];
  }

  /** A published socket is given to its read loop, counted and announced. */
  lemma AnnouncedInTurn(st: State, t: nat, v: nat, s: nat, allow: bool)
    requires At(st, t, PublishAccepted(v, s, allow)) && v < |st.servers| && s < |st.sockets|
    ensures Steps(st, t, 4) == Announced(st, t, v, s, allow)
  {
    PublishedAndRead(st, t, v, s, allow);
    TwoStepsFirst(st, t, 2);
    CountedAndAnnounced(Published(st, t, v, s, allow), t, v, s, allow);
    AnnouncedIsThat(st, t, v, s, allow);
  }

  lemma CountedAndAnnounced(st: State, t: nat, v: nat, s: nat, allow: bool)
    requires At(st, t, CountConnection(v, s, allow)) && v < |st.servers| && s < |st.sockets|
    ensures Steps(st, t, 2)
            == Effect(st.(servers := st.servers[v := st.servers[v].Counted()]), t, Check(v, allow), [Connection(v, s)], 0)
  {
    var counted := st.(servers := st.servers[v := st.servers[v].Counted()]);
    var mid := Effect(counted, t, QueueConnection(v, s, allow), [], 0);
    ServerStep(st, t, QueueConnection(v, s, allow), v, st.servers[v].Counted());
    EnqueueStep(mid, t, Check(v, allow), Connection(v, s));
    OneStepFirst(st, t, 1);
    OneStepFirst(mid, t, 0);
    EffectsAddUp(counted, t, QueueConnection(v, s, allow), Check(v, allow), Pump, [Connection(v, s)], 0);
  }

  /** The accept thread with its new socket, before it publishes it. */
  function SocketTaken(st: State, t: nat, v: nat, allow: bool): State
    requires t < |st.threads|
  {
    var a := Moved(st, t, StartPump(ThenAccept(v, |st.sockets|, allow))).(
               sockets := st.sockets + [NewSocketState(allow)], active := st.active + 1);
    PumpUp(a, t, PublishAccepted(v, |st.sockets|, allow))
  }

  lemma AcceptMakesSocket(st: State, t: nat, v: nat, allow: bool)
    requires At(st, t, Accept(v, allow)) && v < |st.servers|
    ensures Steps(st, t, if st.pumpStarted then 2 else 3) == SocketTaken(st, t, v, allow)
  {
    var next := ThenAccept(v, |st.sockets|, allow);
    var a := Moved(st, t, StartPump(next)).(sockets := st.sockets + [NewSocketState(allow)], active := st.active + 1);
    Takes(st, t, Ok, StartPump(next), AddSocket(NewSocketState(allow)), a);
    OneStepFirst(st, t, if st.pumpStarted then 1 else 2);
    EnsurePump(a, t, next);
  }

  lemma StepsGoOn(st: State, t: nat, b: State, started: bool)
    requires Steps(st, t, if started then 2 else 3) == b
    ensures Steps(st, t, if started then 6 else 7) == Steps(b, t, 4)
  {
    if started {
      TwoStepsFirst(st, t, 4);
    } else {
      OneStepFirst(st, t, 6);
      OneStepFirst(st, t, 2);
      TwoStepsFirst(Next(st, Advance(t, Ok)), t, 4);
    }
  }

  /** A client is accepted: a published socket with the server's option, its read loop started, the
      connection counted and announced, and the thread back at its test. */
  lemma AcceptTakesAClient(st: State, t: nat, v: nat, allow: bool)
    requires At(st, t, Accept(v, allow)) && v < |st.servers|
    ensures Steps(st, t, if st.pumpStarted then 6 else 7) == AcceptedEffect(st, t, v, allow)
  {
    AcceptMakesSocket(st, t, v, allow);
    StepsGoOn(st, t, SocketTaken(st, t, v, allow), st.pumpStarted);
    AnnouncedInTurn(SocketTaken(st, t, v, allow), t, v, |st.sockets|, allow);
    AcceptedIsThat(st, t, v, allow);
  }

  lemma AcceptedIsThat(st: State, t: nat, v: nat, allow: bool)
    requires At(st, t, Accept(v, allow)) && v < |st.servers|
    ensures Announced(SocketTaken(st, t, v, allow), t, v, |st.sockets|, allow)
            == AcceptedEffect(st, t, v, allow)
  {
    var s := |st.sockets|;
    var x := NewSocketState(allow);
    assert (st.sockets + [x])[s := x.Published()] == st.sockets + [x.Published()];
    assert Entries([Job.Pump] + [Connection(v, s)], t) == Entries([Job.Pump], t) + Entries([Connection(v, s)], t);
    assert [] + [Connection(v, s)] == [Connection(v, s)];
  }

  /** What else accept can answer: nobody waiting, or a failed handshake, and the loop goes on; an
      error, and it ends. */
  lemma AcceptTakesNobody(st: State, t: nat, v: nat, allow: bool)
    requires At(st, t, Accept(v, allow)) && v < |st.servers|
    ensures Next(st, Advance(t, Retry)) == Effect(st, t, Check(v, allow), [], 0)
    ensures Next(st, Advance(t, Fail)) == Effect(st, t, Done, [], 0)
  {
    Takes(st, t, Retry, Check(v, allow), Skip, Effect(st, t, Check(v, allow), [], 0));
    Takes(st, t, Fail, Done, Skip, Effect(st, t, Done, [], 0));
  }

  /** The test before each accept. */
  lemma TestBeforeAccept(st: State, t: nat, v: nat, allow: bool)
    requires At(st, t, Check(v, allow)) && v < |st.servers|
    ensures Next(st, Advance(t, Ok))
            == Effect(st, t, if st.servers[v].listening && !st.servers[v].closed then Accept(v, allow) else Done, [], 0)
  {
    SkipStep(st, t, if st.servers[v].StopsAccepting() then Done else Accept(v, allow));
  }
}
