/**
 * What each operation does when its threads run undisturbed, from the call on: the effect on the
 * records, the queue and the handle count, in the terms of the objects of Objects.dfy.
 */
module Calls {
  import opened Base
  import opened Records
  import opened Machine
  import opened Uninterrupted
  import Objects

  /** `st` with one more thread, that of a call of `op`, at `pc`. */
  function WithCall(st: State, op: Op, pc: Pc): State {
    st.(threads := st.threads + [Thread(pc, Caller(op))])
  }

  /** `st` after a call of `op` that has returned, having enqueued `jobs` and released so many handles. */
  function Returned(st: State, op: Op, jobs: seq<Job>, released: int): State {
    WithCall(st, op, Done).(log := st.log + Entries(jobs, |st.threads|), active := st.active - released)
  }

  /** The call of `op`, and `k` steps of its thread. */
  function Called(st: State, op: Op, k: nat): State {
    Steps(Next(st, Invoke(op)), |st.threads|, k)
  }

  lemma CallBegins(st: State, op: Op)
    requires CanInvoke(st, op)
    ensures Next(st, Invoke(op)) == WithCall(st, op, EntryPoint(op))
  {
  }

  lemma EffectOfCall(st: State, op: Op, at: Pc, jobs: seq<Job>, released: int)
    ensures Effect(WithCall(st, op, at), |st.threads|, Done, jobs, released) == Returned(st, op, jobs, released)
  {
    assert Moved(WithCall(st, op, at), |st.threads|, Done).threads == WithCall(st, op, Done).threads;
  }

  // ------------------------------------------- closing servers and sockets

  /** `server.close` closes an open server with one `close` and one handle released, and does
      nothing to one that is closed. */
  lemma CloseServerCloses(st: State, v: nat)
    requires CanInvoke(st, CloseServer(v))
    ensures var x := st.servers[v];
            Called(st, CloseServer(v), 3)
            == Returned(st.(servers := st.servers[v := x.Finished()]), CloseServer(v),
                        if x.closeEmitted then [] else [ServerClose(v)], if x.closeEmitted then 0 else 1)
  {
    var x := st.servers[v];
    CallBegins(st, CloseServer(v));
    ServerCloseIsUninterrupted(WithCall(st, CloseServer(v), EntryPoint(CloseServer(v))), |st.threads|, v);
    EffectOfCall(st.(servers := st.servers[v := x.Finished()]), CloseServer(v), EntryPoint(CloseServer(v)),
                 if x.closeEmitted then [] else [ServerClose(v)], if x.closeEmitted then 0 else 1);
  }

  /** `destroySoon` has the effect of `Objects.Socket.Finish`. */
  lemma DestroySoonFinishes(st: State, s: nat)
    requires CanInvoke(st, DestroySoon(s))
    ensures var x := st.sockets[s];
            Called(st, DestroySoon(s), 3)
            == Returned(st.(sockets := st.sockets[s := x.Finished()]), DestroySoon(s),
                        Objects.CloseJobs(s, x), Objects.HandlesOf(x))
  {
    var x := st.sockets[s];
    CallBegins(st, DestroySoon(s));
    FinishIsUninterrupted(WithCall(st, DestroySoon(s), EntryPoint(DestroySoon(s))), |st.threads|, s);
    EffectOfCall(st.(sockets := st.sockets[s := x.Finished()]), DestroySoon(s), EntryPoint(DestroySoon(s)),
                 Objects.CloseJobs(s, x), Objects.HandlesOf(x));
  }

  /** `destroy` has the effect of `Objects.Socket.Destroy`. */
  lemma DestroyDestroys(st: State, s: nat, withError: bool)
    requires CanInvoke(st, Destroy(s, withError))
    ensures var x := if withError then st.sockets[s].Failed() else st.sockets[s];
            Called(st, Destroy(s, withError), if withError then 6 else 4)
            == Returned(st.(sockets := st.sockets[s := x.Finished()]), Destroy(s, withError),
                        (if withError then [Error(s)] else []) + Objects.CloseJobs(s, x), Objects.HandlesOf(x))
  {
    var op := Destroy(s, withError);
    var x := if withError then st.sockets[s].Failed() else st.sockets[s];
    CallBegins(st, op);
    DestroyIsUninterrupted(WithCall(st, op, EntryPoint(op)), |st.threads|, s, withError);
    EffectOfCall(st.(sockets := st.sockets[s := x.Finished()]), op, EntryPoint(op),
                 (if withError then [Error(s)] else []) + Objects.CloseJobs(s, x), Objects.HandlesOf(x));
  }

  /** `connectIpc` has the effect of `Objects.Socket.ConnectIpc`. */
  lemma ConnectIpcFails(st: State, s: nat)
    requires CanInvoke(st, ConnectIpc(s))
    ensures var x := st.sockets[s];
            Called(st, ConnectIpc(s), 4)
            == Returned(st.(sockets := st.sockets[s := x.Finished()]), ConnectIpc(s),
                        [Error(s)] + Objects.CloseJobs(s, x), Objects.HandlesOf(x))
  {
    var op, t, x := ConnectIpc(s), |st.threads|, st.sockets[s];
    var called := WithCall(st, op, EntryPoint(op));
    var mid := Effect(called, t, Claim(s), [Error(s)], 0);
    var finished := called.(sockets := st.sockets[s := x.Finished()]);
    CallBegins(st, op);
    EnqueueStep(called, t, Claim(s), Error(s));
    OneStepFirst(called, t, 3);
    FinishIsUninterrupted(mid, t, s);
    EffectsAddUp(finished, t, Claim(s), Done, Error(s), Objects.CloseJobs(s, x), Objects.HandlesOf(x));
    EffectOfCall(st.(sockets := st.sockets[s := x.Finished()]), op, EntryPoint(op),
                 [Error(s)] + Objects.CloseJobs(s, x), Objects.HandlesOf(x));
  }

  // ------------------------------------------------------------------ timers

  /** `setTimeout` stores the period, and a positive one rings when its timer wakes on a socket that
      is not destroyed. */
  lemma SetTimeoutTimes(st: State, s: nat, ms: int)
    requires CanInvoke(st, SetTimeout(s, ms))
    ensures Called(st, SetTimeout(s, ms), 3)
            == Returned(st.(sockets := st.sockets[s := st.sockets[s].Timed(ms)]), SetTimeout(s, ms),
                        if ms > 0 && !st.sockets[s].destroyed then [Timeout(s)] else [], 0)
  {
    CallBegins(st, SetTimeout(s, ms));
    if ms <= 0 {
      TimerIsOff(st, s, ms);
    } else {
      TimerRuns(st, s, ms);
    }
  }

  lemma TimerIsOff(st: State, s: nat, ms: int)
    requires CanInvoke(st, SetTimeout(s, ms)) && ms <= 0
    ensures Steps(WithCall(st, SetTimeout(s, ms), EntryPoint(SetTimeout(s, ms))), |st.threads|, 3)
            == Returned(st.(sockets := st.sockets[s := st.sockets[s].Timed(ms)]), SetTimeout(s, ms), [], 0)
  {
    var op, t, x := SetTimeout(s, ms), |st.threads|, st.sockets[s].Timed(ms);
    var called, stored := WithCall(st, op, EntryPoint(op)), st.(sockets := st.sockets[s := x]);
    SocketStep(called, t, Done, s, x);
    OneStepFirst(called, t, 2);
    EffectOfCall(stored, op, EntryPoint(op), [], 0);
    DoneStays(Next(called, Advance(t, Ok)), t, 2);
  }

  lemma TimerRuns(st: State, s: nat, ms: int)
    requires CanInvoke(st, SetTimeout(s, ms)) && ms > 0
    ensures Steps(WithCall(st, SetTimeout(s, ms), EntryPoint(SetTimeout(s, ms))), |st.threads|, 3)
            == Returned(st.(sockets := st.sockets[s := st.sockets[s].Timed(ms)]), SetTimeout(s, ms),
                        if !st.sockets[s].destroyed then [Timeout(s)] else [], 0)
  {
    var op, t, x := SetTimeout(s, ms), |st.threads|, st.sockets[s].Timed(ms);
    var called, stored := WithCall(st, op, EntryPoint(op)), st.(sockets := st.sockets[s := x]);
    var waiting := WithCall(stored, op, Wake(s, ms));
    assert Next(called, Advance(t, Ok)) == waiting by {
      Takes(called, t, Ok, Wake(s, ms), SetSocket(s, x), waiting);
    }
    OneStepFirst(called, t, 2);
    WokenTimer(stored, op, s, ms);
  }

  lemma WokenTimer(st: State, op: Op, s: nat, ms: int)
    requires s < |st.sockets| && st.sockets[s].timeoutMs == Some(ms)
    ensures Steps(WithCall(st, op, Wake(s, ms)), |st.threads|, 2)
            == Returned(st, op, if !st.sockets[s].destroyed then [Timeout(s)] else [], 0)
  {
    var t, waiting := |st.threads|, WithCall(st, op, Wake(s, ms));
    OneStepFirst(waiting, t, 1);
    if st.sockets[s].destroyed {
      SkipStep(waiting, t, Done);
      EffectOfCall(st, op, Wake(s, ms), [], 0);
      DoneStays(Returned(st, op, [], 0), t, 1);
    } else {
      Takes(waiting, t, Ok, Ring(s), Skip, WithCall(st, op, Ring(s)));
      TimerRings(st, op, s);
    }
  }

  lemma TimerRings(st: State, op: Op, s: nat)
    requires s < |st.sockets|
    ensures Steps(WithCall(st, op, Ring(s)), |st.threads|, 1) == Returned(st, op, [Timeout(s)], 0)
  {
    EnqueueStep(WithCall(st, op, Ring(s)), |st.threads|, Done, Timeout(s));
    EffectOfCall(st, op, Ring(s), [Timeout(s)], 0);
    OneStepFirst(WithCall(st, op, Ring(s)), |st.threads|, 0);
  }

  // --------------------------------------------------------------- creators

  /** `ensure_pump`: the first to come starts the pump. */
  function PumpUp(st: State, t: nat, pc: Pc): State
    requires t < |st.threads|
  {
    Effect(st, t, pc, if st.pumpStarted then [] else [Job.Pump], 0).(pumpStarted := true)
  }

  lemma EnsurePump(st: State, t: nat, next: Then)
    requires At(st, t, StartPump(next)) && Runnable(st, t)
    ensures Steps(st, t, if st.pumpStarted then 1 else 2) == PumpUp(st, t, Resume(next))
  {
    if st.pumpStarted {
      SkipStep(st, t, Resume(next));
      OneStepFirst(st, t, 0);
    } else {
      var mid := Moved(st, t, QueuePump(next)).(pumpStarted := true);
      Takes(st, t, Ok, QueuePump(next), ClaimPump, mid);
      EnqueueStep(mid, t, Resume(next), Job.Pump);
      OneStepFirst(st, t, 1);
      OneStepFirst(mid, t, 0);
      assert mid.threads[t := mid.threads[t].(pc := Resume(next))] == st.threads[t := st.threads[t].(pc := Resume(next))];
    }
  }

  /** `st` with one more socket and its handle, its pump seen to. */
  function WithSocket(st: State, x: SocketState): State {
    st.(sockets := st.sockets + [x], active := st.active + 1, pumpStarted := true)
  }

  function FirstPump(st: State): seq<Job> {
    if st.pumpStarted then [] else [Job.Pump]
  }

  lemma SocketIsOpened(st: State, op: Op, allow: bool, connects: bool)
    requires EntryPoint(op) == OpenSocket(allow, connects)
    ensures var next := if connects then ThenConnect(|st.sockets|) else ReturnSocket(|st.sockets|);
            Next(WithCall(st, op, EntryPoint(op)), Advance(|st.threads|, Ok))
            == WithCall(WithSocket(st, NewSocketState(allow)).(pumpStarted := st.pumpStarted), op, StartPump(next))
  {
    var t, next := |st.threads|, if connects then ThenConnect(|st.sockets|) else ReturnSocket(|st.sockets|);
    Takes(WithCall(st, op, EntryPoint(op)), t, Ok, StartPump(next), AddSocket(NewSocketState(allow)),
          WithCall(WithSocket(st, NewSocketState(allow)).(pumpStarted := st.pumpStarted), op, StartPump(next)));
  }

  /** A new socket with the option it was asked for, one more handle, and the pump started if it was
      not: the effect of the constructor of `Objects.Socket`. */
  lemma NewSocketMakes(st: State, allow: bool)
    ensures Called(st, NewSocket(allow), if st.pumpStarted then 2 else 3)
            == Returned(WithSocket(st, NewSocketState(allow)), NewSocket(allow), FirstPump(st), 0)
  {
    var op, t, next := NewSocket(allow), |st.threads|, ReturnSocket(|st.sockets|);
    var made := WithSocket(st, NewSocketState(allow)).(pumpStarted := st.pumpStarted);
    CallBegins(st, op);
    SocketIsOpened(st, op, allow, false);
    OneStepFirst(WithCall(st, op, EntryPoint(op)), t, if st.pumpStarted then 1 else 2);
    EnsurePump(WithCall(made, op, StartPump(next)), t, next);
    EffectOfCall(made, op, StartPump(next), FirstPump(st), 0);
  }

  /** The same for a server. */
  lemma NewServerMakes(st: State, allow: bool)
    ensures Called(st, NewServer(allow), if st.pumpStarted then 2 else 3)
            == Returned(st.(servers := st.servers + [NewServerState(allow)], active := st.active + 1, pumpStarted := true),
                        NewServer(allow), FirstPump(st), 0)
  {
    var op, t, next := NewServer(allow), |st.threads|, ReturnServer(|st.servers|);
    var made := st.(servers := st.servers + [NewServerState(allow)], active := st.active + 1);
    CallBegins(st, op);
    Takes(WithCall(st, op, EntryPoint(op)), t, Ok, StartPump(next), AddServer(NewServerState(allow)),
          WithCall(made, op, StartPump(next)));
    OneStepFirst(WithCall(st, op, EntryPoint(op)), t, if st.pumpStarted then 1 else 2);
    EnsurePump(WithCall(made, op, StartPump(next)), t, next);
    EffectOfCall(made, op, StartPump(next), FirstPump(st), 0);
  }

  // ----------------------------------------------------------------- connect

  /** `st` with the connect thread of `s` started. */
  function WithConnector(st: State, s: nat): State {
    st.(threads := st.threads + [Thread(Resolve(s), Connector(s))])
  }

  lemma BeginsToConnect(st: State, t: nat, s: nat)
    requires At(st, t, BeginConnect(s)) && s < |st.sockets|
    ensures Steps(st, t, 2)
            == WithConnector(Moved(st, t, Done).(sockets := st.sockets[s := st.sockets[s].Connecting()]), s)
  {
    var begun := st.(sockets := st.sockets[s := st.sockets[s].Connecting()]);
    var mid := Moved(begun, t, SpawnConnector(s));
    Takes(st, t, Ok, SpawnConnector(s), SetSocket(s, st.sockets[s].Connecting()), mid);
    Takes(mid, t, Ok, Done, Spawn(Thread(Resolve(s), Connector(s))), WithConnector(Moved(mid, t, Done), s));
    OneStepFirst(st, t, 1);
    OneStepFirst(mid, t, 0);
    assert Moved(mid, t, Done) == Moved(begun, t, Done);
  }

  /** `connect` marks the socket as connecting and starts its connect thread. */
  lemma ConnectStarts(st: State, s: nat)
    requires CanInvoke(st, Connect(s))
    ensures Called(st, Connect(s), 2)
            == WithConnector(Returned(st.(sockets := st.sockets[s := st.sockets[s].Connecting()]), Connect(s), [], 0), s)
  {
    var op, t := Connect(s), |st.threads|;
    var begun := st.(sockets := st.sockets[s := st.sockets[s].Connecting()]);
    CallBegins(st, op);
    BeginsToConnect(WithCall(st, op, EntryPoint(op)), t, s);
    EffectOfCall(begun, op, EntryPoint(op), [], 0);
  }

  /** `createConnection` makes a socket with the option it was asked for and connects it. */
  lemma CreateConnectionStarts(st: State, allow: bool)
    ensures Called(st, CreateConnection(allow), if st.pumpStarted then 4 else 5)
            == WithConnector(Returned(WithSocket(st, NewSocketState(allow).Connecting()), CreateConnection(allow),
                                      FirstPump(st), 0), |st.sockets|)
  {
    var op, t, s := CreateConnection(allow), |st.threads|, |st.sockets|;
    var first := WithCall(st, op, EntryPoint(op));
    var made := WithSocket(st, NewSocketState(allow)).(pumpStarted := st.pumpStarted);
    var creator := WithCall(made, op, StartPump(ThenConnect(s)));
    CallBegins(st, op);
    SocketIsOpened(st, op, allow, true);
    EnsurePump(creator, t, ThenConnect(s));
    CreatedBegins(st, allow);
    if st.pumpStarted {
      OneStepFirst(first, t, 3);
      OneStepFirst(creator, t, 2);
      OneStepFirst(creator, t, 0);
    } else {
      OneStepFirst(first, t, 4);
      TwoStepsFirst(creator, t, 2);
    }
  }

  lemma CreatedBegins(st: State, allow: bool)
    ensures var op, t, s := CreateConnection(allow), |st.threads|, |st.sockets|;
            var made := WithSocket(st, NewSocketState(allow)).(pumpStarted := st.pumpStarted);
            Steps(PumpUp(WithCall(made, op, StartPump(ThenConnect(s))), t, BeginConnect(s)), t, 2)
            == WithConnector(Returned(WithSocket(st, NewSocketState(allow).Connecting()), op, FirstPump(st), 0), s)
  {
    var op, t, s := CreateConnection(allow), |st.threads|, |st.sockets|;
    var made := WithSocket(st, NewSocketState(allow)).(pumpStarted := st.pumpStarted);
    var up := PumpUp(WithCall(made, op, StartPump(ThenConnect(s))), t, BeginConnect(s));
    BeginsToConnect(up, t, s);
    assert up.sockets[s := NewSocketState(allow).Connecting()] == st.sockets + [NewSocketState(allow).Connecting()];
    assert Moved(up, t, Done).threads == WithCall(st, op, Done).threads;
  }

  // ------------------------------------------------------------------ listen

  /** `listen` on an address that can be bound: the server listens, `listening` is enqueued, and the
      thread goes on as the accept loop with the server's option. */
  lemma ListenListens(st: State, v: nat)
    requires CanInvoke(st, Listen(v))
    ensures var x := st.servers[v];
            Called(st, Listen(v), 2)
            == WithCall(st.(servers := st.servers[v := x.Listening()],
                            log := st.log + [Entry(Job.Listening(v), By(|st.threads|))]),
                        Listen(v), Check(v, x.allowHalfOpen))
  {
    var op, t, x := Listen(v), |st.threads|, st.servers[v];
    var called, bound := WithCall(st, op, EntryPoint(op)), st.(servers := st.servers[v := x.Listening()]);
    var mid := WithCall(bound, op, QueueListening(v, x.allowHalfOpen));
    CallBegins(st, op);
    Takes(called, t, Ok, QueueListening(v, x.allowHalfOpen), SetServer(v, x.Listening()), mid);
    ListeningIsQueued(bound, op, v, x.allowHalfOpen);
    OneStepFirst(called, t, 1);
    OneStepFirst(mid, t, 0);
  }

  lemma ListeningIsQueued(st: State, op: Op, v: nat, allow: bool)
    requires v < |st.servers|
    ensures Next(WithCall(st, op, QueueListening(v, allow)), Advance(|st.threads|, Ok))
            == WithCall(st.(log := st.log + [Entry(Job.Listening(v), By(|st.threads|))]), op, Check(v, allow))
  {
    Takes(WithCall(st, op, QueueListening(v, allow)), |st.threads|, Ok, Check(v, allow), Enqueue(Job.Listening(v)),
          WithCall(st.(log := st.log + [Entry(Job.Listening(v), By(|st.threads|))]), op, Check(v, allow)));
  }

  /** `listen` on one that cannot: the server's error is all there is. */
  lemma ListenFails(st: State, v: nat)
    requires CanInvoke(st, Listen(v))
    ensures Next(Next(st, Invoke(Listen(v))), Advance(|st.threads|, Fail))
            == Returned(st, Listen(v), [ServerError(v)], 0)
  {
    CallBegins(st, Listen(v));
    assert Entries([ServerError(v)], |st.threads|) == [Entry(ServerError(v), By(|st.threads|))];
    Takes(WithCall(st, Listen(v), EntryPoint(Listen(v))), |st.threads|, Fail, Done, Enqueue(ServerError(v)),
          Returned(st, Listen(v), [ServerError(v)], 0));
  }
}
