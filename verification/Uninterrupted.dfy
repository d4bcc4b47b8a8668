/** The object methods are the machine's threads run without interruption. */
module Uninterrupted {
  import opened Records
  import opened Machine
  import Objects

  /** `k` steps of thread `t` in a row, every system call answered with success. */
  function Steps(st: State, t: nat, k: nat): State
    decreases k
  {
    if k == 0 then st else Steps(Next(st, Advance(t, Ok)), t, k - 1)
  }

  lemma OneStepFirst(st: State, t: nat, k: nat)
    ensures Steps(st, t, k + 1) == Steps(Next(st, Advance(t, Ok)), t, k)
  {
  }

  lemma TwoStepsFirst(st: State, t: nat, k: nat)
    ensures Steps(st, t, k + 2) == Steps(Steps(st, t, 2), t, k)
  {
    var next := Next(st, Advance(t, Ok));
    OneStepFirst(st, t, k + 1);
    OneStepFirst(next, t, k);
    OneStepFirst(st, t, 1);
    OneStepFirst(next, t, 0);
  }

  function Entries(jobs: seq<Job>, t: nat): seq<Entry> {
    if jobs == [] then [] else [Entry(jobs[0], By(t))] + Entries(jobs[1..], t)
  }

  /** Thread `t` stands at `pc`. */
  predicate At(st: State, t: nat, pc: Pc) {
    t < |st.threads| && st.threads[t].pc == pc
  }

  /** What a stretch of steps of one thread did: where it stands, what it enqueued, what it released. */
  function Effect(st: State, t: nat, pc: Pc, jobs: seq<Job>, released: int): State
    requires t < |st.threads|
  {
    Moved(st, t, pc).(log := st.log + Entries(jobs, t), active := st.active - released)
  }

  lemma EffectsAddUp(st: State, t: nat, pc: Pc, pc': Pc, job: Job, jobs: seq<Job>, released: int)
    requires t < |st.threads|
    ensures Effect(Effect(st, t, pc, [job], 0), t, pc', jobs, released) == Effect(st, t, pc', [job] + jobs, released)
    ensures Effect(Effect(st, t, pc, [], 0), t, pc', jobs, released) == Effect(st, t, pc', jobs, released)
  {
    assert Entries([job] + jobs, t) == Entries([job], t) + Entries(jobs, t);
  }

  // ------------------------------------------------------------ single steps

  lemma EnqueueStep(st: State, t: nat, pc: Pc, job: Job)
    requires Runnable(st, t) && Act(st, st.threads[t].pc, Ok) == Move(pc, Enqueue(job))
    ensures Next(st, Advance(t, Ok)) == Effect(st, t, pc, [job], 0)
  {
    assert Entries([job], t) == [Entry(job, By(t))];
    Takes(st, t, Ok, pc, Enqueue(job), Effect(st, t, pc, [job], 0));
  }

  lemma SkipStep(st: State, t: nat, pc: Pc)
    requires Runnable(st, t) && Act(st, st.threads[t].pc, Ok) == Move(pc, Skip)
    ensures Next(st, Advance(t, Ok)) == Effect(st, t, pc, [], 0)
  {
    Takes(st, t, Ok, pc, Skip, Effect(st, t, pc, [], 0));
  }

  lemma ReleaseStep(st: State, t: nat)
    requires At(st, t, Release)
    ensures Next(st, Advance(t, Ok)) == Effect(st, t, Done, [], 1)
  {
    Takes(st, t, Ok, Done, CloseHandle, Effect(st, t, Done, [], 1));
  }

  lemma SocketStep(st: State, t: nat, pc: Pc, s: nat, x: SocketState)
    requires Runnable(st, t) && Act(st, st.threads[t].pc, Ok) == Move(pc, SetSocket(s, x)) && s < |st.sockets|
    ensures Next(st, Advance(t, Ok)) == Effect(st.(sockets := st.sockets[s := x]), t, pc, [], 0)
  {
    Takes(st, t, Ok, pc, SetSocket(s, x), Effect(st.(sockets := st.sockets[s := x]), t, pc, [], 0));
  }

  lemma ServerStep(st: State, t: nat, pc: Pc, v: nat, x: ServerState)
    requires Runnable(st, t) && Act(st, st.threads[t].pc, Ok) == Move(pc, SetServer(v, x)) && v < |st.servers|
    ensures Next(st, Advance(t, Ok)) == Effect(st.(servers := st.servers[v := x]), t, pc, [], 0)
  {
    Takes(st, t, Ok, pc, SetServer(v, x), Effect(st.(servers := st.servers[v := x]), t, pc, [], 0));
  }

  lemma DoneStays(st: State, t: nat, k: nat)
    requires At(st, t, Done)
    ensures Steps(st, t, k) == st
  {
  }

  /** The close job and the release behind it. */
  lemma CloseAndRelease(st: State, t: nat, job: Job)
    requires Runnable(st, t) && Act(st, st.threads[t].pc, Ok) == Move(Release, Enqueue(job))
    ensures Steps(st, t, 2) == Effect(st, t, Done, [job], 1)
  {
    EnqueueStep(st, t, Release, job);
    ReleaseStep(Effect(st, t, Release, [job], 0), t);
    assert Steps(st, t, 2) == Steps(Next(st, Advance(t, Ok)), t, 1);
    EffectsAddUp(st, t, Release, Done, job, [], 1);
  }

  // ----------------------------------------------------------- socket_finish

  /** `Objects.Socket.Finish`, said of the machine. */
  function FinishEffect(st: State, t: nat, s: nat): State
    requires s < |st.sockets| && t < |st.threads|
  {
    var x := st.sockets[s];
    Effect(st.(sockets := st.sockets[s := x.Finished()]), t, Done, Objects.CloseJobs(s, x), Objects.HandlesOf(x))
  }

  lemma FinishIsUninterrupted(st: State, t: nat, s: nat)
    requires At(st, t, Claim(s)) && s < |st.sockets|
    ensures Steps(st, t, 3) == FinishEffect(st, t, s)
  {
    var x := st.sockets[s];
    var a := Next(st, Advance(t, Ok));
    if x.closeEmitted {
      SkipStep(st, t, Done);
      DoneStays(a, t, 2);
      assert st.sockets[s := x] == st.sockets;
    } else {
      var claimed := st.(sockets := st.sockets[s := x.Finished()]);
      SocketStep(st, t, QueueClose(s, x.hadError), s, x.Finished());
      CloseAndRelease(a, t, Close(s, x.hadError));
      EffectsAddUp(claimed, t, QueueClose(s, x.hadError), Done, Pump, [Close(s, x.hadError)], 1);
    }
  }

  // ---------------------------------------------------------- socket_destroy

  /** `Objects.Socket.Destroy`, said of the machine. */
  function DestroyEffect(st: State, t: nat, s: nat, withError: bool): State
    requires s < |st.sockets| && t < |st.threads|
  {
    var x := if withError then st.sockets[s].Failed() else st.sockets[s];
    Effect(st.(sockets := st.sockets[s := x.Finished()]), t, Done,
           (if withError then [Error(s)] else []) + Objects.CloseJobs(s, x), Objects.HandlesOf(x))
  }

  /** From the shutdown of the descriptor on. */
  lemma ShutdownAndFinish(st: State, t: nat, s: nat)
    requires At(st, t, Shutdown(s)) && s < |st.sockets|
    ensures Steps(st, t, 4) == FinishEffect(st, t, s)
  {
    var mid := Effect(st, t, Claim(s), [], 0);
    SkipStep(st, t, Claim(s));
    FinishIsUninterrupted(mid, t, s);
    assert mid.sockets == st.sockets;
    var x := st.sockets[s];
    EffectsAddUp(st.(sockets := st.sockets[s := x.Finished()]), t, Claim(s), Done, Pump,
                 Objects.CloseJobs(s, x), Objects.HandlesOf(x));
  }

  /** The error flag and the error job. */
  lemma RaiseError(st: State, t: nat, s: nat)
    requires At(st, t, SetError(s)) && s < |st.sockets|
    ensures Steps(st, t, 2)
            == Effect(st.(sockets := st.sockets[s := st.sockets[s].Failed()]), t, Shutdown(s), [Error(s)], 0)
  {
    var failed := st.(sockets := st.sockets[s := st.sockets[s].Failed()]);
    var mid := Effect(failed, t, QueueError(s), [], 0);
    SocketStep(st, t, QueueError(s), s, st.sockets[s].Failed());
    EnqueueStep(mid, t, Shutdown(s), Error(s));
    assert Steps(st, t, 2) == Steps(mid, t, 1);
    EffectsAddUp(failed, t, QueueError(s), Shutdown(s), Pump, [Error(s)], 0);
  }

  /** A whole destroy, from its entry point to its end, with an error and without. */
  lemma DestroyIsUninterrupted(st: State, t: nat, s: nat, withError: bool)
    requires At(st, t, EntryPoint(Destroy(s, withError))) && s < |st.sockets|
    ensures Steps(st, t, if withError then 6 else 4) == DestroyEffect(st, t, s, withError)
  {
    if withError {
      var x := st.sockets[s].Failed();
      var failed := st.(sockets := st.sockets[s := x]);
      var mid := Effect(failed, t, Shutdown(s), [Error(s)], 0);
      RaiseError(st, t, s);
      TwoStepsFirst(st, t, 4);
      ShutdownAndFinish(mid, t, s);
      assert mid.sockets[s := x.Finished()] == st.sockets[s := x.Finished()];
      EffectsAddUp(st.(sockets := st.sockets[s := x.Finished()]), t, Shutdown(s), Done, Error(s),
                   Objects.CloseJobs(s, x), Objects.HandlesOf(x));
    } else {
      ShutdownAndFinish(st, t, s);
      assert [] + Objects.CloseJobs(s, st.sockets[s]) == Objects.CloseJobs(s, st.sockets[s]);
    }
  }

  // ------------------------------------------------------------ server_close

  /** `Objects.Server.Close`, said of the machine. */
  function ServerCloseEffect(st: State, t: nat, v: nat): State
    requires v < |st.servers| && t < |st.threads|
  {
    var x := st.servers[v];
    Effect(st.(servers := st.servers[v := x.Finished()]), t, Done,
           if x.closeEmitted then [] else [ServerClose(v)], if x.closeEmitted then 0 else 1)
  }

  lemma ServerCloseIsUninterrupted(st: State, t: nat, v: nat)
    requires At(st, t, ClaimServer(v)) && v < |st.servers|
    ensures Steps(st, t, 3) == ServerCloseEffect(st, t, v)
  {
    var x := st.servers[v];
    var a := Next(st, Advance(t, Ok));
    if x.closeEmitted {
      SkipStep(st, t, Done);
      DoneStays(a, t, 2);
      assert st.servers[v := x] == st.servers;
    } else {
      var claimed := st.(servers := st.servers[v := x.Finished()]);
      ServerStep(st, t, QueueServerClose(v), v, x.Finished());
      CloseAndRelease(a, t, ServerClose(v));
      EffectsAddUp(claimed, t, QueueServerClose(v), Done, Pump, [ServerClose(v)], 1);
    }
  }
}
