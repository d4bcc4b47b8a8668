/** A socket opened after the pump has retired: nothing keeps the program alive for it. */
module LateOpen {
  import opened Records
  import opened Machine
  import opened Base
  import Pump
  import Ending

  /** Socket `s` is open, and nothing is left to run nor about to enqueue the pump. */
  predicate Unguarded(st: State, s: nat) {
    && s < |st.sockets| && !st.sockets[s].closeEmitted
    && Ending.Idle(st) && st.pumpStarted
    && forall t | 0 <= t < |st.threads| :: !st.threads[t].pc.QueuePump?
  }

  /** When an open socket finds the main thread idle, someone is about to enqueue the pump unless it
      has retired; `pumpRetired` is the exact condition under which nobody is. */
  lemma UnguardedIffRetired(steps: seq<Step>, s: nat)
    requires var st := Reached(steps);
             s < |st.sockets| && !st.sockets[s].closeEmitted && Ending.Idle(st) && st.pumpStarted
    ensures Unguarded(Reached(steps), s) <==> Reached(steps).pumpRetired
  {
    var st := Reached(steps);
    Pump.PumpUniqueness(steps);
    assert Pump.Queue(st) == [];
    SumIsZero(st.threads, Pump.AboutToQueue);
    assert Unguarded(st, s) ==> forall t | 0 <= t < |st.threads| :: Pump.AboutToQueue(st.threads[t]) == 0;
  }

  // -------------------------------------------------- after every retirement

  /** `st` with one more socket, made by a call that has returned. */
  function WithNewSocket(st: State): State {
    st.(sockets := st.sockets + [NewSocketState(false)],
        active := st.active + 1,
        threads := st.threads + [Thread(Done, Caller(NewSocket(false)))])
  }

  /** A creator that finds the pump started passes it by. */
  lemma NewSocketComesUp(st: State)
    requires st.pumpStarted
    ensures Leads(st, WithNewSocket(st))
  {
    var t, role := |st.threads|, Caller(NewSocket(false));
    var next := ReturnSocket(|st.sockets|);
    var a := st.(threads := st.threads + [Thread(OpenSocket(false, false), role)]);
    var b := WithNewSocket(st).(threads := st.threads + [Thread(StartPump(next), role)]);
    LeadsByOneStep(st, Invoke(NewSocket(false)));
    assert Next(st, Invoke(NewSocket(false))) == a;
    LeadsByTake(a, t, StartPump(next), AddSocket(NewSocketState(false)), b);
    LeadsByTake(b, t, Done, Skip, WithNewSocket(st));
    LeadsOnward(st, a, b);
    LeadsOnward(st, b, WithNewSocket(st));
  }

  /** Every retired program can open a socket that nothing keeps it alive for. */
  lemma LaterSocketsAreUnguarded(steps: seq<Step>) returns (more: seq<Step>)
    requires Reached(steps).pumpRetired
    ensures Unguarded(Reached(steps + more), |Reached(steps).sockets|)
    ensures Reached(steps + more).threads == WithNewSocket(Reached(steps)).threads
    ensures Reached(steps + more).active == Reached(steps).active + 1
  {
    var st := Reached(steps);
    Pump.PumpUniqueness(steps);
    NewSocketComesUp(st);
    var opening :| Run(st, opening) == WithNewSocket(st);
    RunOfConcat(Init(), steps, opening);
    Pump.PumpUniqueness(steps + opening);
    var draining := Ending.Drains(WithNewSocket(st));
    Ending.MainRunKeepsWorld(WithNewSocket(st), draining);
    Pump.RetiredRun(WithNewSocket(st), draining);
    more := opening + draining;
    RunOfConcat(st, opening, draining);
    RunOfConcat(Init(), steps, more);
    UnguardedIffRetired(steps + more, |st.sockets|);
  }

  // ------------------------------------------------------------ a whole run

  function Created(): State {
    State([NewSocketState(false)], [], [Thread(Done, Caller(NewSocket(false)))],
          1, true, false, Ready, [Entry(Job.Pump, By(0))], 0)
  }

  function Creating(pc: Pc): State {
    State([NewSocketState(false)], [], [Thread(pc, Caller(NewSocket(false)))], 1, false, false, Ready, [], 0)
  }

  lemma CreatorStarts()
    ensures Leads(Init(), Creating(StartPump(ReturnSocket(0))))
  {
    var a := Init().(threads := [Thread(OpenSocket(false, false), Caller(NewSocket(false)))]);
    LeadsByOneStep(Init(), Invoke(NewSocket(false)));
    assert Next(Init(), Invoke(NewSocket(false))) == a;
    LeadsByTake(a, 0, StartPump(ReturnSocket(0)), AddSocket(NewSocketState(false)), Creating(StartPump(ReturnSocket(0))));
    LeadsOnward(Init(), a, Creating(StartPump(ReturnSocket(0))));
  }

  lemma CreatedIsReached()
    ensures Leads(Init(), Created())
  {
    var next := ReturnSocket(0);
    var a := Creating(QueuePump(next)).(pumpStarted := true);
    CreatorStarts();
    LeadsByTake(Creating(StartPump(next)), 0, QueuePump(next), ClaimPump, a);
    LeadsByTake(a, 0, Done, Enqueue(Job.Pump), Created());
    LeadsOnward(Init(), Creating(StartPump(next)), a);
    LeadsOnward(Init(), a, Created());
  }

  function Destroying(pc: Pc): State {
    Created().(sockets := [NewSocketState(false).Finished()],
               threads := [Thread(Done, Caller(NewSocket(false))), Thread(pc, Caller(DestroySoon(0)))])
  }

  function Destroyed(): State {
    Destroying(Done).(active := 0, log := [Entry(Job.Pump, By(0)), Entry(Close(0, false), By(1))])
  }

  lemma ClaimIsReached()
    ensures Leads(Created(), Destroying(QueueClose(0, false)))
  {
    var a := Destroying(Claim(0)).(sockets := Created().sockets);
    LeadsByOneStep(Created(), Invoke(DestroySoon(0)));
    assert Next(Created(), Invoke(DestroySoon(0))) == a;
    LeadsByTake(a, 1, QueueClose(0, false), SetSocket(0, NewSocketState(false).Finished()),
                Destroying(QueueClose(0, false)));
    LeadsOnward(Created(), a, Destroying(QueueClose(0, false)));
  }

  lemma DestroyedIsReached()
    ensures Leads(Destroying(QueueClose(0, false)), Destroyed())
  {
    var a := Destroying(Release).(log := Destroyed().log);
    LeadsByTake(Destroying(QueueClose(0, false)), 1, Release, Enqueue(Close(0, false)), a);
    LeadsByTake(a, 1, Done, CloseHandle, Destroyed());
    LeadsOnward(Destroying(QueueClose(0, false)), a, Destroyed());
  }

  lemma DestroyedIsReachedFromTheStart() returns (steps: seq<Step>)
    ensures Reached(steps) == Destroyed()
  {
    CreatedIsReached();
    ClaimIsReached();
    DestroyedIsReached();
    LeadsOnward(Init(), Created(), Destroying(QueueClose(0, false)));
    LeadsOnward(Init(), Destroying(QueueClose(0, false)), Destroyed());
    steps :| Run(Init(), steps) == Destroyed();
  }

  lemma RetiredIsReached() returns (steps: seq<Step>)
    ensures var st := Reached(steps);
            st.pumpRetired && st.active == 0 && |st.sockets| == 1 && st.threads == Destroyed().threads
  {
    var closing := DestroyedIsReachedFromTheStart();
    var draining := Ending.ReleasedProgramsEnd(closing);
    RunOfConcat(Init(), closing, draining);
    Ending.MainRunKeepsWorld(Destroyed(), draining);
    steps := closing + draining;
  }

  /** The code does reach an open socket with an idle main thread, an empty queue, a handle counted,
      and no thread left that could start or enqueue the pump. */
  lemma OpenHandlesDoNotAlwaysKeepAlive() returns (steps: seq<Step>, s: nat)
    ensures var st := Reached(steps);
            && Unguarded(st, s) && st.active == 1 && st.pumpRetired
            && forall t | 0 <= t < |st.threads| :: st.threads[t].pc == Done
  {
    var retired := RetiredIsReached();
    var more := LaterSocketsAreUnguarded(retired);
    steps, s := retired + more, 1;
    UnguardedIffRetired(steps, s);
  }
}
