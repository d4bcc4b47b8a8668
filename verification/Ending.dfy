/** The program ends when it should: once every handle is released the main thread runs dry. */
module Ending {
  import opened Base
  import opened Records
  import opened Machine
  import Handles
  import Pump
  import Ownership

  /** Steps of the main thread alone. */
  predicate MainOnly(steps: seq<Step>) {
    forall i | 0 <= i < |steps| :: steps[i] == RunJob || steps[i] == RunPump
  }

  /** The main thread has nothing to run. */
  predicate Idle(st: State) {
    st.main == Ready && st.ran == |st.log|
  }

  /** And nothing will enqueue the pump again. */
  predicate Ended(st: State) {
    Idle(st) && st.pumpRetired
  }

  /** The main thread touches neither the records nor the other threads. */
  predicate SameWorld(st: State, post: State) {
    && post.sockets == st.sockets && post.servers == st.servers && post.threads == st.threads
    && post.active == st.active && post.pumpStarted == st.pumpStarted
  }

  lemma MainStepKeepsWorld(st: State, step: Step)
    requires step == RunJob || step == RunPump
    ensures SameWorld(st, Next(st, step))
  {
  }

  lemma {:induction false} MainRunKeepsWorld(st: State, steps: seq<Step>)
    requires MainOnly(steps)
    ensures SameWorld(st, Run(st, steps))
  {
    if steps == [] {
    } else {
      MainRunKeepsWorld(st, steps[..|steps| - 1]);
      MainStepKeepsWorld(Run(st, steps[..|steps| - 1]), steps[|steps| - 1]);
    }
  }

  /** How many jobs and pump steps are left; a pump that goes round again costs one more job. */
  function MainWork(st: State): nat
    requires st.ran <= |st.log|
  {
    3 * (|st.log| - st.ran) + match st.main case Ready => 0 case PumpTest => 1 case PumpAgain => 4
  }

  /** What the main thread does next, if anything. */
  function MainStep(st: State): Step {
    if st.main == Ready then RunJob else RunPump
  }

  lemma DrainStep(st: State)
    requires Pump.OnePump(st) && (st.active <= 0 || st.pumpRetired) && !Idle(st)
    ensures var post := Next(st, MainStep(st)); post.ran <= |post.log| && MainWork(post) < MainWork(st)
  {
  }

  /** With a count of zero, or with the pump gone, the main thread comes to its end by itself. */
  lemma {:induction false} Drains(st: State) returns (more: seq<Step>)
    requires Pump.OnePump(st) && (st.active <= 0 || st.pumpRetired)
    ensures MainOnly(more) && Idle(Run(st, more)) && Pump.OnePump(Run(st, more))
    decreases MainWork(st)
  {
    if Idle(st) {
      more := [];
    } else {
      var step := MainStep(st);
      DrainStep(st);
      Pump.OnePumpNext(st, step);
      var rest := Drains(Next(st, step));
      more := [step] + rest;
      assert [step][..0] == [] && Run(st, [step]) == Next(st, step);
      RunOfConcat(st, [step], rest);
    }
  }

  /** With a count above zero the main thread never retires the pump by itself. */
  lemma {:induction false} NeverRetires(st: State, more: seq<Step>)
    requires MainOnly(more) && st.active > 0 && !st.pumpRetired
    ensures !Run(st, more).pumpRetired
  {
    if more == [] {
    } else {
      var init := more[..|more| - 1];
      NeverRetires(st, init);
      MainRunKeepsWorld(st, init);
      Pump.RetireStep(Run(st, init), more[|more| - 1]);
    }
  }

  /** When all is released nobody is about to enqueue the pump: its creator's record would be open. */
  lemma NobodyStartsThePump(steps: seq<Step>, t: nat)
    requires Handles.AllReleased(Reached(steps)) && t < |Reached(steps).threads|
    ensures !Reached(steps).threads[t].pc.StartPump? && !Reached(steps).threads[t].pc.QueuePump?
  {
    var pc := Reached(steps).threads[t].pc;
    if pc.StartPump? || pc.QueuePump? {
      Ownership.CreatorsHaveOpenRecords(steps, t);
    }
  }

  /** Once every handle is released and the pump has been started, the main thread alone runs the
      queue to its end and retires the pump. */
  lemma ReleasedProgramsEnd(steps: seq<Step>) returns (more: seq<Step>)
    requires Reached(steps).pumpStarted && Handles.AllReleased(Reached(steps))
    ensures MainOnly(more) && Ended(Reached(steps + more))
  {
    var st := Reached(steps);
    Pump.PumpUniqueness(steps);
    Handles.ZeroMeansAllReleased(steps);
    more := Drains(st);
    var end := Run(st, more);
    MainRunKeepsWorld(st, more);
    forall t | 0 <= t < |st.threads| ensures Pump.AboutToQueue(st.threads[t]) == 0 {
      NobodyStartsThePump(steps, t);
    }
    SumIsZero(st.threads, Pump.AboutToQueue);
    assert Pump.Queue(end) == [];
    RunOfConcat(Init(), steps, more);
  }

  /** As long as the pump lives, the main thread alone can bring the program to its end if and only
      if every handle has been released. */
  lemma EndsExactlyWhenReleased(steps: seq<Step>)
    requires Reached(steps).pumpStarted && !Reached(steps).pumpRetired
    ensures Handles.AllReleased(Reached(steps))
            <==> exists more | MainOnly(more) :: Ended(Reached(steps + more))
  {
    if Handles.AllReleased(Reached(steps)) {
      var more := ReleasedProgramsEnd(steps);
    } else {
      Handles.ZeroMeansAllReleased(steps);
      forall more | MainOnly(more) ensures !Ended(Reached(steps + more)) {
        NeverRetires(Reached(steps), more);
        RunOfConcat(Init(), steps, more);
      }
    }
  }

  // ------------------------------------------------------------ catching up

  /** Nothing was enqueued but the pump. */
  predicate OnlyPumped(st: State, post: State) {
    && |st.log| <= |post.log|
    && forall i | 0 <= i < |post.log| :: if i < |st.log| then post.log[i] == st.log[i] else post.log[i].job == Job.Pump
  }

  lemma MainStepOnlyPumps(st: State, step: Step)
    requires step == RunJob || step == RunPump
    ensures OnlyPumped(st, Next(st, step))
  {
  }

  lemma {:induction false} MainRunOnlyPumps(st: State, steps: seq<Step>)
    requires MainOnly(steps)
    ensures OnlyPumped(st, Run(st, steps))
  {
    if steps == [] {
    } else {
      MainRunOnlyPumps(st, steps[..|steps| - 1]);
      MainStepOnlyPumps(Run(st, steps[..|steps| - 1]), steps[|steps| - 1]);
    }
  }

  /** How far the main thread is from having taken the first `n` jobs. */
  function Behind(st: State, n: nat): nat {
    (if st.ran < n then 3 * (n - st.ran) else 0) + match st.main case Ready => 0 case PumpTest => 2 case PumpAgain => 1
  }

  lemma CatchUpStep(st: State, n: nat)
    requires n <= |st.log| && st.ran < n
    ensures var post := Next(st, MainStep(st)); Behind(post, n) < Behind(st, n) && n <= |post.log|
  {
  }

  /** Every job that has been enqueued can be taken. */
  lemma {:induction false} CatchesUp(st: State, n: nat) returns (more: seq<Step>)
    requires n <= |st.log|
    ensures MainOnly(more) && n <= Run(st, more).ran
    decreases Behind(st, n)
  {
    if n <= st.ran {
      more := [];
    } else {
      var step := MainStep(st);
      CatchUpStep(st, n);
      var rest := CatchesUp(Next(st, step), n);
      more := [step] + rest;
      assert [step][..0] == [] && Run(st, [step]) == Next(st, step);
      RunOfConcat(st, [step], rest);
    }
  }
}
