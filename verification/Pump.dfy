/** The keep-alive pump: at most one, alive until it has read a zero handle count. */
module Pump {
  import opened Base
  import opened Records
  import opened Machine
  import Handles

  function PumpEntry(e: Entry): nat {
    if e.job == Job.Pump then 1 else 0
  }

  /** The creator that won `PUMP_STARTED.set` and has yet to enqueue the first job. */
  function AboutToQueue(th: Thread): nat {
    if th.pc.QueuePump? then 1 else 0
  }

  function Queue(st: State): (q: seq<Entry>)
    requires st.ran <= |st.log|
  {
    st.log[st.ran..]
  }

  /** Pump jobs that are queued, running, or about to be enqueued. */
  function Pumps(st: State): nat
    requires st.ran <= |st.log|
  {
    Sum(Queue(st), PumpEntry) + (if st.main == Ready then 0 else 1) + Sum(st.threads, AboutToQueue)
  }

  predicate OnePump(st: State) {
    && st.ran <= |st.log|
    && (st.pumpRetired ==> st.pumpStarted)
    && Pumps(st) == if st.pumpStarted && !st.pumpRetired then 1 else 0
  }

  lemma ActOnPump(st: State, th: Thread, c: Choice)
    requires Exists(st, SocketOf(th.pc), ServerOf(th.pc)) && Act(st, th.pc, c).Move?
    ensures var Move(pc, action) := Act(st, th.pc, c);
            && (action == ClaimPump <==> !st.pumpStarted && th.pc.StartPump?)
            && (pc.QueuePump? <==> action == ClaimPump)
            && (action == Enqueue(Job.Pump) <==> th.pc.QueuePump?)
            && (action.Spawn? ==> !action.thread.pc.QueuePump?)
  {
  }

  lemma OnePumpPerform(st: State, t: nat, pc: Pc, action: Action)
    requires OnePump(st) && t < |st.threads|
    requires action == ClaimPump ==> !st.pumpStarted
    requires pc.QueuePump? <==> action == ClaimPump
    requires action == Enqueue(Job.Pump) <==> st.threads[t].pc.QueuePump?
    requires action.Spawn? ==> !action.thread.pc.QueuePump?
    ensures OnePump(Perform(Moved(st, t, pc), t, action))
  {
    PerformTally(st, t, pc, action, PumpEntry, AboutToQueue);
    QueuePerform(st, t, pc, action);
  }

  lemma QueuePerform(st: State, t: nat, pc: Pc, action: Action)
    requires st.ran <= |st.log| && t < |st.threads|
    ensures var post := Perform(Moved(st, t, pc), t, action);
            && post.ran == st.ran && post.main == st.main && |st.log| <= |post.log|
            && Sum(Queue(post), PumpEntry) == Sum(Queue(st), PumpEntry) + if action == Enqueue(Job.Pump) then 1 else 0
  {
    if action.Enqueue? {
      QueueGrows(st, Entry(action.job, By(t)));
    } else {
      assert Perform(Moved(st, t, pc), t, action).log == st.log;
    }
  }

  lemma QueueGrows(st: State, e: Entry)
    requires st.ran <= |st.log|
    ensures Sum((st.log + [e])[st.ran..], PumpEntry) == Sum(Queue(st), PumpEntry) + PumpEntry(e)
  {
    assert (st.log + [e])[st.ran..] == Queue(st) + [e];
    SumOfAppend(Queue(st), e, PumpEntry);
  }

  lemma QueueShrinks(st: State)
    requires st.ran < |st.log|
    ensures Sum(Queue(st), PumpEntry) == PumpEntry(st.log[st.ran]) + Sum(st.log[st.ran + 1..], PumpEntry)
  {
    SumSplit(Queue(st), 0, PumpEntry);
    assert Queue(st)[1..] == st.log[st.ran + 1..];
  }

  lemma OnePumpAdvance(st: State, t: nat, c: Choice)
    requires OnePump(st)
    ensures OnePump(Next(st, Advance(t, c)))
  {
    if Runnable(st, t) && Act(st, st.threads[t].pc, c).Move? {
      var out := Act(st, st.threads[t].pc, c);
      ActOnPump(st, st.threads[t], c);
      OnePumpPerform(st, t, out.pc, out.action);
    }
  }

  lemma OnePumpInvoke(st: State, op: Op)
    requires OnePump(st)
    ensures OnePump(Next(st, Invoke(op)))
  {
    assert !EntryPoint(op).QueuePump?;
    SumOfAppend(st.threads, Thread(EntryPoint(op), Caller(op)), AboutToQueue);
  }

  lemma OnePumpRunJob(st: State)
    requires OnePump(st)
    ensures OnePump(Next(st, RunJob))
  {
    if st.ran < |st.log| {
      QueueShrinks(st);
    }
  }

  lemma OnePumpRunPump(st: State)
    requires OnePump(st)
    ensures OnePump(Next(st, RunPump))
  {
    QueueGrows(st, Entry(Job.Pump, MainThread));
  }

  lemma OnePumpNext(st: State, step: Step)
    requires OnePump(st)
    ensures OnePump(Next(st, step))
  {
    match step {
      case Invoke(op) => OnePumpInvoke(st, op);
      case Advance(t, c) => OnePumpAdvance(st, t, c);
      case RunJob => OnePumpRunJob(st);
      case RunPump => OnePumpRunPump(st);
    }
  }

  /** In every run at most one pump is queued, running or about to be queued; from the start
      until it retires there is exactly one. */
  lemma {:induction false} PumpUniqueness(steps: seq<Step>)
    ensures OnePump(Reached(steps))
  {
    if steps == [] {
    } else {
      PumpUniqueness(steps[..|steps| - 1]);
      OnePumpNext(Reached(steps[..|steps| - 1]), steps[|steps| - 1]);
    }
  }

  lemma PerformNeverRetires(st: State, t: nat, pc: Pc, action: Action)
    requires t < |st.threads|
    ensures Perform(Moved(st, t, pc), t, action).pumpRetired == st.pumpRetired
  {
  }

  lemma RetireStep(st: State, step: Step)
    requires !st.pumpRetired
    ensures Next(st, step).pumpRetired <==> step == RunPump && st.main == PumpTest && st.active <= 0
  {
    if step.Advance? && Runnable(st, step.t) && Act(st, st.threads[step.t].pc, step.choice).Move? {
      var out := Act(st, st.threads[step.t].pc, step.choice);
      PerformNeverRetires(st, step.t, out.pc, out.action);
    }
  }

  /** The pump retires on the step that reads a zero count, and only then; at that moment
      every handle ever opened has been released. */
  lemma RetiresExactlyWhenAllReleased(steps: seq<Step>, step: Step)
    requires !Reached(steps).pumpRetired
    ensures Next(Reached(steps), step).pumpRetired
            <==> step == RunPump && Reached(steps).main == PumpTest && Handles.AllReleased(Reached(steps))
  {
    RetireStep(Reached(steps), step);
    Handles.ZeroMeansAllReleased(steps);
  }

  /** A creator past `handle_open` that has yet to see to the pump. */
  function AboutToStart(th: Thread): nat {
    if th.pc.StartPump? then 1 else 0
  }

  /** While nobody has started the pump, every record's creator is still about to. */
  predicate CreatorsWillStart(st: State) {
    !st.pumpStarted ==> Sum(st.threads, AboutToStart) == |st.sockets| + |st.servers|
  }

  predicate StartsProperly(st: State, pc: Pc, pc': Pc, action: Action) {
    && (!st.pumpStarted && pc.StartPump? ==> action == ClaimPump)
    && (pc'.StartPump? <==> action.AddSocket? || action.AddServer?)
    && (pc'.StartPump? ==> !pc.StartPump?)
    && (action.Spawn? ==> !action.thread.pc.StartPump?)
  }

  lemma ActStartsProperly(st: State, pc: Pc, c: Choice)
    requires Exists(st, SocketOf(pc), ServerOf(pc)) && Act(st, pc, c).Move?
    ensures StartsProperly(st, pc, Act(st, pc, c).pc, Act(st, pc, c).action)
  {
  }

  lemma CreatorsPerform(st: State, t: nat, pc: Pc, action: Action)
    requires CreatorsWillStart(st) && t < |st.threads|
    requires StartsProperly(st, st.threads[t].pc, pc, action)
    ensures CreatorsWillStart(Perform(Moved(st, t, pc), t, action))
  {
    PerformTally(st, t, pc, action, (e: Entry) => 0, AboutToStart);
  }

  lemma {:induction false} CreatorsAlwaysWill(steps: seq<Step>)
    ensures CreatorsWillStart(Reached(steps))
  {
    if steps == [] {
    } else {
      var st, step := Reached(steps[..|steps| - 1]), steps[|steps| - 1];
      CreatorsAlwaysWill(steps[..|steps| - 1]);
      if !step.Advance? {
        OtherTally(st, step, (e: Entry) => 0, AboutToStart);
        OtherKeepsPumpStarted(st, step);
      } else if Runnable(st, step.t) && Act(st, st.threads[step.t].pc, step.choice).Move? {
        var out := Act(st, st.threads[step.t].pc, step.choice);
        ActStartsProperly(st, st.threads[step.t].pc, step.choice);
        CreatorsPerform(st, step.t, out.pc, out.action);
      }
    }
  }

  lemma OtherKeepsPumpStarted(st: State, step: Step)
    requires !step.Advance?
    ensures Next(st, step).pumpStarted == st.pumpStarted
  {
  }

  /** As long as the pump has not retired, a program with a socket or a server never stands idle
      unseen: when the main thread has nothing to run, some creator is just about to start or to
      enqueue the pump. In particular no open handle is left without a pump before it retires. */
  lemma QueueNeverRunsDry(steps: seq<Step>)
    requires var st := Reached(steps);
             |st.sockets| + |st.servers| > 0 && !st.pumpRetired && st.main == Ready && st.ran == |st.log|
    ensures exists t | 0 <= t < |Reached(steps).threads| ::
              Reached(steps).threads[t].pc.StartPump? || Reached(steps).threads[t].pc.QueuePump?
  {
    var st := Reached(steps);
    PumpUniqueness(steps);
    CreatorsAlwaysWill(steps);
    assert Queue(st) == [];
    SumIsZero(st.threads, AboutToQueue);
    SumIsZero(st.threads, AboutToStart);
  }

  /** Once the pump has been started, that creator is the one that won the start. */
  lemma OnlyTheStarterMayLag(steps: seq<Step>)
    requires var st := Reached(steps);
             st.pumpStarted && !st.pumpRetired && st.main == Ready && st.ran == |st.log|
    ensures exists t | 0 <= t < |Reached(steps).threads| :: Reached(steps).threads[t].pc.QueuePump?
  {
    var st := Reached(steps);
    PumpUniqueness(steps);
    assert Queue(st) == [];
    SumIsZero(st.threads, AboutToQueue);
  }

  lemma RetiredNext(st: State, step: Step)
    requires st.pumpRetired
    ensures Next(st, step).pumpRetired
  {
  }

  lemma {:induction false} RetiredRun(st: State, more: seq<Step>)
    requires st.pumpRetired
    ensures Run(st, more).pumpRetired
  {
    if more == [] {
    } else {
      RetiredRun(st, more[..|more| - 1]);
      RetiredNext(Run(st, more[..|more| - 1]), more[|more| - 1]);
    }
  }

  /** A retired pump never comes back, whatever is opened later. */
  lemma RetiredForGood(steps: seq<Step>, more: seq<Step>)
    requires Reached(steps).pumpRetired
    ensures OnePump(Reached(steps + more)) && Pumps(Reached(steps + more)) == 0
  {
    RunOfConcat(Init(), steps, more);
    RetiredRun(Reached(steps), more);
    PumpUniqueness(steps + more);
  }
}
