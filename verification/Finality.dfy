/** When a closed socket says that it is closed, and for how long. */
module Finality {
  import opened Base
  import opened Records
  import opened Machine
  import opened Grammar
  import CloseOnce
  import Flags
  import Ownership

  predicate SaysClosed(st: State, s: nat) {
    s < |st.sockets| && st.sockets[s].readyState == Closed
  }

  /** The closed socket `s` says that it is closed. */
  predicate Final(st: State, s: nat) {
    SocketClosed(st, s) <==> SaysClosed(st, s)
  }

  /** The two regions of a client socket that store a ready state other than closed. */
  predicate Reopens(pc: Pc, s: nat) {
    pc == BeginConnect(s) || pc == Publish(s)
  }

  predicate PublishesAccepted(pc: Pc, s: nat) {
    pc.PublishAccepted? && pc.s == s
  }

  /** The step lets such a region run on a socket that is already closed; the code has no test for that. */
  predicate LateReopen(st: State, step: Step, s: nat) {
    step.Advance? && Runnable(st, step.t) && Reopens(st.threads[step.t].pc, s) && SocketClosed(st, s)
  }

  lemma ActOnReadyState(st: State, pc: Pc, c: Choice, s: nat)
    requires s < |st.sockets|
    requires Exists(st, SocketOf(pc), ServerOf(pc)) && Act(st, pc, c).Move?
    ensures var action := Act(st, pc, c).action;
            if action.SetSocket? && action.s == s then
              && (st.sockets[s].closeEmitted ==> action.socket.closeEmitted)
              && (if Reopens(pc, s) || PublishesAccepted(pc, s) then
                    action.socket.readyState != Closed && action.socket.closeEmitted == st.sockets[s].closeEmitted
                  else
                    action.socket.readyState == Closed
                    <==> st.sockets[s].readyState == Closed || (!st.sockets[s].closeEmitted && action.socket.closeEmitted))
            else !Reopens(pc, s) && !PublishesAccepted(pc, s)
  {
    if SocketOf(pc) == Some(s) {
      assert Act(st, pc, c).action.SetSocket? ==> Act(st, pc, c).action.s == s;
    }
  }

  /** Every answer of the outside world lets a reopening region run. */
  lemma ReopensAlwaysActs(st: State, pc: Pc, c: Choice, s: nat)
    requires Reopens(pc, s) && Exists(st, SocketOf(pc), ServerOf(pc))
    ensures Act(st, pc, c).Move?
  {
  }

  lemma NewSocketsAreOpen(st: State, pc: Pc, c: Choice)
    requires Exists(st, SocketOf(pc), ServerOf(pc)) && Act(st, pc, c).Move?
    ensures var action := Act(st, pc, c).action;
            && (action.AddSocket? ==> !action.socket.closeEmitted && action.socket.readyState != Closed)
            && (action.SetSocket? ==> action.s < |st.sockets|)
  {
  }

  lemma FinalAdvance(st: State, t: nat, c: Choice, s: nat)
    requires Flags.Coherent(st) && Runnable(st, t) && s < |st.sockets|
    requires PublishesAccepted(st.threads[t].pc, s) ==> !SocketClosed(st, s)
    ensures SocketClosed(st, s) ==> SocketClosed(Next(st, Advance(t, c)), s)
    ensures Final(Next(st, Advance(t, c)), s) <==> Final(st, s) && !LateReopen(st, Advance(t, c), s)
  {
    var pc := st.threads[t].pc;
    if Act(st, pc, c).Move? {
      ActOnReadyState(st, pc, c, s);
      var x := Act(st, pc, c).action;
      assert Next(st, Advance(t, c)).sockets[s] == if x.SetSocket? && x.s == s then x.socket else st.sockets[s];
    } else if Reopens(pc, s) {
      ReopensAlwaysActs(st, pc, c, s);
    }
  }

  lemma FinalNext(st: State, step: Step, s: nat)
    requires Flags.Coherent(st)
    requires forall t | 0 <= t < |st.threads| && PublishesAccepted(st.threads[t].pc, s) :: !SocketClosed(st, s)
    ensures SocketClosed(st, s) ==> SocketClosed(Next(st, step), s)
    ensures Final(Next(st, step), s) <==> Final(st, s) && !LateReopen(st, step, s)
  {
    if step.Advance? && Runnable(st, step.t) {
      if s < |st.sockets| {
        FinalAdvance(st, step.t, step.choice, s);
      } else if Act(st, st.threads[step.t].pc, step.choice).Move? {
        NewSocketsAreOpen(st, st.threads[step.t].pc, step.choice);
      }
    }
  }

  lemma FinalNextReached(steps: seq<Step>, step: Step, s: nat)
    ensures var st := Reached(steps); Final(Next(st, step), s) <==> Final(st, s) && !LateReopen(st, step, s)
  {
    var st := Reached(steps);
    Flags.FlagCoherence(steps);
    forall t | 0 <= t < |st.threads| && PublishesAccepted(st.threads[t].pc, s) ensures !SocketClosed(st, s) {
      Ownership.NotClosedWhileMade(steps, t, s);
    }
    FinalNext(st, step, s);
  }

  // -------------------------------------------------------- over whole runs

  predicate NeverReopensLate(steps: seq<Step>, s: nat) {
    forall i | 0 <= i < |steps| :: !LateReopen(Reached(steps[..i]), steps[i], s)
  }

  lemma NeverReopensLateGrows(steps: seq<Step>, s: nat)
    requires steps != []
    ensures var init := steps[..|steps| - 1];
            NeverReopensLate(steps, s)
            <==> NeverReopensLate(init, s) && !LateReopen(Reached(init), steps[|steps| - 1], s)
  {
    var init := steps[..|steps| - 1];
    assert forall i | 0 <= i < |init| :: init[..i] == steps[..i] && init[i] == steps[i];
    assert forall i | 0 <= i < |steps| :: i < |init| || steps[..i] == init;
  }

  /** `ready_state` tells whether the socket is closed in exactly those runs in which no connect
      region and no publish region of a client ran on it after its close. */
  lemma {:induction false} ConditionalFinality(steps: seq<Step>, s: nat)
    ensures Final(Reached(steps), s) <==> NeverReopensLate(steps, s)
  {
    if steps == [] {
    } else {
      ConditionalFinality(steps[..|steps| - 1], s);
      FinalNextReached(steps[..|steps| - 1], steps[|steps| - 1], s);
      NeverReopensLateGrows(steps, s);
    }
  }

  /** In such runs "closed" is absorbing: once `ready_state` says it, it says it for good. */
  lemma ClosedIsAbsorbing(steps: seq<Step>, more: seq<Step>, s: nat)
    requires SaysClosed(Reached(steps), s) && NeverReopensLate(steps + more, s)
    ensures SaysClosed(Reached(steps + more), s)
  {
    Flags.FlagCoherence(steps);
    CloseOnce.ClosedForGood(steps, more, CloseOnce.TheSocket(s));
    ConditionalFinality(steps + more, s);
  }

  // ------------------------------------------------ what a caller can see to

  /** A thread at `pc` is on its way to store "opening" or "open" for client socket `s`. */
  predicate MayReopen(pc: Pc, s: nat) {
    match pc
    case StartPump(next) => next == ThenConnect(s)
    case QueuePump(next) => next == ThenConnect(s)
    case BeginConnect(r) => r == s
    case SpawnConnector(r) => r == s
    case Resolve(r) => r == s
    case Dial(r) => r == s
    case Publish(r) => r == s
    case _ => false
  }

  predicate NoConnectInFlight(st: State, s: nat) {
    forall t | 0 <= t < |st.threads| :: !MayReopen(st.threads[t].pc, s)
  }

  /** Once `s` is closed no connect is in flight. */
  predicate Settled(st: State, s: nat) {
    SocketClosed(st, s) ==> NoConnectInFlight(st, s)
  }

  /** The step closes `s` only while no connect is in flight, and does not connect it once closed. */
  predicate Orderly(st: State, step: Step, s: nat) {
    && (SocketClosed(Next(st, step), s) && !SocketClosed(st, s) ==> NoConnectInFlight(st, s))
    && (step == Invoke(Connect(s)) ==> !SocketClosed(st, s))
  }

  predicate GoesOnReopening(st: State, pc: Pc, pc': Pc, action: Action, s: nat) {
    && (MayReopen(pc', s) ==> MayReopen(pc, s) || (action.AddSocket? && s == |st.sockets|))
    && (action.Spawn? && MayReopen(action.thread.pc, s) ==> MayReopen(pc, s))
  }

  lemma ActGoesOnReopening(st: State, pc: Pc, c: Choice, s: nat)
    requires Exists(st, SocketOf(pc), ServerOf(pc)) && Act(st, pc, c).Move?
    ensures GoesOnReopening(st, pc, Act(st, pc, c).pc, Act(st, pc, c).action, s)
  {
  }

  lemma InFlightPerform(st: State, t: nat, pc: Pc, action: Action, s: nat)
    requires NoConnectInFlight(st, s) && t < |st.threads| && s < |st.sockets|
    requires GoesOnReopening(st, st.threads[t].pc, pc, action, s)
    ensures NoConnectInFlight(Perform(Moved(st, t, pc), t, action), s)
  {
    var post := Perform(Moved(st, t, pc), t, action);
    assert forall u | 0 <= u < |st.threads| && u != t :: post.threads[u] == st.threads[u];
  }

  lemma InFlightNext(st: State, step: Step, s: nat)
    requires NoConnectInFlight(st, s) && s < |st.sockets| && step != Invoke(Connect(s))
    ensures NoConnectInFlight(Next(st, step), s)
  {
    match step {
      case Invoke(op) => assert !MayReopen(EntryPoint(op), s);
      case Advance(t, c) =>
        if Runnable(st, t) && Act(st, st.threads[t].pc, c).Move? {
          ActGoesOnReopening(st, st.threads[t].pc, c, s);
          InFlightPerform(st, t, Act(st, st.threads[t].pc, c).pc, Act(st, st.threads[t].pc, c).action, s);
        }
      case _ =>
    }
  }

  lemma SettledNext(st: State, step: Step, s: nat)
    requires Settled(st, s) && Orderly(st, step, s)
    ensures Settled(Next(st, step), s)
    ensures !LateReopen(st, step, s)
  {
    if SocketClosed(Next(st, step), s) {
      if s >= |st.sockets| {
        NewSocketIsOpen(st, step, s);
      } else {
        assert step.Invoke? ==> Next(st, step).sockets == st.sockets;
        InFlightNext(st, step, s);
      }
    }
  }

  lemma NewSocketIsOpen(st: State, step: Step, s: nat)
    requires s >= |st.sockets|
    ensures !SocketClosed(Next(st, step), s)
  {
    if step.Advance? && Runnable(st, step.t) && Act(st, st.threads[step.t].pc, step.choice).Move? {
      NewSocketsAreOpen(st, st.threads[step.t].pc, step.choice);
    }
  }

  predicate OrderlyRun(steps: seq<Step>, s: nat) {
    forall i | 0 <= i < |steps| :: Orderly(Reached(steps[..i]), steps[i], s)
  }

  lemma {:induction false} OrderlySettles(steps: seq<Step>, s: nat)
    requires OrderlyRun(steps, s)
    ensures Settled(Reached(steps), s) && NeverReopensLate(steps, s)
  {
    if steps == [] {
    } else {
      var init := steps[..|steps| - 1];
      assert forall i | 0 <= i < |init| :: init[..i] == steps[..i] && init[i] == steps[i];
      OrderlySettles(init, s);
      assert Orderly(Reached(init), steps[|steps| - 1], s);
      SettledNext(Reached(init), steps[|steps| - 1], s);
      NeverReopensLateGrows(steps, s);
    }
  }

  /** If every close of the socket falls when no connect is in flight (it has published, failed or
      not begun), and nobody connects it once closed, then `ready_state` tells the truth throughout. */
  lemma OrderlyRunsAreFinal(steps: seq<Step>, s: nat)
    requires OrderlyRun(steps, s)
    ensures Final(Reached(steps), s)
  {
    OrderlySettles(steps, s);
    ConditionalFinality(steps, s);
  }

  // --------------------------------------------- exactly, for one moment

  predicate NeverConnects(more: seq<Step>, s: nat) {
    forall i | 0 <= i < |more| :: more[i] != Invoke(Connect(s))
  }

  lemma {:induction false} SettledStays(steps: seq<Step>, more: seq<Step>, s: nat)
    requires SocketClosed(Reached(steps), s) && Final(Reached(steps), s) && NoConnectInFlight(Reached(steps), s)
    requires NeverConnects(more, s)
    ensures var st := Reached(steps + more); SocketClosed(st, s) && Final(st, s) && NoConnectInFlight(st, s)
  {
    if more == [] {
      assert steps + more == steps;
    } else {
      var init, last := steps + more[..|more| - 1], more[|more| - 1];
      SettledStays(steps, more[..|more| - 1], s);
      assert steps + more == init + [last] && (init + [last])[..|init|] == init;
      CloseOnce.ClosedStaysNext(Reached(init), last, CloseOnce.TheSocket(s));
      InFlightNext(Reached(init), last, s);
      FinalNextReached(init, last, s);
    }
  }

  /** The thread, and how many steps of it, that a connect in flight is away from reopening. */
  function StepsToReopen(pc: Pc): nat {
    match pc
    case Resolve(_) => 3
    case SpawnConnector(_) => 4
    case StartPump(_) => 3
    case QueuePump(_) => 2
    case Dial(_) => 2
    case _ => 1
  }

  /** One step of a connect in flight: it reopens, or some thread is one step nearer to it. */
  lemma ConnectGoesOn(st: State, t: nat, s: nat) returns (u: nat)
    requires Runnable(st, t) && MayReopen(st.threads[t].pc, s) && SocketClosed(st, s)
    ensures var post := Next(st, Advance(t, Ok));
            && SocketClosed(post, s)
            && if Reopens(st.threads[t].pc, s) then !SaysClosed(post, s)
               else u < |post.threads| && MayReopen(post.threads[u].pc, s)
                    && StepsToReopen(post.threads[u].pc) < StepsToReopen(st.threads[t].pc)
  {
    u := if st.threads[t].pc.SpawnConnector? then |st.threads| else t;
  }

  lemma ConnectCanReopen(st: State, t: nat, s: nat) returns (more: seq<Step>)
    requires t < |st.threads| && MayReopen(st.threads[t].pc, s) && SocketClosed(st, s)
    ensures NeverConnects(more, s) && !Final(Run(st, more), s)
    decreases StepsToReopen(st.threads[t].pc)
  {
    var step := Advance(t, Ok);
    var u := ConnectGoesOn(st, t, s);
    assert Run(st, [step]) == Next(st, step) by { assert [step][..0] == []; }
    if Reopens(st.threads[t].pc, s) {
      more := [step];
    } else {
      var rest := ConnectCanReopen(Next(st, step), u, s);
      more := [step] + rest;
      RunOfConcat(st, [step], rest);
    }
  }

  /** Whatever happens from `st` on, short of a new connect, the closed socket says that it is closed. */
  ghost predicate FinalFromNowOn(st: State, s: nat) {
    forall more | NeverConnects(more, s) :: Final(Run(st, more), s)
  }

  /** A socket that is closed and says so will always say so, short of a new connect, if and only if
      no connect is in flight at that moment. */
  lemma FinalIffNoConnectInFlight(steps: seq<Step>, s: nat)
    requires SocketClosed(Reached(steps), s) && Final(Reached(steps), s)
    ensures FinalFromNowOn(Reached(steps), s) <==> NoConnectInFlight(Reached(steps), s)
  {
    var st := Reached(steps);
    if NoConnectInFlight(st, s) {
      forall more | NeverConnects(more, s) ensures Final(Run(st, more), s) {
        SettledStays(steps, more, s);
        RunOfConcat(Init(), steps, more);
      }
    } else {
      var t :| 0 <= t < |st.threads| && MayReopen(st.threads[t].pc, s);
      var more := ConnectCanReopen(st, t, s);
      assert !Final(Run(st, more), s);
    }
  }

  // ------------------------------------------------- as a caller can see it

  /** Thread `t` has enqueued `connect` or `error` for `s`. */
  predicate Answered(st: State, s: nat, t: nat) {
    exists i | 0 <= i < |st.log| ::
      st.log[i].origin == By(t) && (st.log[i].job == ConnectReady(s) || st.log[i].job == Error(s))
  }

  /** Every call that connects `s` has returned, and every connect thread of `s` has answered. */
  predicate EveryConnectAnswered(st: State, s: nat) {
    forall t | 0 <= t < |st.threads| ::
      && (st.threads[t].role.Caller? ==> !MayReopen(st.threads[t].pc, s))
      && (st.threads[t].role == Connector(s) ==> Answered(st, s, t))
  }

  lemma NoAnswerInFlight(pc: Pc, tr: seq<Job>, s: nat, k: nat)
    requires ConnectorAt(pc, tr, s) && k < |tr| && (tr[k] == ConnectReady(s) || tr[k] == Error(s))
    ensures !MayReopen(pc, s)
  {
  }

  lemma AnsweredIsNotInFlight(steps: seq<Step>, s: nat, t: nat)
    requires t < |Reached(steps).threads| && EveryConnectAnswered(Reached(steps), s)
    ensures !MayReopen(Reached(steps).threads[t].pc, s)
  {
    var st := Reached(steps);
    AlwaysInRole(steps);
    assert ThreadInRole(st, t);
    if st.threads[t].role == Connector(s) {
      var i :| 0 <= i < |st.log| && st.log[i].origin == By(t)
               && (st.log[i].job == ConnectReady(s) || st.log[i].job == Error(s));
      TraceHolds(st.log, t, i);
      var k :| 0 <= k < |Trace(st.log, t)| && Trace(st.log, t)[k] == st.log[i].job;
      NoAnswerInFlight(st.threads[t].pc, Trace(st.log, t), s, k);
    }
  }

  /** A closed socket that says so stays so once every connect of it has been answered by `connect`
      or `error`: what a caller can wait for. */
  lemma FinalOnceAnswered(steps: seq<Step>, s: nat)
    requires SocketClosed(Reached(steps), s) && Final(Reached(steps), s)
    requires EveryConnectAnswered(Reached(steps), s)
    ensures NoConnectInFlight(Reached(steps), s) && FinalFromNowOn(Reached(steps), s)
  {
    forall t | 0 <= t < |Reached(steps).threads| ensures !MayReopen(Reached(steps).threads[t].pc, s) {
      AnsweredIsNotInFlight(steps, s, t);
    }
    FinalIffNoConnectInFlight(steps, s);
  }
}
