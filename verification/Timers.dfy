/** Timer threads and the end of a socket. */
module Timers {
  import opened Base
  import opened Records
  import opened Machine
  import opened CloseOnce
  import Flags

  function TimeoutEntry(s: nat): Entry -> nat {
    (e: Entry) => if e.job == Timeout(s) then 1 else 0
  }

  /** A timer thread past its wake-up test. */
  function AboutToRing(s: nat): Thread -> nat {
    (th: Thread) => if th.pc == Ring(s) then 1 else 0
  }

  /** Timeouts of `s` enqueued or no longer avoidable. */
  function Timeouts(st: State, s: nat): nat {
    Sum(st.log, TimeoutEntry(s)) + Sum(st.threads, AboutToRing(s))
  }

  /** A timer that wakes on a destroyed socket does not ring. */
  lemma ActRingsOnlyAlive(st: State, th: Thread, c: Choice, s: nat)
    requires s < |st.sockets| && st.sockets[s].destroyed
    requires Exists(st, SocketOf(th.pc), ServerOf(th.pc)) && Act(st, th.pc, c).Move?
    ensures var out := Act(st, th.pc, c);
            && out.pc != Ring(s)
            && (out.action.Spawn? ==> out.action.thread.pc != Ring(s))
            && (out.action == Enqueue(Timeout(s)) <==> th.pc == Ring(s))
  {
    if !th.pc.Ring? && !th.pc.Wake? {
      assert !Act(st, th.pc, c).pc.Ring?;
    }
  }

  lemma TimeoutsNext(st: State, step: Step, s: nat)
    requires s < |st.sockets| && st.sockets[s].destroyed
    ensures Timeouts(Next(st, step), s) == Timeouts(st, s)
  {
    if step.Advance? {
      if Runnable(st, step.t) && Act(st, st.threads[step.t].pc, step.choice).Move? {
        var out := Act(st, st.threads[step.t].pc, step.choice);
        ActRingsOnlyAlive(st, st.threads[step.t], step.choice, s);
        PerformTally(st, step.t, out.pc, out.action, TimeoutEntry(s), AboutToRing(s));
      }
    } else {
      assert step.Invoke? ==> !EntryPoint(step.op).Ring?;
      OtherTally(st, step, TimeoutEntry(s), AboutToRing(s));
    }
  }

  /** After a socket is closed, the timeouts still to come are exactly those of the timers that had
      already passed their wake-up test: no timer that wakes later rings. */
  lemma {:induction false} NoTimerRingsAfterClose(steps: seq<Step>, more: seq<Step>, s: nat)
    requires IsClosed(Reached(steps), TheSocket(s))
    ensures Timeouts(Reached(steps + more), s) == Timeouts(Reached(steps), s)
  {
    if more == [] {
      assert steps + more == steps;
    } else {
      var init, last := steps + more[..|more| - 1], more[|more| - 1];
      NoTimerRingsAfterClose(steps, more[..|more| - 1], s);
      assert steps + more == init + [last] && (init + [last])[..|init|] == init;
      ClosedForGood(steps, more[..|more| - 1], TheSocket(s));
      Flags.FlagCoherence(init);
      TimeoutsNext(Reached(init), last, s);
    }
  }
}
