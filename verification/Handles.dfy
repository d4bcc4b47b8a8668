/** ACTIVE_HANDLES counts exactly the handles that are open or about to be released. */
module Handles {
  import opened Base
  import opened Records
  import opened Machine

  /** A socket past `handle_open` that nobody has closed yet. */
  function StillOpen(x: SocketState): nat {
    if x.closeEmitted then 0 else 1
  }

  function ServerStillOpen(x: ServerState): nat {
    if x.closeEmitted then 0 else 1
  }

  /** A closer stands between its claim and its `handle_close`. */
  predicate HoldsHandle(pc: Pc) {
    pc.QueueClose? || pc.QueueServerClose? || pc.Release?
  }

  function Releasing(x: Thread): nat {
    if HoldsHandle(x.pc) then 1 else 0
  }

  predicate Balanced(st: State) {
    st.active == Sum(st.sockets, StillOpen) + Sum(st.servers, ServerStillOpen) + Sum(st.threads, Releasing)
  }

  /** The action closes an open record. */
  predicate Claims(st: State, action: Action) {
    || (action.SetSocket? && action.s < |st.sockets| && !st.sockets[action.s].closeEmitted && action.socket.closeEmitted)
    || (action.SetServer? && action.v < |st.servers| && !st.servers[action.v].closeEmitted && action.server.closeEmitted)
  }

  /** A handle changes hands when a record is closed, and is given back at the release. */
  predicate KeepsTheBooks(st: State, pc: Pc, pc': Pc, action: Action) {
    && (!HoldsHandle(pc) && HoldsHandle(pc') <==> Claims(st, action))
    && (HoldsHandle(pc) && !HoldsHandle(pc') <==> action.CloseHandle?)
    && (action.AddSocket? ==> !action.socket.closeEmitted)
    && (action.AddServer? ==> !action.server.closeEmitted)
    && (action.Spawn? ==> !HoldsHandle(action.thread.pc))
    && (action.SetSocket? && SocketClosed(st, action.s) ==> action.socket.closeEmitted)
    && (action.SetServer? && ServerClosed(st, action.v) ==> action.server.closeEmitted)
  }

  lemma ActKeepsTheBooks(st: State, pc: Pc, c: Choice)
    requires Exists(st, SocketOf(pc), ServerOf(pc)) && Act(st, pc, c).Move?
    ensures KeepsTheBooks(st, pc, Act(st, pc, c).pc, Act(st, pc, c).action)
  {
    if HoldsHandle(pc) {
    } else if ServerOf(pc).None? {
    } else {
    }
  }

  lemma OpenSocketsPerform(st: State, t: nat, pc: Pc, action: Action)
    requires t < |st.threads| && KeepsTheBooks(st, st.threads[t].pc, pc, action)
    ensures Sum(Perform(Moved(st, t, pc), t, action).sockets, StillOpen)
            == Sum(st.sockets, StillOpen)
               + if action.AddSocket? then 1 else if action.SetSocket? && Claims(st, action) then -1 else 0
  {
    if action.AddSocket? {
      SumOfAppend(st.sockets, action.socket, StillOpen);
    } else if action.SetSocket? && action.s < |st.sockets| {
      SumOfUpdate(st.sockets, action.s, action.socket, StillOpen);
    } else {
      assert Perform(Moved(st, t, pc), t, action).sockets == st.sockets;
    }
  }

  lemma OpenServersPerform(st: State, t: nat, pc: Pc, action: Action)
    requires t < |st.threads| && KeepsTheBooks(st, st.threads[t].pc, pc, action)
    ensures Sum(Perform(Moved(st, t, pc), t, action).servers, ServerStillOpen)
            == Sum(st.servers, ServerStillOpen)
               + if action.AddServer? then 1 else if action.SetServer? && Claims(st, action) then -1 else 0
  {
    if action.AddServer? {
      SumOfAppend(st.servers, action.server, ServerStillOpen);
    } else if action.SetServer? && action.v < |st.servers| {
      SumOfUpdate(st.servers, action.v, action.server, ServerStillOpen);
    } else {
      assert Perform(Moved(st, t, pc), t, action).servers == st.servers;
    }
  }

  lemma BalancedPerform(st: State, t: nat, pc: Pc, action: Action)
    requires Balanced(st) && t < |st.threads|
    requires KeepsTheBooks(st, st.threads[t].pc, pc, action)
    ensures Balanced(Perform(Moved(st, t, pc), t, action))
  {
    PerformTally(st, t, pc, action, (e: Entry) => 0, Releasing);
    OpenSocketsPerform(st, t, pc, action);
    OpenServersPerform(st, t, pc, action);
  }

  lemma BalancedAct(st: State, t: nat, c: Choice)
    requires Balanced(st) && Runnable(st, t)
    ensures Balanced(Next(st, Advance(t, c)))
  {
    var out := Act(st, st.threads[t].pc, c);
    if out.Move? {
      ActKeepsTheBooks(st, st.threads[t].pc, c);
      BalancedPerform(st, t, out.pc, out.action);
    }
  }

  lemma BalancedNext(st: State, step: Step)
    requires Balanced(st)
    ensures Balanced(Next(st, step))
  {
    if step.Advance? {
      if Runnable(st, step.t) { BalancedAct(st, step.t, step.choice); }
    } else {
      OtherTally(st, step, (e: Entry) => 0, Releasing);
      assert Next(st, step).active == st.active;
    }
  }

  /** Handle conservation, in every reachable state of every program. */
  lemma {:induction false} HandleConservation(steps: seq<Step>)
    ensures Balanced(Reached(steps))
    ensures Reached(steps).active >= 0
  {
    if steps == [] {
    } else {
      HandleConservation(steps[..|steps| - 1]);
      BalancedNext(Reached(steps[..|steps| - 1]), steps[|steps| - 1]);
    }
  }

  /** Every handle ever opened has been closed and released. */
  predicate AllReleased(st: State) {
    && (forall s | 0 <= s < |st.sockets| :: st.sockets[s].closeEmitted)
    && (forall v | 0 <= v < |st.servers| :: st.servers[v].closeEmitted)
    && (forall t | 0 <= t < |st.threads| :: Releasing(st.threads[t]) == 0)
  }

  /** The test the pump makes (`active <= 0`) is true exactly when nothing is open or being released. */
  lemma ZeroMeansAllReleased(steps: seq<Step>)
    ensures Reached(steps).active <= 0 <==> AllReleased(Reached(steps))
  {
    var st := Reached(steps);
    HandleConservation(steps);
    SumIsZero(st.sockets, StillOpen);
    SumIsZero(st.servers, ServerStillOpen);
    SumIsZero(st.threads, Releasing);
    assert AllReleased(st) ==> Sum(st.sockets, StillOpen) == 0;
  }
}
