/** What some fields of a record hold, said by the history of the run alone. */
module History {
  import opened Base
  import opened Records
  import opened Machine
  import Flags

  /** Where the thread of a step stands when it takes it. */
  function StandsAt(st: State, step: Step): Option<Pc> {
    if step.Advance? && Runnable(st, step.t) then Some(st.threads[step.t].pc) else None
  }

  // ----------------------------------------------------- the timeout period

  /** The period of the last `setTimeout` on `s` that has stored one. */
  function LastPeriod(steps: seq<Step>, s: nat): Option<int> {
    if steps == [] then None
    else
      var init := steps[..|steps| - 1];
      match StandsAt(Reached(init), steps[|steps| - 1])
      case Some(SetTimer(r, ms)) => if r == s then Some(ms) else LastPeriod(init, s)
      case _ => LastPeriod(init, s)
  }

  // --------------------------------------------------------- `connecting`

  /** Whether a connect of `s` has begun since `s` was last published. */
  function ConnectBegun(steps: seq<Step>, s: nat): bool {
    if steps == [] then false
    else
      var init := steps[..|steps| - 1];
      match StandsAt(Reached(init), steps[|steps| - 1])
      case Some(BeginConnect(r)) => r == s || ConnectBegun(init, s)
      case Some(Publish(r)) => r != s && ConnectBegun(init, s)
      case Some(PublishAccepted(_, r, _)) => r != s && ConnectBegun(init, s)
      case _ => ConnectBegun(init, s)
  }

  // ---------------------------------------------------------- `listening`

  /** Whether a bind of `v` has succeeded since `v` was closed, or at all if it was not. */
  function BoundSinceClose(steps: seq<Step>, v: nat): bool {
    if steps == [] then false
    else
      var init, step := steps[..|steps| - 1], steps[|steps| - 1];
      match StandsAt(Reached(init), step)
      case Some(Bind(u)) => (u == v && step.choice == Ok) || BoundSinceClose(init, v)
      case Some(ClaimServer(u)) => (u != v || ServerClosed(Reached(init), v)) && BoundSinceClose(init, v)
      case _ => BoundSinceClose(init, v)
  }

  // ------------------------------------------------------------- the records

  predicate StoresTimer(pc: Pc, x: SocketState, y: SocketState) {
    && y.timeoutMs == (if pc.SetTimer? then Some(pc.ms) else x.timeoutMs)
    && y.connecting == (if pc.BeginConnect? then true
                        else if pc.Publish? || pc.PublishAccepted? then false
                        else x.connecting)
  }

  lemma ActStores(st: State, pc: Pc, c: Choice, s: nat)
    requires s < |st.sockets| && Exists(st, SocketOf(pc), ServerOf(pc)) && Act(st, pc, c).Move?
    ensures var action := Act(st, pc, c).action;
            if action.SetSocket? && action.s == s then
              SocketOf(pc) == Some(s) && StoresTimer(pc, st.sockets[s], action.socket)
            else
              SocketOf(pc) == Some(s) ==>
                !pc.SetTimer? && !pc.BeginConnect? && !pc.Publish? && !pc.PublishAccepted?
  {
    if SocketOf(pc) == Some(s) {
    } else {
    }
  }

  lemma ActAddsFresh(st: State, pc: Pc, c: Choice)
    requires Exists(st, SocketOf(pc), ServerOf(pc)) && Act(st, pc, c).Move?
    ensures var action := Act(st, pc, c).action;
            && (action.AddSocket? ==> action.socket.timeoutMs == None && !action.socket.connecting)
            && (action.AddServer? ==> !action.server.listening && !action.server.hasListener)
            && (action.SetSocket? ==> action.s < |st.sockets|)
            && (action.SetServer? ==> action.v < |st.servers|)
  {
  }

  lemma StoringAlwaysActs(st: State, pc: Pc, c: Choice)
    requires Exists(st, SocketOf(pc), ServerOf(pc))
    requires pc.SetTimer? || pc.BeginConnect? || pc.Publish? || pc.PublishAccepted? || pc.ClaimServer?
             || (pc.Bind? && c == Ok)
    ensures Act(st, pc, c).Move?
  {
  }

  lemma ActBinds(st: State, pc: Pc, c: Choice, v: nat)
    requires v < |st.servers| && Exists(st, SocketOf(pc), ServerOf(pc)) && Act(st, pc, c).Move?
    ensures var action, x := Act(st, pc, c).action, st.servers[v];
            if action.SetServer? && action.v == v then
              && ServerOf(pc) == Some(v)
              && (pc.Bind? ==> c == Ok)
              && action.server.listening
                 == (if pc.Bind? then true else if pc.ClaimServer? then false else x.listening)
              && action.server.hasListener
                 == (if pc.Bind? then true else if pc.ClaimServer? then false else x.hasListener)
              && (pc.ClaimServer? ==> !x.closeEmitted)
            else
              && (pc == Bind(v) ==> c != Ok)
              && (pc == ClaimServer(v) ==> x.closeEmitted)
  {
    if ServerOf(pc) == Some(v) {
    } else {
    }
  }

  // ------------------------------------------------------------ whole runs

  predicate SocketByHistory(steps: seq<Step>, s: nat) {
    if s < |Reached(steps).sockets| then
      && Reached(steps).sockets[s].timeoutMs == LastPeriod(steps, s)
      && (Reached(steps).sockets[s].connecting <==> ConnectBegun(steps, s))
    else
      LastPeriod(steps, s) == None && !ConnectBegun(steps, s)
  }

  lemma SocketStep(steps: seq<Step>, step: Step, s: nat)
    requires SocketByHistory(steps, s)
    ensures SocketByHistory(steps + [step], s)
  {
    var st := Reached(steps);
    assert (steps + [step])[..|steps|] == steps;
    assert Reached(steps + [step]) == Next(st, step);
    if s < |st.sockets| {
      StoredByStep(st, step, s);
    } else {
      NothingStoredYet(st, step, s);
    }
  }

  lemma StoredByStep(st: State, step: Step, s: nat)
    requires s < |st.sockets|
    ensures s < |Next(st, step).sockets|
    ensures match StandsAt(st, step)
            case Some(pc) =>
              if SocketOf(pc) == Some(s) then StoresTimer(pc, st.sockets[s], Next(st, step).sockets[s])
              else KeepsTimer(st.sockets[s], Next(st, step).sockets[s])
            case None => KeepsTimer(st.sockets[s], Next(st, step).sockets[s])
  {
    if !step.Advance? {
      OtherSteps(st, step);
    } else if Runnable(st, step.t) {
      var pc := st.threads[step.t].pc;
      if Act(st, pc, step.choice).Move? {
        ActStores(st, pc, step.choice, s);
      } else if pc.SetTimer? || pc.BeginConnect? || pc.Publish? || pc.PublishAccepted? {
        StoringAlwaysActs(st, pc, step.choice);
      }
    }
  }

  predicate KeepsTimer(x: SocketState, y: SocketState) {
    y.timeoutMs == x.timeoutMs && y.connecting == x.connecting
  }

  lemma NothingStoredYet(st: State, step: Step, s: nat)
    requires s >= |st.sockets|
    ensures StandsAt(st, step).Some? ==> SocketOf(StandsAt(st, step).value) != Some(s)
    ensures s < |Next(st, step).sockets| ==>
              Next(st, step).sockets[s].timeoutMs == None && !Next(st, step).sockets[s].connecting
  {
    if !step.Advance? {
      OtherSteps(st, step);
    } else if Runnable(st, step.t) && Act(st, st.threads[step.t].pc, step.choice).Move? {
      ActAddsFresh(st, st.threads[step.t].pc, step.choice);
    }
  }

  /** In every run the stored period is that of the last `setTimeout`, and `connecting` holds exactly
      while a connect has begun and no publish has followed. */
  lemma {:induction false} SocketsGoByHistory(steps: seq<Step>, s: nat)
    ensures SocketByHistory(steps, s)
  {
    if steps == [] {
    } else {
      SocketsGoByHistory(steps[..|steps| - 1], s);
      SocketStep(steps[..|steps| - 1], steps[|steps| - 1], s);
      assert steps == steps[..|steps| - 1] + [steps[|steps| - 1]];
    }
  }

  predicate ServerByHistory(steps: seq<Step>, v: nat) {
    if v < |Reached(steps).servers| then
      && (Reached(steps).servers[v].listening <==> BoundSinceClose(steps, v))
      && (Reached(steps).servers[v].hasListener <==> BoundSinceClose(steps, v))
    else
      !BoundSinceClose(steps, v)
  }

  lemma ServerStep(steps: seq<Step>, step: Step, v: nat)
    requires ServerByHistory(steps, v)
    ensures ServerByHistory(steps + [step], v)
  {
    var st, post := Reached(steps), Reached(steps + [step]);
    assert (steps + [step])[..|steps|] == steps;
    if !step.Advance? {
      OtherSteps(st, step);
    } else if Runnable(st, step.t) {
      var pc := st.threads[step.t].pc;
      if Act(st, pc, step.choice).Move? {
        ActAddsFresh(st, pc, step.choice);
        if v < |st.servers| {
          ActBinds(st, pc, step.choice, v);
        }
      } else if pc.ClaimServer? || (pc.Bind? && step.choice == Ok) {
        StoringAlwaysActs(st, pc, step.choice);
      }
    }
  }

  /** In every run a server listens, and holds its listener, exactly when a bind has succeeded since
      it was closed, or at all if it was not. */
  lemma {:induction false} ServersGoByHistory(steps: seq<Step>, v: nat)
    ensures ServerByHistory(steps, v)
  {
    if steps == [] {
    } else {
      ServersGoByHistory(steps[..|steps| - 1], v);
      ServerStep(steps[..|steps| - 1], steps[|steps| - 1], v);
      assert steps == steps[..|steps| - 1] + [steps[|steps| - 1]];
    }
  }

  /** A timer that wakes goes on to ring exactly when its socket has not been closed and no other
      period has been stored since: the last `setTimeout` asked for its own. */
  lemma TimersWakeByHistory(steps: seq<Step>, t: nat, c: Choice)
    requires Runnable(Reached(steps), t) && Reached(steps).threads[t].pc.Wake?
    ensures var th, post := Reached(steps).threads[t], Next(Reached(steps), Advance(t, c));
            post.threads[t].pc
            == if !SocketClosed(Reached(steps), th.pc.s) && LastPeriod(steps, th.pc.s) == Some(th.pc.ms)
               then Ring(th.pc.s) else Done
  {
    SocketsGoByHistory(steps, Reached(steps).threads[t].pc.s);
    Flags.FlagCoherence(steps);
    Wakes(Reached(steps), t, c);
  }

  lemma Wakes(st: State, t: nat, c: Choice)
    requires Runnable(st, t) && st.threads[t].pc.Wake?
    ensures var pc := st.threads[t].pc;
            && pc.s < |st.sockets|
            && Next(st, Advance(t, c)).threads[t].pc == if st.sockets[pc.s].TimerDue(pc.ms) then Ring(pc.s) else Done
  {
  }
}
