/**
 * How an accept loop goes on and when it ends, and what an accepted socket inherits from its
 * server, over every interleaving.
 */
module Listening {
  import opened Base
  import opened Records
  import opened Machine
  import opened Grammar
  import CloseOnce
  import Flags
  import History
  import Scripts

  // ------------------------------------------------- bound until it is closed

  /** The server whose accept loop a thread at `pc` runs. */
  function LoopOf(pc: Pc): Option<nat> {
    match pc
    case QueueListening(v, _) => Some(v)
    case Check(v, _) => Some(v)
    case Accept(v, _) => Some(v)
    case StartPump(ThenAccept(v, _, _)) => Some(v)
    case QueuePump(ThenAccept(v, _, _)) => Some(v)
    case PublishAccepted(v, _, _) => Some(v)
    case SpawnReader(v, _, _) => Some(v)
    case CountConnection(v, _, _) => Some(v)
    case QueueConnection(v, _, _) => Some(v)
    case _ => None
  }

  /** `v` listens, or has been closed. */
  predicate BoundOrClosed(st: State, v: nat) {
    v < |st.servers| && (st.servers[v].listening || st.servers[v].closeEmitted)
  }

  predicate LoopsAreBound(st: State, t: nat) {
    t < |st.threads| && LoopOf(st.threads[t].pc).Some? ==> BoundOrClosed(st, LoopOf(st.threads[t].pc).value)
  }

  lemma ActEntersLoop(st: State, pc: Pc, c: Choice)
    requires Exists(st, SocketOf(pc), ServerOf(pc)) && Act(st, pc, c).Move?
    ensures var Move(pc', action) := Act(st, pc, c);
            && (LoopOf(pc').Some? ==>
                  LoopOf(pc') == LoopOf(pc)
                  || (pc == Bind(LoopOf(pc').value) && action.SetServer? && action.v == pc.v && action.server.listening))
            && (action.Spawn? ==> LoopOf(action.thread.pc) == None)
            && (action.SetServer? ==> action.v < |st.servers|)
            && (action.SetServer? && BoundOrClosed(st, action.v) ==> action.server.listening || action.server.closeEmitted)
  {
    if ServerOf(pc).None? {
      assert LoopOf(Act(st, pc, c).pc) == None;
    } else {
    }
  }

  lemma LoopsAreBoundNext(st: State, step: Step, u: nat)
    requires LoopsAreBound(st, u)
    ensures LoopsAreBound(Next(st, step), u)
  {
    if !step.Advance? {
      OtherSteps(st, step);
      assert step.Invoke? ==> LoopOf(EntryPoint(step.op)) == None;
    } else if Runnable(st, step.t) && Act(st, st.threads[step.t].pc, step.choice).Move? {
      var out := Act(st, st.threads[step.t].pc, step.choice);
      ActEntersLoop(st, st.threads[step.t].pc, step.choice);
      ThreadsPerform(st, step.t, out.pc, out.action, u);
    }
  }

  lemma {:induction false} LoopsAreAlwaysBound(steps: seq<Step>, t: nat)
    ensures LoopsAreBound(Reached(steps), t)
  {
    if steps == [] {
    } else {
      LoopsAreAlwaysBound(steps[..|steps| - 1], t);
      LoopsAreBoundNext(Reached(steps[..|steps| - 1]), steps[|steps| - 1], t);
    }
  }

  // ------------------------------------------------------- when the loop ends

  /** At step `i` thread `t` was told by accept that it fails for good. */
  predicate FailsToAccept(steps: seq<Step>, t: nat, i: nat)
    requires i < |steps|
  {
    steps[i] == Advance(t, Fail) && match History.StandsAt(Reached(steps[..i]), steps[i])
                                    case Some(pc) => pc.Accept?
                                    case None => false
  }

  predicate AcceptFailed(steps: seq<Step>, t: nat) {
    exists i | 0 <= i < |steps| :: FailsToAccept(steps, t, i)
  }

  lemma AcceptFailedStays(steps: seq<Step>, step: Step, t: nat)
    requires AcceptFailed(steps, t)
    ensures AcceptFailed(steps + [step], t)
  {
    var i :| 0 <= i < |steps| && FailsToAccept(steps, t, i);
    assert (steps + [step])[..i] == steps[..i];
    assert FailsToAccept(steps + [step], t, i);
  }

  /** The accept thread of `v` that has announced itself and ended. */
  predicate LoopEnded(st: State, t: nat, v: nat) {
    && t < |st.threads| && st.threads[t].role == Caller(Listen(v)) && st.threads[t].pc == Done
    && Trace(st.log, t) != [ServerError(v)]
  }

  /** How a listening thread comes to its end. */
  lemma ActEndsLoop(st: State, pc: Pc, c: Choice, tr: seq<Job>, v: nat)
    requires Scripts.ListensAt(pc, tr, v) && pc != Done
    requires Exists(st, SocketOf(pc), ServerOf(pc)) && Act(st, pc, c) .Move? && Act(st, pc, c).pc == Done
    ensures || Extended(tr, Act(st, pc, c).action) == [ServerError(v)]
            || (pc.Accept? && c == Fail)
            || (LoopOf(pc) == Some(v) && v < |st.servers| && st.servers[v].StopsAccepting())
  {
  }

  lemma LoopEndedStep(steps: seq<Step>, step: Step, t: nat, v: nat)
    requires LoopEnded(Reached(steps), t, v) ==> ServerClosed(Reached(steps), v) || AcceptFailed(steps, t)
    requires LoopEnded(Reached(steps + [step]), t, v)
    ensures ServerClosed(Reached(steps + [step]), v) || AcceptFailed(steps + [step], t)
  {
    var st := Reached(steps);
    assert (steps + [step])[..|steps|] == steps;
    if LoopEnded(st, t, v) {
      LoopStaysEnded(steps, step, t, v);
    } else if step.Advance? && step.t == t {
      LoopEndsNow(steps, step, t, v);
    } else {
      NobodyElseEndsIt(st, step, t, v);
    }
  }

  lemma LoopStaysEnded(steps: seq<Step>, step: Step, t: nat, v: nat)
    requires ServerClosed(Reached(steps), v) || AcceptFailed(steps, t)
    ensures ServerClosed(Reached(steps + [step]), v) || AcceptFailed(steps + [step], t)
  {
    assert (steps + [step])[..|steps|] == steps;
    if ServerClosed(Reached(steps), v) {
      CloseOnce.ClosedStaysNext(Reached(steps), step, CloseOnce.TheServer(v));
    } else {
      AcceptFailedStays(steps, step, t);
    }
  }

  lemma LoopEndsNow(steps: seq<Step>, step: Step, t: nat, v: nat)
    requires !LoopEnded(Reached(steps), t, v) && step.Advance? && step.t == t
    requires LoopEnded(Reached(steps + [step]), t, v)
    ensures ServerClosed(Reached(steps + [step]), v) || AcceptFailed(steps + [step], t)
  {
    var st := Reached(steps);
    assert (steps + [step])[..|steps|] == steps;
    assert Runnable(st, t) && Act(st, st.threads[t].pc, step.choice).Move?;
    var pc, out := st.threads[t].pc, Act(st, st.threads[t].pc, step.choice);
    ThreadsPerform(st, t, out.pc, out.action, t);
    TracePerform(st, t, out.pc, out.action, t);
    Scripts.CallsGoByScript(steps, t);
    LoopsAreAlwaysBound(steps, t);
    ActEndsLoop(st, pc, step.choice, Trace(st.log, t), v);
    if pc.Accept? && step.choice == Fail {
      assert FailsToAccept(steps + [step], t, |steps|);
    } else {
      Flags.FlagCoherence(steps);
      StoppedIsClosed(st, t, v);
      CloseOnce.ClosedStaysNext(st, step, CloseOnce.TheServer(v));
    }
  }

  lemma StoppedIsClosed(st: State, t: nat, v: nat)
    requires t < |st.threads| && LoopsAreBound(st, t) && LoopOf(st.threads[t].pc) == Some(v)
    requires st.servers[v].StopsAccepting() && ServerCoherent(st.servers[v])
    ensures ServerClosed(st, v)
  {
  }

  lemma NobodyElseEndsIt(st: State, step: Step, t: nat, v: nat)
    requires !(step.Advance? && step.t == t) && LoopEnded(Next(st, step), t, v)
    ensures LoopEnded(st, t, v)
  {
    if !step.Advance? {
      OtherSteps(st, step);
      TraceOfAppend(st.log, Entry(Pump, MainThread), t);
      assert Trace(Next(st, step).log, t) == Trace(st.log, t);
      assert step.Invoke? && step.op == Listen(v) ==> EntryPoint(step.op) != Done;
    } else if Runnable(st, step.t) && Act(st, st.threads[step.t].pc, step.choice).Move? {
      var out := Act(st, st.threads[step.t].pc, step.choice);
      ThreadsPerform(st, step.t, out.pc, out.action, t);
      TracePerform(st, step.t, out.pc, out.action, t);
      Scripts.ActSpawnsNoCalls(st, st.threads[step.t].pc, step.choice);
    }
  }

  /** An accept thread that has announced `listening` ends only because accept told it to or because
      the server was closed: not for want of a client, nor for a handshake that failed. */
  lemma {:induction false} LoopsEndForAReason(steps: seq<Step>, t: nat, v: nat)
    requires LoopEnded(Reached(steps), t, v)
    ensures ServerClosed(Reached(steps), v) || AcceptFailed(steps, t)
  {
    if steps == [] {
    } else {
      var init := steps[..|steps| - 1];
      if LoopEnded(Reached(init), t, v) {
        LoopsEndForAReason(init, t, v);
      }
      assert steps == init + [steps[|steps| - 1]];
      LoopEndedStep(init, steps[|steps| - 1], t, v);
    }
  }

  // ------------------------------------------------------ how the loop goes on

  /** Nobody waiting, or a handshake that failed: the loop comes round to where it was. */
  lemma RetriesGoRound(st: State, t: nat)
    requires Runnable(st, t) && st.threads[t].pc.Accept?
    requires !st.servers[st.threads[t].pc.v].StopsAccepting()
    ensures Next(Next(st, Advance(t, Retry)), Advance(t, Ok)) == st
  {
    var Accept(v, allow) := st.threads[t].pc;
    var mid := Moved(st, t, Check(v, allow));
    Takes(st, t, Retry, Check(v, allow), Skip, mid);
    Takes(mid, t, Ok, Accept(v, allow), Skip, st);
  }

  /** How many of its own steps a thread of the loop is away from the next accept. */
  function StepsToAccept(pc: Pc): nat {
    match pc
    case Accept(_, _) => 0
    case Check(_, _) => 1
    case QueueListening(_, _) => 2
    case QueueConnection(_, _, _) => 2
    case CountConnection(_, _, _) => 3
    case SpawnReader(_, _, _) => 4
    case PublishAccepted(_, _, _) => 5
    case QueuePump(_) => 6
    case StartPump(_) => 7
    case _ => 8
  }

  lemma LoopStep(st: State, t: nat, v: nat)
    requires Runnable(st, t) && LoopOf(st.threads[t].pc) == Some(v) && !st.threads[t].pc.Accept?
    requires v < |st.servers| && !st.servers[v].StopsAccepting()
    ensures var post := Next(st, Advance(t, Ok));
            && Runnable(post, t) && LoopOf(post.threads[t].pc) == Some(v)
            && v < |post.servers| && !post.servers[v].StopsAccepting()
            && StepsToAccept(post.threads[t].pc) < StepsToAccept(st.threads[t].pc)
  {
    var out := Act(st, st.threads[t].pc, Ok);
    ActGoesRound(st, st.threads[t].pc, v);
    ThreadsPerform(st, t, out.pc, out.action, t);
  }

  lemma ActGoesRound(st: State, pc: Pc, v: nat)
    requires Exists(st, SocketOf(pc), ServerOf(pc)) && LoopOf(pc) == Some(v) && !pc.Accept?
    requires v < |st.servers| && !st.servers[v].StopsAccepting()
    ensures Act(st, pc, Ok).Move?
    ensures var Move(pc', action) := Act(st, pc, Ok);
            && LoopOf(pc') == Some(v) && StepsToAccept(pc') < StepsToAccept(pc)
            && (SocketOf(pc').Some? ==> SocketOf(pc') == SocketOf(pc)) && ServerOf(pc') == Some(v)
            && !action.AddSocket? && !action.AddServer?
            && (action.SetServer? && action.v == v ==> !action.server.StopsAccepting())
  {
  }

  /** The accept thread of a server that is not closed comes to its next accept by steps of its own,
      from wherever in its loop it stands. */
  lemma {:induction false} NextAcceptIsReached(st: State, t: nat, v: nat) returns (more: seq<Step>)
    requires Runnable(st, t) && LoopOf(st.threads[t].pc) == Some(v)
    requires v < |st.servers| && !st.servers[v].StopsAccepting()
    ensures forall i | 0 <= i < |more| :: more[i] == Advance(t, Ok)
    ensures var post := Run(st, more);
            && t < |post.threads| && post.threads[t].pc.Accept? && post.threads[t].pc.v == v
            && v < |post.servers| && !post.servers[v].StopsAccepting()
    decreases StepsToAccept(st.threads[t].pc)
  {
    if st.threads[t].pc.Accept? {
      more := [];
    } else {
      var step := Advance(t, Ok);
      LoopStep(st, t, v);
      var rest := NextAcceptIsReached(Next(st, step), t, v);
      more := [step] + rest;
      assert [step][..0] == [] && Run(st, [step]) == Next(st, step);
      RunOfConcat(st, [step], rest);
    }
  }

  /** In every run: a thread that has begun to listen and has not ended can always accept the next
      client, as long as its server has not been closed. */
  lemma OpenServersGoOnAccepting(steps: seq<Step>, t: nat, v: nat) returns (more: seq<Step>)
    requires t < |Reached(steps).threads| && Reached(steps).threads[t].role == Caller(Listen(v))
    requires Reached(steps).threads[t].pc != Done && !Reached(steps).threads[t].pc.Bind?
    requires !ServerClosed(Reached(steps), v)
    ensures forall i | 0 <= i < |more| :: more[i] == Advance(t, Ok)
    ensures var post := Reached(steps + more);
            t < |post.threads| && post.threads[t].pc.Accept? && post.threads[t].pc.v == v
  {
    var st := Reached(steps);
    Scripts.CallsGoByScript(steps, t);
    LoopsAreAlwaysBound(steps, t);
    NothingEverDangles(steps);
    NotClosedGoesOn(steps, v, t);
    more := NextAcceptIsReached(st, t, v);
    RunOfConcat(Init(), steps, more);
  }

  lemma NotClosedGoesOn(steps: seq<Step>, v: nat, t: nat)
    requires !ServerClosed(Reached(steps), v) && LoopsAreBound(Reached(steps), t)
    requires t < |Reached(steps).threads| && LoopOf(Reached(steps).threads[t].pc) == Some(v)
    ensures v < |Reached(steps).servers| && !Reached(steps).servers[v].StopsAccepting()
  {
    Flags.FlagCoherence(steps);
  }

  // ------------------------------------------------------- the option it keeps

  predicate SocketAllows(st: State, s: nat, allow: bool) {
    s < |st.sockets| && st.sockets[s].allowHalfOpen == allow
  }

  predicate ServerAllows(st: State, v: nat, allow: bool) {
    v < |st.servers| && st.servers[v].allowHalfOpen == allow
  }

  /** The option a call makes its socket or server with. */
  function OptionOf(role: Role): Option<bool> {
    match role
    case Caller(NewSocket(allow)) => Some(allow)
    case Caller(CreateConnection(allow)) => Some(allow)
    case Caller(NewServer(allow)) => Some(allow)
    case _ => None
  }

  predicate MadeWith(st: State, role: Role, s: nat) {
    OptionOf(role).Some? ==> SocketAllows(st, s, OptionOf(role).value)
  }

  predicate Accepted(st: State, v: nat, s: nat, allow: bool) {
    ServerAllows(st, v, allow) && SocketAllows(st, s, allow)
  }

  /** What a thread carries along agrees with the records. */
  predicate CarriesOption(st: State, th: Thread) {
    match th.pc
    case OpenSocket(allow, _) => OptionOf(th.role) == Some(allow)
    case OpenServer(allow) => OptionOf(th.role) == Some(allow)
    case StartPump(next) => MakesWithOption(st, th.role, next)
    case QueuePump(next) => MakesWithOption(st, th.role, next)
    case BeginConnect(s) => MadeWith(st, th.role, s)
    case SpawnConnector(s) => MadeWith(st, th.role, s)
    case QueueListening(v, allow) => ServerAllows(st, v, allow)
    case Check(v, allow) => ServerAllows(st, v, allow)
    case Accept(v, allow) => ServerAllows(st, v, allow)
    case PublishAccepted(v, s, allow) => Accepted(st, v, s, allow)
    case SpawnReader(v, s, allow) => Accepted(st, v, s, allow)
    case CountConnection(v, s, allow) => Accepted(st, v, s, allow)
    case QueueConnection(v, s, allow) => Accepted(st, v, s, allow)
    case _ => true
  }

  predicate MakesWithOption(st: State, role: Role, next: Then) {
    match next
    case ReturnSocket(s) => MadeWith(st, role, s)
    case ThenConnect(s) => MadeWith(st, role, s)
    case ReturnServer(v) => OptionOf(role).Some? ==> ServerAllows(st, v, OptionOf(role).value)
    case ThenAccept(v, s, allow) => Accepted(st, v, s, allow)
  }

  predicate LoggedOption(st: State, i: nat)
    requires i < |st.log|
  {
    st.log[i].job.Connection? ==>
      && st.log[i].job.v < |st.servers| && st.log[i].job.s < |st.sockets|
      && st.servers[st.log[i].job.v].allowHalfOpen == st.sockets[st.log[i].job.s].allowHalfOpen
  }

  predicate OptionsFit(st: State) {
    && (forall t | 0 <= t < |st.threads| :: CarriesOption(st, st.threads[t]))
    && (forall i | 0 <= i < |st.log| :: LoggedOption(st, i))
  }

  /** The options of the records that exist are never changed. */
  predicate KeepsOptions(st: State, post: State) {
    && |st.sockets| <= |post.sockets| && |st.servers| <= |post.servers|
    && (forall s | 0 <= s < |st.sockets| :: post.sockets[s].allowHalfOpen == st.sockets[s].allowHalfOpen)
    && (forall v | 0 <= v < |st.servers| :: post.servers[v].allowHalfOpen == st.servers[v].allowHalfOpen)
  }

  lemma ActKeepsOption(st: State, pc: Pc, c: Choice)
    requires Exists(st, SocketOf(pc), ServerOf(pc)) && Act(st, pc, c).Move?
    ensures var action := Act(st, pc, c).action;
            && (action.SetSocket? ==> SocketAllows(st, action.s, action.socket.allowHalfOpen))
            && (action.SetServer? ==> ServerAllows(st, action.v, action.server.allowHalfOpen))
  {
  }

  lemma OptionsKept(st: State, step: Step)
    ensures KeepsOptions(st, Next(st, step))
  {
    if !step.Advance? {
      OtherSteps(st, step);
    } else if Runnable(st, step.t) && Act(st, st.threads[step.t].pc, step.choice).Move? {
      ActKeepsOption(st, st.threads[step.t].pc, step.choice);
    }
  }

  lemma CarriesOptionStays(st: State, post: State, th: Thread)
    requires KeepsOptions(st, post) && CarriesOption(st, th)
    ensures CarriesOption(post, th)
  {
  }

  /** `post` has the records of `st`, and whatever `action` adds to them. */
  predicate AddsTo(st: State, action: Action, post: State) {
    && KeepsOptions(st, post)
    && (action.AddSocket? ==> SocketAllows(post, |st.sockets|, action.socket.allowHalfOpen))
    && (action.AddServer? ==> ServerAllows(post, |st.servers|, action.server.allowHalfOpen))
  }

  lemma ActCarriesOptionOfServer(st: State, th: Thread, c: Choice, post: State)
    requires Exists(st, SocketOf(th.pc), ServerOf(th.pc)) && Act(st, th.pc, c).Move? && CarriesOption(st, th)
    requires ServerOf(th.pc).Some? && AddsTo(st, Act(st, th.pc, c).action, post)
    ensures CarriesOption(post, th.(pc := Act(st, th.pc, c).pc))
  {
  }

  lemma ActCarriesOptionOfSocket(st: State, th: Thread, c: Choice, post: State)
    requires Exists(st, SocketOf(th.pc), ServerOf(th.pc)) && Act(st, th.pc, c).Move? && CarriesOption(st, th)
    requires ServerOf(th.pc).None? && AddsTo(st, Act(st, th.pc, c).action, post)
    ensures CarriesOption(post, th.(pc := Act(st, th.pc, c).pc))
  {
  }

  lemma ActSpawnsWithoutOption(st: State, pc: Pc, c: Choice, post: State)
    requires Exists(st, SocketOf(pc), ServerOf(pc)) && Act(st, pc, c).Move?
    ensures Act(st, pc, c).action.Spawn? ==> CarriesOption(post, Act(st, pc, c).action.thread)
  {
  }

  lemma ActAddsTo(st: State, t: nat, c: Choice)
    requires Runnable(st, t) && Act(st, st.threads[t].pc, c).Move?
    ensures AddsTo(st, Act(st, st.threads[t].pc, c).action, Next(st, Advance(t, c)))
  {
    OptionsKept(st, Advance(t, c));
  }

  lemma ActLogsOption(st: State, th: Thread, c: Choice)
    requires Exists(st, SocketOf(th.pc), ServerOf(th.pc)) && Act(st, th.pc, c).Move? && CarriesOption(st, th)
    ensures var action := Act(st, th.pc, c).action;
            action.Enqueue? && action.job.Connection? ==>
              exists allow :: Accepted(st, action.job.v, action.job.s, allow)
  {
    if th.pc.QueueConnection? {
      assert Accepted(st, th.pc.v, th.pc.s, th.pc.allow);
    }
  }

  lemma OptionsFitThread(st: State, step: Step, u: nat)
    requires OptionsFit(st) && u < |Next(st, step).threads|
    ensures CarriesOption(Next(st, step), Next(st, step).threads[u])
  {
    OptionsKept(st, step);
    if u < |st.threads| {
      CarriesOptionStays(st, Next(st, step), st.threads[u]);
    }
    if !step.Advance? {
      OtherSteps(st, step);
    } else if Runnable(st, step.t) && Act(st, st.threads[step.t].pc, step.choice).Move? {
      var out := Act(st, st.threads[step.t].pc, step.choice);
      var th, post := st.threads[step.t], Next(st, step);
      ThreadsPerform(st, step.t, out.pc, out.action, u);
      ActAddsTo(st, step.t, step.choice);
      ActSpawnsWithoutOption(st, th.pc, step.choice, post);
      if ServerOf(th.pc).Some? {
        ActCarriesOptionOfServer(st, th, step.choice, post);
      } else {
        ActCarriesOptionOfSocket(st, th, step.choice, post);
      }
    }
  }

  lemma OptionsFitEntry(st: State, step: Step, i: nat)
    requires OptionsFit(st) && i < |Next(st, step).log|
    ensures LoggedOption(Next(st, step), i)
  {
    OptionsKept(st, step);
    LogGrows(st, step);
    if i < |st.log| {
      assert LoggedOption(st, i);
    } else if step.Advance? {
      ActLogsOption(st, st.threads[step.t], step.choice);
    }
  }

  /** A step enqueues one job at most, that of its thread's action or the pump. */
  lemma LogGrows(st: State, step: Step)
    ensures var post := Next(st, step);
            && st.log <= post.log && |post.log| <= |st.log| + 1
            && (|post.log| == |st.log| + 1 ==>
                  if step.Advance? then
                    Runnable(st, step.t) && Act(st, st.threads[step.t].pc, step.choice).Move?
                    && Act(st, st.threads[step.t].pc, step.choice).action == Enqueue(post.log[|st.log|].job)
                  else post.log[|st.log|].job == Pump)
  {
    if !step.Advance? {
      OtherSteps(st, step);
    }
  }

  lemma {:induction false} OptionsAlwaysFit(steps: seq<Step>)
    ensures OptionsFit(Reached(steps))
  {
    if steps == [] {
    } else {
      var st, step := Reached(steps[..|steps| - 1]), steps[|steps| - 1];
      OptionsAlwaysFit(steps[..|steps| - 1]);
      forall u | 0 <= u < |Next(st, step).threads| ensures CarriesOption(Next(st, step), Next(st, step).threads[u]) {
        OptionsFitThread(st, step, u);
      }
      forall i | 0 <= i < |Next(st, step).log| ensures LoggedOption(Next(st, step), i) {
        OptionsFitEntry(st, step, i);
      }
    }
  }

  /** In every run an announced socket is half-open exactly when its server allows it. */
  lemma AcceptedSocketsInherit(steps: seq<Step>, i: nat)
    requires i < |Reached(steps).log| && Reached(steps).log[i].job.Connection?
    ensures var st, job := Reached(steps), Reached(steps).log[i].job;
            && job.v < |st.servers| && job.s < |st.sockets|
            && st.sockets[job.s].allowHalfOpen == st.servers[job.v].allowHalfOpen
  {
    OptionsAlwaysFit(steps);
    assert LoggedOption(Reached(steps), i);
  }
}
