/**
 * What every call does, over every interleaving: where its thread stands, what it has enqueued,
 * and what is true of its socket or server once it has returned.
 */
module Scripts {
  import opened Records
  import opened Machine
  import opened Grammar
  import opened Attribution
  import CloseOnce

  // ---------------------------------------------------------------- scripts

  /** `socket_finish` on `s` after `before` has been enqueued. */
  predicate FinishesAt(pc: Pc, tr: seq<Job>, before: seq<Job>, s: nat) {
    match pc
    case Claim(r) => r == s && tr == before
    case QueueClose(r, _) => r == s && tr == before
    case Release => ClosedAfter(tr, before, s)
    case Done => tr == before || ClosedAfter(tr, before, s)
    case _ => false
  }

  predicate ClosedAfter(tr: seq<Job>, before: seq<Job>, s: nat) {
    |tr| == |before| + 1 && tr[..|before|] == before && tr[|before|].Close? && tr[|before|].s == s
  }

  predicate DestroysAt(pc: Pc, tr: seq<Job>, s: nat, withError: bool) {
    match pc
    case SetError(r) => r == s && withError && tr == []
    case QueueError(r) => r == s && withError && tr == []
    case Shutdown(r) => r == s && tr == if withError then [Error(s)] else []
    case _ => FinishesAt(pc, tr, if withError then [Error(s)] else [], s)
  }

  /** The creators may have been the one that started the pump. */
  predicate PumpAtMost(tr: seq<Job>) {
    tr == [] || tr == [Job.Pump]
  }

  predicate CreatesAt(pc: Pc, tr: seq<Job>, allow: bool, connects: bool) {
    match pc
    case OpenSocket(a, c) => a == allow && c == connects && tr == []
    case StartPump(next) => tr == [] && (if connects then next.ThenConnect? else next.ReturnSocket?)
    case QueuePump(next) => tr == [] && (if connects then next.ThenConnect? else next.ReturnSocket?)
    case BeginConnect(_) => connects && PumpAtMost(tr)
    case SpawnConnector(_) => connects && PumpAtMost(tr)
    case Done => PumpAtMost(tr)
    case _ => false
  }

  predicate ServesAt(pc: Pc, tr: seq<Job>, allow: bool) {
    match pc
    case OpenServer(a) => a == allow && tr == []
    case StartPump(next) => tr == [] && next.ReturnServer?
    case QueuePump(next) => tr == [] && next.ReturnServer?
    case Done => PumpAtMost(tr)
    case _ => false
  }

  predicate TimesAt(pc: Pc, tr: seq<Job>, s: nat, ms: int) {
    match pc
    case SetTimer(r, m) => r == s && m == ms && tr == []
    case Wake(r, m) => r == s && m == ms && ms > 0 && tr == []
    case Ring(r) => r == s && ms > 0 && tr == []
    case Done => tr == [] || (ms > 0 && tr == [Timeout(s)])
    case _ => false
  }

  /** `listening connection*`, with the pump should this thread have started it. */
  predicate Announced(tr: seq<Job>, v: nat) {
    && |tr| > 0 && tr[0] == Job.Listening(v)
    && forall i | 0 < i < |tr| :: tr[i] == Job.Pump || (tr[i].Connection? && tr[i].v == v)
  }

  predicate ListensAt(pc: Pc, tr: seq<Job>, v: nat) {
    match pc
    case Bind(u) => u == v && tr == []
    case QueueListening(u, _) => u == v && tr == []
    case Check(u, _) => u == v && Announced(tr, v)
    case Accept(u, _) => u == v && Announced(tr, v)
    case StartPump(next) => next.ThenAccept? && next.v == v && Announced(tr, v)
    case QueuePump(next) => next.ThenAccept? && next.v == v && Announced(tr, v)
    case PublishAccepted(u, _, _) => u == v && Announced(tr, v)
    case SpawnReader(u, _, _) => u == v && Announced(tr, v)
    case CountConnection(u, _, _) => u == v && Announced(tr, v)
    case QueueConnection(u, _, _) => u == v && Announced(tr, v)
    case Done => tr == [ServerError(v)] || Announced(tr, v)
    case _ => false
  }

  predicate ClosesServerAt(pc: Pc, tr: seq<Job>, v: nat) {
    match pc
    case ClaimServer(u) => u == v && tr == []
    case QueueServerClose(u) => u == v && tr == []
    case Release => tr == [ServerClose(v)]
    case Done => tr == [] || tr == [ServerClose(v)]
    case _ => false
  }

  /** Where the thread of a call stands, and what it has enqueued by then. */
  predicate CallAt(op: Op, pc: Pc, tr: seq<Job>) {
    match op
    case NewSocket(allow) => CreatesAt(pc, tr, allow, false)
    case CreateConnection(allow) => CreatesAt(pc, tr, allow, true)
    case Connect(s) => tr == [] && (pc == BeginConnect(s) || pc == SpawnConnector(s) || pc == Done)
    case ConnectIpc(s) => (pc == QueueIpcError(s) && tr == []) || FinishesAt(pc, tr, [Error(s)], s)
    case DestroySoon(s) => FinishesAt(pc, tr, [], s)
    case Destroy(s, withError) => DestroysAt(pc, tr, s, withError)
    case SetTimeout(s, ms) => TimesAt(pc, tr, s, ms)
    case NewServer(allow) => ServesAt(pc, tr, allow)
    case Listen(v) => ListensAt(pc, tr, v)
    case CloseServer(v) => ClosesServerAt(pc, tr, v)
  }

  /** A script: where a call may stand and what it may have enqueued. */
  type Script = (Op, Pc, seq<Job>) -> bool

  predicate Goes(script: Script, op: Op, pc: Pc, tr: seq<Job>) {
    script(op, pc, tr)
  }

  // -------------------------------------------------------------- one step

  lemma ActFinishes(st: State, pc: Pc, c: Choice, tr: seq<Job>, before: seq<Job>, s: nat)
    requires FinishesAt(pc, tr, before, s)
    requires Exists(st, SocketOf(pc), ServerOf(pc)) && Act(st, pc, c).Move?
    ensures FinishesAt(Act(st, pc, c).pc, Extended(tr, Act(st, pc, c).action), before, s)
  {
  }

  lemma ActDestroys(st: State, pc: Pc, c: Choice, tr: seq<Job>, s: nat, withError: bool)
    requires DestroysAt(pc, tr, s, withError)
    requires Exists(st, SocketOf(pc), ServerOf(pc)) && Act(st, pc, c).Move?
    ensures DestroysAt(Act(st, pc, c).pc, Extended(tr, Act(st, pc, c).action), s, withError)
  {
    if !pc.SetError? && !pc.QueueError? && !pc.Shutdown? {
      ActFinishes(st, pc, c, tr, if withError then [Error(s)] else [], s);
    }
  }

  lemma ActCreates(st: State, pc: Pc, c: Choice, tr: seq<Job>, allow: bool, connects: bool)
    requires CreatesAt(pc, tr, allow, connects)
    requires Exists(st, SocketOf(pc), ServerOf(pc)) && Act(st, pc, c).Move?
    ensures CreatesAt(Act(st, pc, c).pc, Extended(tr, Act(st, pc, c).action), allow, connects)
  {
  }

  lemma ActTimes(st: State, pc: Pc, c: Choice, tr: seq<Job>, s: nat, ms: int)
    requires TimesAt(pc, tr, s, ms)
    requires Exists(st, SocketOf(pc), ServerOf(pc)) && Act(st, pc, c).Move?
    ensures TimesAt(Act(st, pc, c).pc, Extended(tr, Act(st, pc, c).action), s, ms)
  {
  }

  lemma ActListens(st: State, pc: Pc, c: Choice, tr: seq<Job>, v: nat)
    requires ListensAt(pc, tr, v)
    requires Exists(st, SocketOf(pc), ServerOf(pc)) && Act(st, pc, c).Move?
    ensures ListensAt(Act(st, pc, c).pc, Extended(tr, Act(st, pc, c).action), v)
  {
  }

  lemma ActServesOrCloses(st: State, op: Op, pc: Pc, c: Choice, tr: seq<Job>)
    requires Goes(CallAt, op, pc, tr) && (op.NewServer? || op.CloseServer? || op.Connect? || op.ConnectIpc?)
    requires Exists(st, SocketOf(pc), ServerOf(pc)) && Act(st, pc, c).Move?
    ensures Goes(CallAt, op, Act(st, pc, c).pc, Extended(tr, Act(st, pc, c).action))
  {
    if op.ConnectIpc? && !pc.QueueIpcError? {
      ActFinishes(st, pc, c, tr, [Error(op.s)], op.s);
    }
  }

  lemma ActKeepsSocketScript(st: State, op: Op, pc: Pc, c: Choice, tr: seq<Job>)
    requires Goes(CallAt, op, pc, tr) && (op.DestroySoon? || op.Destroy? || op.SetTimeout?)
    requires Exists(st, SocketOf(pc), ServerOf(pc)) && Act(st, pc, c).Move?
    ensures Goes(CallAt, op, Act(st, pc, c).pc, Extended(tr, Act(st, pc, c).action))
  {
    match op {
      case DestroySoon(s) => ActFinishes(st, pc, c, tr, [], s);
      case Destroy(s, withError) => ActDestroys(st, pc, c, tr, s, withError);
      case SetTimeout(s, ms) => ActTimes(st, pc, c, tr, s, ms);
    }
  }

  lemma ActKeepsMakersScript(st: State, op: Op, pc: Pc, c: Choice, tr: seq<Job>)
    requires Goes(CallAt, op, pc, tr) && (op.NewSocket? || op.CreateConnection? || op.Listen?)
    requires Exists(st, SocketOf(pc), ServerOf(pc)) && Act(st, pc, c).Move?
    ensures Goes(CallAt, op, Act(st, pc, c).pc, Extended(tr, Act(st, pc, c).action))
  {
    match op {
      case NewSocket(allow) => ActCreates(st, pc, c, tr, allow, false);
      case CreateConnection(allow) => ActCreates(st, pc, c, tr, allow, true);
      case Listen(v) => ActListens(st, pc, c, tr, v);
    }
  }

  lemma ActSpawnsNoCalls(st: State, pc: Pc, c: Choice)
    requires Exists(st, SocketOf(pc), ServerOf(pc)) && Act(st, pc, c).Move?
    ensures Act(st, pc, c).action.Spawn? ==> !Act(st, pc, c).action.thread.role.Caller?
  {
  }

  // --------------------------------------------------------------- all runs

  predicate Follows(script: Script, st: State, t: nat) {
    t < |st.threads| && st.threads[t].role.Caller? ==>
      script(st.threads[t].role.op, st.threads[t].pc, Trace(st.log, t))
  }

  lemma FollowsAdvance(script: Script, st: State, t: nat, c: Choice, u: nat)
    requires Follows(script, st, u) && AuthorsExist(st) && Runnable(st, t) && Act(st, st.threads[t].pc, c).Move?
    requires var out := Act(st, st.threads[t].pc, c);
             u == t && st.threads[t].role.Caller? ==>
               script(st.threads[t].role.op, out.pc, Extended(Trace(st.log, t), out.action))
    ensures Follows(script, Next(st, Advance(t, c)), u)
  {
    var out := Act(st, st.threads[t].pc, c);
    TracePerform(st, t, out.pc, out.action, u);
    ThreadsPerform(st, t, out.pc, out.action, u);
    ActSpawnsNoCalls(st, st.threads[t].pc, c);
  }

  lemma FollowsOther(script: Script, st: State, step: Step, u: nat)
    requires Follows(script, st, u) && AuthorsExist(st) && !step.Advance?
    requires step.Invoke? ==> script(step.op, EntryPoint(step.op), [])
    ensures Follows(script, Next(st, step), u)
  {
    OtherSteps(st, step);
    TraceOfAppend(st.log, Entry(Pump, MainThread), u);
    assert Trace(Next(st, step).log, u) == Trace(st.log, u);
    if step.Invoke? && u == |st.threads| {
      TraceOfStranger(st.log, u);
    }
  }

  lemma CallsBeginByScript(op: Op)
    ensures Goes(CallAt, op, EntryPoint(op), [])
  {
  }

  predicate OnSocket(op: Op) {
    op.DestroySoon? || op.Destroy? || op.SetTimeout?
  }

  predicate Makes(op: Op) {
    op.NewSocket? || op.CreateConnection? || op.Listen?
  }

  lemma FollowsOwnStep(st: State, t: nat, c: Choice)
    requires Follows(CallAt, st, t) && AuthorsExist(st) && Runnable(st, t) && Act(st, st.threads[t].pc, c).Move?
    ensures Follows(CallAt, Next(st, Advance(t, c)), t)
  {
    var th := st.threads[t];
    if th.role.Caller? {
      if OnSocket(th.role.op) {
        ActKeepsSocketScript(st, th.role.op, th.pc, c, Trace(st.log, t));
      } else if Makes(th.role.op) {
        ActKeepsMakersScript(st, th.role.op, th.pc, c, Trace(st.log, t));
      } else {
        ActServesOrCloses(st, th.role.op, th.pc, c, Trace(st.log, t));
      }
    }
    FollowsAdvance(CallAt, st, t, c, t);
  }

  lemma FollowsNext(st: State, step: Step, u: nat)
    requires Follows(CallAt, st, u) && AuthorsExist(st)
    ensures Follows(CallAt, Next(st, step), u)
  {
    if !step.Advance? {
      if step.Invoke? {
        CallsBeginByScript(step.op);
      }
      FollowsOther(CallAt, st, step, u);
    } else if Runnable(st, step.t) && Act(st, st.threads[step.t].pc, step.choice).Move? {
      if u == step.t {
        FollowsOwnStep(st, u, step.choice);
      } else {
        FollowsAdvance(CallAt, st, step.t, step.choice, u);
      }
    }
  }

  predicate ByScript(st: State, t: nat) {
    Follows(CallAt, st, t)
  }

  /** Every call of every program goes by its script. */
  lemma {:induction false} CallsGoByScript(steps: seq<Step>, t: nat)
    ensures ByScript(Reached(steps), t)
  {
    if steps == [] {
    } else {
      CallsGoByScript(steps[..|steps| - 1], t);
      AuthorsAlwaysExist(steps[..|steps| - 1]);
      FollowsNext(Reached(steps[..|steps| - 1]), steps[|steps| - 1], t);
    }
  }

  // ------------------------------------------------- what is done at the end

  /** Past the claim of a record, won or lost. */
  predicate PastClaim(pc: Pc) {
    pc.QueueClose? || pc.Release? || pc.Done?
  }

  predicate PastServerClaim(pc: Pc) {
    pc.QueueServerClose? || pc.Release? || pc.Done?
  }

  /** A thread that serves a socket leaves it closed, a `close` its server; a `destroy` with an error
      has set the flag from its first region on. */
  predicate WorkIsDone(st: State, th: Thread) {
    && (Serves(th.role).Some? && PastClaim(th.pc) ==> SocketClosed(st, Serves(th.role).value))
    && (th.role.Caller? && th.role.op.CloseServer? && PastServerClaim(th.pc) ==> ServerClosed(st, th.role.op.v))
    && (th.role.Caller? && th.role.op.Destroy? && th.role.op.withError && !th.pc.SetError? ==>
          SocketFailed(st, th.role.op.s))
  }

  /** A thread stands where its role lets it. */
  predicate InPlace(role: Role, pc: Pc, tr: seq<Job>) {
    match role
    case Caller(op) => Goes(CallAt, op, pc, tr)
    case _ => InRole(role, pc, tr)
  }

  lemma ActComesFromClaim(st: State, role: Role, pc: Pc, c: Choice, tr: seq<Job>)
    requires InPlace(role, pc, tr) && Serves(role).Some?
    requires Exists(st, SocketOf(pc), ServerOf(pc)) && Act(st, pc, c).Move?
    ensures PastClaim(Act(st, pc, c).pc) ==> PastClaim(pc) || pc == Claim(Serves(role).value)
  {
    if role.Caller? {
    } else {
    }
  }

  lemma ActComesFromServerClaim(st: State, v: nat, pc: Pc, c: Choice, tr: seq<Job>)
    requires ClosesServerAt(pc, tr, v)
    requires Exists(st, SocketOf(pc), ServerOf(pc)) && Act(st, pc, c).Move?
    ensures PastServerClaim(Act(st, pc, c).pc) ==> PastServerClaim(pc) || pc == ClaimServer(v)
  {
  }

  lemma ActComesFromSetError(st: State, s: nat, pc: Pc, c: Choice, tr: seq<Job>)
    requires DestroysAt(pc, tr, s, true)
    requires Exists(st, SocketOf(pc), ServerOf(pc)) && Act(st, pc, c).Move?
    ensures pc.SetError? ==> pc == SetError(s)
    ensures !Act(st, pc, c).pc.SetError?
  {
  }

  lemma ClaimCloses(st: State, t: nat, c: Choice)
    requires Runnable(st, t)
    ensures st.threads[t].pc.Claim? ==> SocketClosed(Next(st, Advance(t, c)), st.threads[t].pc.s)
    ensures st.threads[t].pc.ClaimServer? ==> ServerClosed(Next(st, Advance(t, c)), st.threads[t].pc.v)
    ensures st.threads[t].pc.SetError? ==> SocketFailed(Next(st, Advance(t, c)), st.threads[t].pc.s)
  {
  }

  /** What is done stays done. */
  lemma FlagsStay(st: State, step: Step, s: nat, v: nat)
    ensures SocketClosed(st, s) ==> SocketClosed(Next(st, step), s)
    ensures ServerClosed(st, v) ==> ServerClosed(Next(st, step), v)
    ensures SocketFailed(st, s) ==> SocketFailed(Next(st, step), s)
  {
    if SocketClosed(st, s) {
      CloseOnce.ClosedStaysNext(st, step, CloseOnce.TheSocket(s));
    }
    if ServerClosed(st, v) {
      CloseOnce.ClosedStaysNext(st, step, CloseOnce.TheServer(v));
    }
    if !step.Advance? {
      OtherSteps(st, step);
    } else if Runnable(st, step.t) && Act(st, st.threads[step.t].pc, step.choice).Move? {
      var out := Act(st, st.threads[step.t].pc, step.choice);
      CloseOnce.ActErrsProperly(st, st.threads[step.t].pc, step.choice, s);
      CloseOnce.FlagKept(st, step.t, out.pc, out.action, s);
    }
  }

  function SocketServed(role: Role): nat {
    if Serves(role).Some? then Serves(role).value else 0
  }

  function ServerClosedBy(role: Role): nat {
    if role.Caller? && role.op.CloseServer? then role.op.v else 0
  }

  /** The thread that moves. */
  lemma WorkIsDoneByMover(st: State, t: nat, c: Choice)
    requires Runnable(st, t) && Act(st, st.threads[t].pc, c).Move? && WorkIsDone(st, st.threads[t])
    requires InPlace(st.threads[t].role, st.threads[t].pc, Trace(st.log, t))
    ensures WorkIsDone(Next(st, Advance(t, c)), st.threads[t].(pc := Act(st, st.threads[t].pc, c).pc))
  {
    var th, tr := st.threads[t], Trace(st.log, t);
    FlagsStay(st, Advance(t, c), SocketServed(th.role), ServerClosedBy(th.role));
    ClaimCloses(st, t, c);
    if Serves(th.role).Some? {
      ActComesFromClaim(st, th.role, th.pc, c, tr);
    }
    if th.role.Caller? && th.role.op.CloseServer? {
      ActComesFromServerClaim(st, th.role.op.v, th.pc, c, tr);
    }
    if th.role.Caller? && th.role.op.Destroy? && th.role.op.withError {
      ActComesFromSetError(st, th.role.op.s, th.pc, c, tr);
    }
  }

  lemma NewThreadsHaveWork(st: State, pc: Pc, c: Choice, op: Op)
    ensures Exists(st, SocketOf(pc), ServerOf(pc)) && Act(st, pc, c).Move? && Act(st, pc, c).action.Spawn? ==>
              !Act(st, pc, c).action.thread.role.Caller? && !PastClaim(Act(st, pc, c).action.thread.pc)
    ensures (Serves(Caller(op)).Some? ==> !PastClaim(EntryPoint(op)))
            && (op.CloseServer? ==> !PastServerClaim(EntryPoint(op)))
            && (op.Destroy? && op.withError ==> EntryPoint(op).SetError?)
  {
  }

  lemma WorkIsDoneNext(st: State, step: Step, u: nat)
    requires u < |st.threads| ==> WorkIsDone(st, st.threads[u])
    requires u < |st.threads| ==> InPlace(st.threads[u].role, st.threads[u].pc, Trace(st.log, u))
    requires u < |Next(st, step).threads|
    ensures WorkIsDone(Next(st, step), Next(st, step).threads[u])
  {
    if u < |st.threads| {
      FlagsStay(st, step, SocketServed(st.threads[u].role), ServerClosedBy(st.threads[u].role));
    }
    if !step.Advance? {
      OtherSteps(st, step);
      if step.Invoke? && u == |st.threads| {
        NewThreadsHaveWork(st, Done, Ok, step.op);
      }
    } else if Runnable(st, step.t) && Act(st, st.threads[step.t].pc, step.choice).Move? {
      var out := Act(st, st.threads[step.t].pc, step.choice);
      ThreadsPerform(st, step.t, out.pc, out.action, u);
      if u == step.t {
        WorkIsDoneByMover(st, u, step.choice);
      } else if u == |st.threads| {
        NewThreadsHaveWork(st, st.threads[step.t].pc, step.choice, NewSocket(false));
      }
    }
  }

  /** Every thread that has gone past its claim has done its work: when a call that destroys a socket
      or closes a server has returned, or a connect or read thread has ended, the record is closed. */
  lemma {:induction false} WorkIsAlwaysDone(steps: seq<Step>, t: nat)
    requires t < |Reached(steps).threads|
    ensures WorkIsDone(Reached(steps), Reached(steps).threads[t])
  {
    if steps == [] {
    } else {
      var init := steps[..|steps| - 1];
      if t < |Reached(init).threads| {
        WorkIsAlwaysDone(init, t);
        CallsGoByScript(init, t);
        AlwaysInRole(init);
        assert ThreadInRole(Reached(init), t);
      }
      WorkIsDoneNext(Reached(init), steps[|steps| - 1], t);
    }
  }

  /** Said of the calls: a call that has returned has closed what it was called on. */
  lemma ReturnedCallsHaveClosed(steps: seq<Step>, t: nat)
    requires t < |Reached(steps).threads| && Reached(steps).threads[t].pc == Done
    requires Reached(steps).threads[t].role.Caller?
    ensures match Reached(steps).threads[t].role.op
            case DestroySoon(s) => SocketClosed(Reached(steps), s)
            case Destroy(s, withError) => SocketClosed(Reached(steps), s) && (withError ==> SocketFailed(Reached(steps), s))
            case ConnectIpc(s) => SocketClosed(Reached(steps), s)
            case CloseServer(v) => ServerClosed(Reached(steps), v)
            case _ => true
  {
    WorkIsAlwaysDone(steps, t);
  }
}
