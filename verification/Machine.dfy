/**
 * The socket and server lifecycle as a step machine. Every thread step moves one
 * thread and performs at most one shared action: a lock region, an atomic
 * operation on ACTIVE_HANDLES or PUMP_STARTED, an enqueue, or a spawn. System
 * calls are resolved by the `Choice` that comes with the step.
 */
module Machine {
  import opened Base
  import opened Records

  /** An operation a caller can start at any moment on what has been handed out to it. */
  datatype Op =
    | NewSocket(allowHalfOpen: bool)
    | CreateConnection(allowHalfOpen: bool)
    | Connect(s: nat)
    | ConnectIpc(s: nat)
    | DestroySoon(s: nat)
    | Destroy(s: nat, withError: bool)
    | SetTimeout(s: nat, ms: int)
    | NewServer(allowHalfOpen: bool)
    | Listen(v: nat)
    | CloseServer(v: nat)

  /** Why a thread exists; it never changes. A `Listen` call goes on as the accept thread,
      a `SetTimeout` call as the timer thread, a connector as the read loop. */
  datatype Role = Caller(op: Op) | Connector(s: nat) | AcceptedReader(s: nat)

  /** What `socket_new_value` and `server_new_value` return to. */
  datatype Then =
    | ReturnSocket(s: nat)
    | ReturnServer(v: nat)
    | ThenConnect(s: nat)
    | ThenAccept(v: nat, s: nat, allow: bool)

  /** Program counters, named after the step that comes next. */
  datatype Pc =
    | Done
      // socket_new_value and server_new_value
    | OpenSocket(allow: bool, thenConnect: bool)
    | OpenServer(allow: bool)
    | StartPump(next: Then)
    | QueuePump(next: Then)
      // socket_connect, on the caller and then on its thread
    | BeginConnect(s: nat)
    | SpawnConnector(s: nat)
    | Resolve(s: nat)
    | Dial(s: nat)
    | Publish(s: nat)
    | Announce(s: nat)
      // start_read_loop
    | Read(s: nat)
    | Push(s: nat, count: nat)
    | HalfClose(s: nat)
    | QueueEnd(s: nat)
      // socket_destroy and connectIpcImpl
    | SetError(s: nat)
    | QueueError(s: nat)
    | Shutdown(s: nat)
    | QueueIpcError(s: nat)
      // socket_finish
    | Claim(s: nat)
    | QueueClose(s: nat, hadError: bool)
    | Release
      // start_timeout_timer
    | SetTimer(s: nat, ms: int)
    | Wake(s: nat, ms: int)
    | Ring(s: nat)
      // server_listen and its accept thread
    | Bind(v: nat)
    | QueueListening(v: nat, allow: bool)
    | Check(v: nat, allow: bool)
    | Accept(v: nat, allow: bool)
    | PublishAccepted(v: nat, s: nat, allow: bool)
    | SpawnReader(v: nat, s: nat, allow: bool)
    | CountConnection(v: nat, s: nat, allow: bool)
    | QueueConnection(v: nat, s: nat, allow: bool)
      // server_close
    | ClaimServer(v: nat)
    | QueueServerClose(v: nat)

  datatype Thread = Thread(pc: Pc, role: Role)

  /** The one shared effect of a thread step. A new record is private until its handle is
      opened, so `AddSocket` and `AddServer` create it and count it in one action. */
  datatype Action =
    | Skip
    | AddSocket(socket: SocketState)
    | SetSocket(s: nat, socket: SocketState)
    | AddServer(server: ServerState)
    | SetServer(v: nat, server: ServerState)
    | CloseHandle
    | ClaimPump
    | Enqueue(job: Job)
    | Spawn(thread: Thread)

  datatype Outcome = Blocked | Move(pc: Pc, action: Action)

  /** How the outside world resolves a step. */
  datatype Choice = Ok | Fail | Retry | Eof | Bytes(count: nat)

  datatype Origin = MainThread | By(t: nat)

  /** A job together with the thread that enqueued it. */
  datatype Entry = Entry(job: Job, origin: Origin)

  /** The main thread runs queue jobs; only the pump job takes several steps. */
  datatype MainPc = Ready | PumpTest | PumpAgain

  /** `log` holds every job ever enqueued; the queue is what follows the first `ran` of them. */
  datatype State = State(
    sockets: seq<SocketState>,
    servers: seq<ServerState>,
    threads: seq<Thread>,
    active: int,
    pumpStarted: bool,
    pumpRetired: bool,
    main: MainPc,
    log: seq<Entry>,
    ran: nat)

  datatype Step = Invoke(op: Op) | Advance(t: nat, choice: Choice) | RunJob | RunPump

  function Init(): State {
    State([], [], [], 0, false, false, Ready, [], 0)
  }

  // ---------------------------------------------------------------- naming

  function SocketOfOp(op: Op): Option<nat> {
    match op
    case Connect(s) => Some(s)
    case ConnectIpc(s) => Some(s)
    case DestroySoon(s) => Some(s)
    case Destroy(s, _) => Some(s)
    case SetTimeout(s, _) => Some(s)
    case _ => None
  }

  function ServerOfOp(op: Op): Option<nat> {
    match op
    case Listen(v) => Some(v)
    case CloseServer(v) => Some(v)
    case _ => None
  }

  function SocketOfThen(next: Then): Option<nat> {
    match next
    case ReturnSocket(s) => Some(s)
    case ReturnServer(_) => None
    case ThenConnect(s) => Some(s)
    case ThenAccept(_, s, _) => Some(s)
  }

  function ServerOfThen(next: Then): Option<nat> {
    match next
    case ReturnServer(v) => Some(v)
    case ThenAccept(v, _, _) => Some(v)
    case _ => None
  }

  /** The socket a program counter works on. */
  function SocketOf(pc: Pc): Option<nat> {
    match pc
    case StartPump(next) => SocketOfThen(next)
    case QueuePump(next) => SocketOfThen(next)
    case BeginConnect(s) => Some(s)
    case SpawnConnector(s) => Some(s)
    case Resolve(s) => Some(s)
    case Dial(s) => Some(s)
    case Publish(s) => Some(s)
    case Announce(s) => Some(s)
    case Read(s) => Some(s)
    case Push(s, _) => Some(s)
    case HalfClose(s) => Some(s)
    case QueueEnd(s) => Some(s)
    case SetError(s) => Some(s)
    case QueueError(s) => Some(s)
    case Shutdown(s) => Some(s)
    case QueueIpcError(s) => Some(s)
    case Claim(s) => Some(s)
    case QueueClose(s, _) => Some(s)
    case SetTimer(s, _) => Some(s)
    case Wake(s, _) => Some(s)
    case Ring(s) => Some(s)
    case PublishAccepted(_, s, _) => Some(s)
    case SpawnReader(_, s, _) => Some(s)
    case CountConnection(_, s, _) => Some(s)
    case QueueConnection(_, s, _) => Some(s)
    case _ => None
  }

  /** The server a program counter works on. */
  function ServerOf(pc: Pc): Option<nat> {
    match pc
    case StartPump(next) => ServerOfThen(next)
    case QueuePump(next) => ServerOfThen(next)
    case Bind(v) => Some(v)
    case QueueListening(v, _) => Some(v)
    case Check(v, _) => Some(v)
    case Accept(v, _) => Some(v)
    case PublishAccepted(v, _, _) => Some(v)
    case SpawnReader(v, _, _) => Some(v)
    case CountConnection(v, _, _) => Some(v)
    case QueueConnection(v, _, _) => Some(v)
    case ClaimServer(v) => Some(v)
    case QueueServerClose(v) => Some(v)
    case _ => None
  }

  predicate Exists(st: State, s: Option<nat>, v: Option<nat>) {
    && (s.Some? ==> s.value < |st.sockets|)
    && (v.Some? ==> v.value < |st.servers|)
  }

  /** Socket `s` has been closed. */
  predicate SocketClosed(st: State, s: nat) {
    s < |st.sockets| && st.sockets[s].closeEmitted
  }

  /** Socket `s` has been marked failed. */
  predicate SocketFailed(st: State, s: nat) {
    s < |st.sockets| && st.sockets[s].hadError
  }

  predicate ServerClosed(st: State, v: nat) {
    v < |st.servers| && st.servers[v].closeEmitted
  }

  // ---------------------------------------------------------- handing out

  /** Thread `th` is still making socket `s`, or carrying it to its connection event. */
  predicate Withholds(th: Thread, s: nat) {
    match th.pc
    case StartPump(next) => SocketOfThen(next) == Some(s)
    case QueuePump(next) => SocketOfThen(next) == Some(s)
    case BeginConnect(r) => r == s && th.role.Caller? && th.role.op.CreateConnection?
    case SpawnConnector(r) => r == s && th.role.Caller? && th.role.op.CreateConnection?
    case PublishAccepted(_, r, _) => r == s
    case SpawnReader(_, r, _) => r == s
    case CountConnection(_, r, _) => r == s
    case QueueConnection(_, r, _) => r == s
    case _ => false
  }

  /** Callers can have the socket in hand: the call that made it has returned, or its connection
      event has been taken from the queue. */
  predicate HandedOut(st: State, s: nat) {
    && (forall t | 0 <= t < |st.threads| :: !Withholds(st.threads[t], s))
    && (forall i | 0 <= i < |st.log| && st.ran <= i :: !(st.log[i].job.Connection? && st.log[i].job.s == s))
  }

  predicate ServerHandedOut(st: State, v: nat) {
    forall t | 0 <= t < |st.threads| ::
      st.threads[t].pc != StartPump(ReturnServer(v)) && st.threads[t].pc != QueuePump(ReturnServer(v))
  }

  predicate CanInvoke(st: State, op: Op) {
    && Exists(st, SocketOfOp(op), ServerOfOp(op))
    && (SocketOfOp(op).Some? ==> HandedOut(st, SocketOfOp(op).value))
    && (ServerOfOp(op).Some? ==> ServerHandedOut(st, ServerOfOp(op).value))
  }

  // ------------------------------------------------------------- behaviour

  function EntryPoint(op: Op): Pc {
    match op
    case NewSocket(allow) => OpenSocket(allow, false)
    case CreateConnection(allow) => OpenSocket(allow, true)
    case Connect(s) => BeginConnect(s)
    case ConnectIpc(s) => QueueIpcError(s)
    case DestroySoon(s) => Claim(s)
    case Destroy(s, withError) => if withError then SetError(s) else Shutdown(s)
    case SetTimeout(s, ms) => SetTimer(s, ms)
    case NewServer(allow) => OpenServer(allow)
    case Listen(v) => Bind(v)
    case CloseServer(v) => ClaimServer(v)
  }

  /** Where `socket_new_value` returns. */
  function Resume(next: Then): Pc {
    match next
    case ReturnSocket(_) => Done
    case ReturnServer(_) => Done
    case ThenConnect(s) => BeginConnect(s)
    case ThenAccept(v, s, allow) => PublishAccepted(v, s, allow)
  }

  /** The next program counter and the shared action of a thread at `pc`; `Blocked` when the
      outside world cannot answer that way there. */
  function Act(st: State, pc: Pc, c: Choice): Outcome
    requires Exists(st, SocketOf(pc), ServerOf(pc))
  {
    match pc
    case Done => Blocked
    case OpenSocket(allow, thenConnect) =>
      var next := if thenConnect then ThenConnect(|st.sockets|) else ReturnSocket(|st.sockets|);
      Move(StartPump(next), AddSocket(NewSocketState(allow)))
    case OpenServer(allow) =>
      Move(StartPump(ReturnServer(|st.servers|)), AddServer(NewServerState(allow)))
    case StartPump(next) =>
      if st.pumpStarted then Move(Resume(next), Skip) else Move(QueuePump(next), ClaimPump)
    case QueuePump(next) => Move(Resume(next), Enqueue(Pump))

    case BeginConnect(s) => Move(SpawnConnector(s), SetSocket(s, st.sockets[s].Connecting()))
    case SpawnConnector(s) => Move(Done, Spawn(Thread(Resolve(s), Connector(s))))
    case Resolve(s) =>
      if c == Ok then Move(Dial(s), Enqueue(Lookup(s, true)))
      else if c == Fail then Move(SetError(s), Enqueue(Lookup(s, false)))
      else Blocked
    case Dial(s) =>
      if c == Ok then Move(Publish(s), Skip)
      else if c == Fail then Move(SetError(s), Skip)
      else Blocked
    case Publish(s) => Move(Announce(s), SetSocket(s, st.sockets[s].Published()))
    case Announce(s) => Move(Read(s), Enqueue(ConnectReady(s)))

    case Read(s) => (
      match c
      case Bytes(n) =>
        if 0 < n <= BUFFER_SIZE then Move(Push(s, n), SetSocket(s, st.sockets[s].Received(n))) else Blocked
      case Retry => Move(Read(s), Skip)
      case Eof => Move(HalfClose(s), Skip)
      case Fail => Move(QueueEnd(s), Skip)
      case Ok => Blocked)
    case Push(s, n) => Move(Read(s), Enqueue(Data(s, n)))
    case HalfClose(s) => Move(QueueEnd(s), Skip)
    case QueueEnd(s) => Move(Claim(s), Enqueue(End(s)))

    case SetError(s) => Move(QueueError(s), SetSocket(s, st.sockets[s].Failed()))
    case QueueError(s) => Move(Shutdown(s), Enqueue(Error(s)))
    case Shutdown(s) => Move(Claim(s), Skip)
    case QueueIpcError(s) => Move(Claim(s), Enqueue(Error(s)))

    case Claim(s) =>
      if st.sockets[s].closeEmitted then Move(Done, Skip)
      else Move(QueueClose(s, st.sockets[s].hadError), SetSocket(s, st.sockets[s].Finished()))
    case QueueClose(s, hadError) => Move(Release, Enqueue(Close(s, hadError)))
    case Release => Move(Done, CloseHandle)

    case SetTimer(s, ms) =>
      Move(if ms <= 0 then Done else Wake(s, ms), SetSocket(s, st.sockets[s].Timed(ms)))
    case Wake(s, ms) => Move(if st.sockets[s].TimerDue(ms) then Ring(s) else Done, Skip)
    case Ring(s) => Move(Done, Enqueue(Timeout(s)))

    case Bind(v) =>
      if c == Ok then Move(QueueListening(v, st.servers[v].allowHalfOpen), SetServer(v, st.servers[v].Listening()))
      else if c == Fail then Move(Done, Enqueue(ServerError(v)))
      else Blocked
    case QueueListening(v, allow) => Move(Check(v, allow), Enqueue(Listening(v)))
    case Check(v, allow) => Move(if st.servers[v].StopsAccepting() then Done else Accept(v, allow), Skip)
    case Accept(v, allow) =>
      if c == Ok then
        Move(StartPump(ThenAccept(v, |st.sockets|, allow)), AddSocket(NewSocketState(allow)))
      else if c == Retry then Move(Check(v, allow), Skip) // nothing to accept, or the handshake failed
      else if c == Fail then Move(Done, Skip)
      else Blocked
    case PublishAccepted(v, s, allow) =>
      Move(SpawnReader(v, s, allow), SetSocket(s, st.sockets[s].Published()))
    case SpawnReader(v, s, allow) =>
      Move(CountConnection(v, s, allow), Spawn(Thread(Read(s), AcceptedReader(s))))
    case CountConnection(v, s, allow) =>
      Move(QueueConnection(v, s, allow), SetServer(v, st.servers[v].Counted()))
    case QueueConnection(v, s, allow) => Move(Check(v, allow), Enqueue(Connection(v, s)))

    case ClaimServer(v) =>
      if st.servers[v].closeEmitted then Move(Done, Skip)
      else Move(QueueServerClose(v), SetServer(v, st.servers[v].Finished()))
    case QueueServerClose(v) => Move(Release, Enqueue(ServerClose(v)))
  }

  /** The shared effect of `action`, performed by thread `t`. */
  function Perform(st: State, t: nat, action: Action): State {
    match action
    case Skip => st
    case AddSocket(x) => st.(sockets := st.sockets + [x], active := st.active + 1)
    case SetSocket(s, x) => if s < |st.sockets| then st.(sockets := st.sockets[s := x]) else st
    case AddServer(x) => st.(servers := st.servers + [x], active := st.active + 1)
    case SetServer(v, x) => if v < |st.servers| then st.(servers := st.servers[v := x]) else st
    case CloseHandle => st.(active := st.active - 1)
    case ClaimPump => st.(pumpStarted := true)
    case Enqueue(job) => st.(log := st.log + [Entry(job, By(t))])
    case Spawn(thread) => st.(threads := st.threads + [thread])
  }

  function Moved(st: State, t: nat, pc: Pc): State
    requires t < |st.threads|
  {
    st.(threads := st.threads[t := st.threads[t].(pc := pc)])
  }

  /** Whether thread `t` exists and what it works on exists. */
  predicate Runnable(st: State, t: nat) {
    t < |st.threads| && Exists(st, SocketOf(st.threads[t].pc), ServerOf(st.threads[t].pc))
  }

  /** One step of the whole program; a step that is not enabled changes nothing. */
  function Next(st: State, step: Step): State {
    match step
    case Invoke(op) =>
      if CanInvoke(st, op) then
        st.(threads := st.threads + [Thread(EntryPoint(op), Caller(op))])
      else st
    case Advance(t, c) =>
      if Runnable(st, t) then
        (match Act(st, st.threads[t].pc, c)
         case Blocked => st
         case Move(pc, action) => Perform(Moved(st, t, pc), t, action))
      else st
    case RunJob =>
      if st.main == Ready && st.ran < |st.log| then
        st.(ran := st.ran + 1, main := if st.log[st.ran].job == Pump then PumpTest else Ready)
      else st
    case RunPump =>
      match st.main
      case Ready => st
      case PumpTest =>
        if st.active <= 0 then st.(main := Ready, pumpRetired := true) else st.(main := PumpAgain)
      case PumpAgain => st.(main := Ready, log := st.log + [Entry(Pump, MainThread)])
  }

  /** The state after the given steps. Every interleaving of every program is some `steps`. */
  function Run(st: State, steps: seq<Step>): State {
    if steps == [] then st else Next(Run(st, steps[..|steps| - 1]), steps[|steps| - 1])
  }

  function Reached(steps: seq<Step>): State {
    Run(Init(), steps)
  }

  lemma {:induction false} RunOfConcat(st: State, first: seq<Step>, second: seq<Step>)
    ensures Run(st, first + second) == Run(Run(st, first), second)
  {
    if second == [] {
      assert first + second == first;
    } else {
      assert (first + second)[..|first + second| - 1] == first + second[..|second| - 1];
      RunOfConcat(st, first, second[..|second| - 1]);
    }
  }

  /** Thread `t` takes `st` to `post`. */
  lemma Takes(st: State, t: nat, c: Choice, pc: Pc, action: Action, post: State)
    requires Runnable(st, t) && Act(st, st.threads[t].pc, c) == Move(pc, action)
    requires post == Perform(Moved(st, t, pc), t, action)
    ensures Next(st, Advance(t, c)) == post
  {
  }

  /** Some run takes `st` to `post`. */
  ghost predicate Leads(st: State, post: State) {
    exists steps :: Run(st, steps) == post
  }

  lemma LeadsByOneStep(st: State, step: Step)
    ensures Leads(st, Next(st, step))
  {
    assert [step][..0] == [];
    assert Run(st, [step]) == Next(st, step);
  }

  lemma LeadsOnward(a: State, b: State, c: State)
    requires Leads(a, b) && Leads(b, c)
    ensures Leads(a, c)
  {
    var first, second :| Run(a, first) == b && Run(b, second) == c;
    RunOfConcat(a, first, second);
  }

  /** Thread `t` leads `st` on to `post`, the world answering with success. */
  lemma LeadsByTake(st: State, t: nat, pc: Pc, action: Action, post: State)
    requires Runnable(st, t) && Act(st, st.threads[t].pc, Ok) == Move(pc, action)
    requires post == Perform(Moved(st, t, pc), t, action)
    ensures Leads(st, post)
  {
    Takes(st, t, Ok, pc, action, post);
    LeadsByOneStep(st, Advance(t, Ok));
  }

  /** What one thread step does to the threads. */
  lemma ThreadsPerform(st: State, t: nat, pc: Pc, action: Action, u: nat)
    requires t < |st.threads|
    ensures var post := Perform(Moved(st, t, pc), t, action);
            && |post.threads| == |st.threads| + (if action.Spawn? then 1 else 0)
            && (u < |post.threads| ==>
                  post.threads[u] == if u == t then st.threads[t].(pc := pc)
                                     else if u < |st.threads| then st.threads[u]
                                     else action.thread)
  {
  }

  /** What the steps that are not thread steps do. */
  lemma OtherSteps(st: State, step: Step)
    requires !step.Advance?
    ensures var post := Next(st, step);
            && post.sockets == st.sockets && post.servers == st.servers
            && post.threads == st.threads + (if step.Invoke? && CanInvoke(st, step.op)
                                             then [Thread(EntryPoint(step.op), Caller(step.op))] else [])
            && post.log == st.log + (if step.RunPump? && st.main == PumpAgain then [Entry(Pump, MainThread)] else [])
  {
  }

  /** How one thread step changes any tally over the log and any tally over the threads. */
  lemma PerformTally(st: State, t: nat, pc: Pc, action: Action, onLog: Entry -> nat, onThreads: Thread -> nat)
    requires t < |st.threads|
    ensures var post := Perform(Moved(st, t, pc), t, action);
            && Sum(post.log, onLog)
               == Sum(st.log, onLog) + (if action.Enqueue? then onLog(Entry(action.job, By(t))) else 0)
            && Sum(post.threads, onThreads) + onThreads(st.threads[t])
               == Sum(st.threads, onThreads) + onThreads(st.threads[t].(pc := pc))
                  + (if action.Spawn? then onThreads(action.thread) else 0)
  {
    var mid := Moved(st, t, pc);
    SumOfUpdate(st.threads, t, st.threads[t].(pc := pc), onThreads);
    if action.Enqueue? {
      SumOfAppend(mid.log, Entry(action.job, By(t)), onLog);
    } else if action.Spawn? {
      SumOfAppend(mid.threads, action.thread, onThreads);
    }
  }

  /** How the steps that are not thread steps change the tallies. */
  lemma OtherTally(st: State, step: Step, onLog: Entry -> nat, onThreads: Thread -> nat)
    requires !step.Advance?
    requires onLog(Entry(Pump, MainThread)) == 0
    requires step.Invoke? ==> onThreads(Thread(EntryPoint(step.op), Caller(step.op))) == 0
    ensures Sum(Next(st, step).log, onLog) == Sum(st.log, onLog)
    ensures Sum(Next(st, step).threads, onThreads) == Sum(st.threads, onThreads)
    ensures Next(st, step).sockets == st.sockets && Next(st, step).servers == st.servers
  {
    match step {
      case Invoke(op) => SumOfAppend(st.threads, Thread(EntryPoint(op), Caller(op)), onThreads);
      case RunJob =>
      case RunPump => SumOfAppend(st.log, Entry(Pump, MainThread), onLog);
    }
  }

  /** Every thread works on records that exist, so `Runnable` never blocks a live thread. */
  predicate NothingDangles(st: State) {
    forall t | 0 <= t < |st.threads| :: Exists(st, SocketOf(st.threads[t].pc), ServerOf(st.threads[t].pc))
  }

  lemma ActStaysInRange(st: State, pc: Pc, c: Choice)
    requires Exists(st, SocketOf(pc), ServerOf(pc)) && Act(st, pc, c).Move?
    ensures var Move(pc', action) := Act(st, pc, c);
            && (SocketOf(pc').Some? ==> SocketOf(pc').value < |st.sockets| + if action.AddSocket? then 1 else 0)
            && (ServerOf(pc').Some? ==> ServerOf(pc').value < |st.servers| + if action.AddServer? then 1 else 0)
            && (action.Spawn? ==> Exists(st, SocketOf(action.thread.pc), ServerOf(action.thread.pc)))
  {
    if pc.StartPump? || pc.QueuePump? {
    } else if pc.Read? {
    } else if SocketOf(pc).None? {
    } else if ServerOf(pc).None? {
    } else {
    }
  }

  lemma DanglesNowherePerform(st: State, t: nat, pc: Pc, action: Action)
    requires NothingDangles(st) && t < |st.threads|
    requires SocketOf(pc).Some? ==> SocketOf(pc).value < |st.sockets| + if action.AddSocket? then 1 else 0
    requires ServerOf(pc).Some? ==> ServerOf(pc).value < |st.servers| + if action.AddServer? then 1 else 0
    requires action.Spawn? ==> Exists(st, SocketOf(action.thread.pc), ServerOf(action.thread.pc))
    ensures NothingDangles(Perform(Moved(st, t, pc), t, action))
  {
    var post := Perform(Moved(st, t, pc), t, action);
    forall u | 0 <= u < |post.threads| ensures Exists(post, SocketOf(post.threads[u].pc), ServerOf(post.threads[u].pc)) {
      if u < |st.threads| && u != t {
        assert post.threads[u] == st.threads[u];
      }
    }
  }

  lemma DanglesNowhereNext(st: State, step: Step)
    requires NothingDangles(st)
    ensures NothingDangles(Next(st, step))
  {
    if step.Advance? && Runnable(st, step.t) && Act(st, st.threads[step.t].pc, step.choice).Move? {
      var out := Act(st, st.threads[step.t].pc, step.choice);
      ActStaysInRange(st, st.threads[step.t].pc, step.choice);
      DanglesNowherePerform(st, step.t, out.pc, out.action);
    }
  }

  lemma {:induction false} NothingEverDangles(steps: seq<Step>)
    ensures NothingDangles(Reached(steps))
  {
    if steps == [] {
    } else {
      NothingEverDangles(steps[..|steps| - 1]);
      DanglesNowhereNext(Reached(steps[..|steps| - 1]), steps[|steps| - 1]);
    }
  }

  /** Some answer of the outside world that lets a thread at `pc` go on. */
  function SomeAnswer(pc: Pc): Choice {
    if pc.Read? then Eof else Ok
  }

  lemma ActAnswers(st: State, pc: Pc)
    requires Exists(st, SocketOf(pc), ServerOf(pc)) && pc != Done
    ensures Act(st, pc, SomeAnswer(pc)).Move?
  {
  }

  /** No thread is ever stuck inside the program: in every reached state each thread that has not
      finished works on records that exist and has an answer of the outside world to go on with. */
  lemma NoThreadIsStuck(steps: seq<Step>, t: nat)
    requires t < |Reached(steps).threads| && Reached(steps).threads[t].pc != Done
    ensures Runnable(Reached(steps), t)
    ensures exists c: Choice :: Act(Reached(steps), Reached(steps).threads[t].pc, c).Move?
  {
    NothingEverDangles(steps);
    ActAnswers(Reached(steps), Reached(steps).threads[t].pc);
  }
}
