/** The order of events a client socket can see. */
module Grammar {
  import opened Records
  import opened Machine

  // ------------------------------------------------------------- sentences

  /** `lookup error`: the lookup or the dial failed. */
  predicate Refused(tr: seq<Job>, s: nat) {
    |tr| == 2 && tr[0].Lookup? && tr[0].s == s && tr[1] == Error(s)
  }

  /** `lookup connect ready data*` (one job emits `connect` and `ready`). */
  predicate Streaming(tr: seq<Job>, s: nat) {
    && |tr| >= 2 && tr[0] == Lookup(s, true) && tr[1] == ConnectReady(s)
    && forall i | 2 <= i < |tr| :: tr[i].Data? && tr[i].s == s && 0 < tr[i].count <= BUFFER_SIZE
  }

  /** `lookup connect ready data* end`. */
  predicate Ended(tr: seq<Job>, s: nat) {
    |tr| > 0 && tr[|tr| - 1] == End(s) && Streaming(tr[..|tr| - 1], s)
  }

  /** What precedes the close in the life of a client socket. */
  predicate Sentence(tr: seq<Job>, s: nat) {
    Refused(tr, s) || Ended(tr, s)
  }

  /** A sentence followed by the close of that sentence's outcome, whoever else may have set the flag. */
  predicate ClosedSentence(tr: seq<Job>, s: nat) {
    |tr| > 0 && tr[|tr| - 1].Close? && tr[|tr| - 1].s == s && Sentence(tr[..|tr| - 1], s)
  }

  /** `data*`: all an accepted socket's read loop enqueues before the end. */
  predicate Receiving(tr: seq<Job>, s: nat) {
    forall i | 0 <= i < |tr| :: tr[i].Data? && tr[i].s == s && 0 < tr[i].count <= BUFFER_SIZE
  }

  /** `data* end`. */
  predicate Received(tr: seq<Job>, s: nat) {
    |tr| > 0 && tr[|tr| - 1] == End(s) && Receiving(tr[..|tr| - 1], s)
  }

  predicate ClosedReceived(tr: seq<Job>, s: nat) {
    |tr| > 0 && tr[|tr| - 1].Close? && tr[|tr| - 1].s == s && Received(tr[..|tr| - 1], s)
  }

  // ----------------------------------------------------------------- traces

  /** The jobs thread `t` has enqueued, in order. */
  function Trace(log: seq<Entry>, t: nat): seq<Job> {
    if log == [] then []
    else
      var last, before := log[|log| - 1], Trace(log[..|log| - 1], t);
      if last.origin == By(t) then before + [last.job] else before
  }

  lemma TraceOfAppend(log: seq<Entry>, e: Entry, t: nat)
    ensures Trace(log + [e], t) == if e.origin == By(t) then Trace(log, t) + [e.job] else Trace(log, t)
  {
    assert (log + [e])[..|log|] == log;
  }

  lemma {:induction false} TraceOfStranger(log: seq<Entry>, t: nat)
    requires forall i | 0 <= i < |log| :: log[i].origin != By(t)
    ensures Trace(log, t) == []
  {
    if log == [] {
    } else {
      TraceOfStranger(log[..|log| - 1], t);
    }
  }

  /** A trace after its thread has performed `action`. */
  function Extended(tr: seq<Job>, action: Action): seq<Job> {
    if action.Enqueue? then tr + [action.job] else tr
  }

  lemma TracePerform(st: State, t: nat, pc: Pc, action: Action, u: nat)
    requires t < |st.threads|
    ensures Trace(Perform(Moved(st, t, pc), t, action).log, u)
            == if u == t then Extended(Trace(st.log, u), action) else Trace(st.log, u)
  {
    if action.Enqueue? {
      TraceOfAppend(st.log, Entry(action.job, By(t)), u);
    }
  }

  /** What a thread has enqueued is in its trace. */
  lemma {:induction false} TraceHolds(log: seq<Entry>, t: nat, i: nat)
    requires i < |log| && log[i].origin == By(t)
    ensures exists k | 0 <= k < |Trace(log, t)| :: Trace(log, t)[k] == log[i].job
  {
    var before := Trace(log[..|log| - 1], t);
    if i == |log| - 1 {
      assert Trace(log, t)[|before|] == log[i].job;
    } else {
      TraceHolds(log[..|log| - 1], t, i);
      var k :| 0 <= k < |before| && before[k] == log[i].job;
      assert Trace(log, t)[k] == before[k];
    }
  }

  // ----------------------------------------------- threads known to the log

  predicate AuthorsExist(st: State) {
    forall i | 0 <= i < |st.log| :: st.log[i].origin.By? ==> st.log[i].origin.t < |st.threads|
  }

  lemma AuthorsExistPerform(st: State, t: nat, pc: Pc, action: Action)
    requires AuthorsExist(st) && t < |st.threads|
    ensures AuthorsExist(Perform(Moved(st, t, pc), t, action))
  {
  }

  lemma {:induction false} AuthorsAlwaysExist(steps: seq<Step>)
    ensures AuthorsExist(Reached(steps))
  {
    if steps == [] {
    } else {
      var st, step := Reached(steps[..|steps| - 1]), steps[|steps| - 1];
      AuthorsAlwaysExist(steps[..|steps| - 1]);
      if step.Advance? && Runnable(st, step.t) && Act(st, st.threads[step.t].pc, step.choice).Move? {
        var Move(pc, action) := Act(st, st.threads[step.t].pc, step.choice);
        AuthorsExistPerform(st, step.t, pc, action);
      }
    }
  }

  // ------------------------------------------------------ the connect thread

  /** What a connect thread that goes on as the read loop has enqueued by the time it is at `pc`. */
  predicate ConnectorAt(pc: Pc, tr: seq<Job>, s: nat) {
    match pc
    case Resolve(r) => r == s && tr == []
    case Dial(r) => r == s && tr == [Lookup(s, true)]
    case Publish(r) => r == s && tr == [Lookup(s, true)]
    case Announce(r) => r == s && tr == [Lookup(s, true)]
    case SetError(r) => r == s && |tr| == 1 && tr[0].Lookup? && tr[0].s == s
    case QueueError(r) => r == s && |tr| == 1 && tr[0].Lookup? && tr[0].s == s
    case Shutdown(r) => r == s && Refused(tr, s)
    case Read(r) => r == s && Streaming(tr, s)
    case Push(r, n) => r == s && Streaming(tr, s) && 0 < n <= BUFFER_SIZE
    case HalfClose(r) => r == s && Streaming(tr, s)
    case QueueEnd(r) => r == s && Streaming(tr, s)
    case Claim(r) => r == s && Sentence(tr, s)
    case QueueClose(r, _) => r == s && Sentence(tr, s)
    case Release => ClosedSentence(tr, s)
    case Done => Sentence(tr, s) || ClosedSentence(tr, s)
    case _ => false
  }

  /** The same for the read loop of an accepted socket. */
  predicate AcceptedAt(pc: Pc, tr: seq<Job>, s: nat) {
    match pc
    case Read(r) => r == s && Receiving(tr, s)
    case Push(r, n) => r == s && Receiving(tr, s) && 0 < n <= BUFFER_SIZE
    case HalfClose(r) => r == s && Receiving(tr, s)
    case QueueEnd(r) => r == s && Receiving(tr, s)
    case Claim(r) => r == s && Received(tr, s)
    case QueueClose(r, _) => r == s && Received(tr, s)
    case Release => ClosedReceived(tr, s)
    case Done => Received(tr, s) || ClosedReceived(tr, s)
    case _ => false
  }

  /** Program counters of the connect thread and the read loop proper. */
  predicate ConnectsOrReads(pc: Pc) {
    pc.Resolve? || pc.Dial? || pc.Publish? || pc.Announce? || pc.Read? || pc.Push? || pc.HalfClose? || pc.QueueEnd?
  }

  /** A thread stands, and has enqueued, what its role says. */
  predicate InRole(role: Role, pc: Pc, tr: seq<Job>) {
    match role
    case Connector(s) => ConnectorAt(pc, tr, s)
    case AcceptedReader(s) => AcceptedAt(pc, tr, s)
    case Caller(_) => !ConnectsOrReads(pc)
  }

  /** How sentences grow. */
  lemma Grows(tr: seq<Job>, job: Job, s: nat)
    ensures Streaming(tr, s) && job.Data? && job.s == s && 0 < job.count <= BUFFER_SIZE ==> Streaming(tr + [job], s)
    ensures Streaming(tr, s) && job == End(s) ==> Ended(tr + [job], s)
    ensures Sentence(tr, s) && job.Close? && job.s == s ==> ClosedSentence(tr + [job], s)
  {
    assert (tr + [job])[..|tr|] == tr;
  }

  /** The points of a connect thread before its read loop, and those of its destroy. */
  predicate BeforeReading(pc: Pc) {
    pc.Resolve? || pc.Dial? || pc.Publish? || pc.Announce? || pc.SetError? || pc.QueueError? || pc.Shutdown?
  }

  lemma ActKeepsConnecting(st: State, pc: Pc, c: Choice, tr: seq<Job>, s: nat)
    requires ConnectorAt(pc, tr, s) && BeforeReading(pc)
    requires Exists(st, SocketOf(pc), ServerOf(pc)) && Act(st, pc, c).Move?
    ensures ConnectorAt(Act(st, pc, c).pc, Extended(tr, Act(st, pc, c).action), s)
  {
  }

  lemma ActKeepsConnector(st: State, pc: Pc, c: Choice, tr: seq<Job>, s: nat)
    requires ConnectorAt(pc, tr, s)
    requires Exists(st, SocketOf(pc), ServerOf(pc)) && Act(st, pc, c).Move?
    ensures ConnectorAt(Act(st, pc, c).pc, Extended(tr, Act(st, pc, c).action), s)
  {
    if BeforeReading(pc) {
      ActKeepsConnecting(st, pc, c, tr, s);
    } else if Act(st, pc, c).action.Enqueue? {
      Grows(tr, Act(st, pc, c).action.job, s);
    }
  }

  lemma ActKeepsAccepted(st: State, pc: Pc, c: Choice, tr: seq<Job>, s: nat)
    requires AcceptedAt(pc, tr, s)
    requires Exists(st, SocketOf(pc), ServerOf(pc)) && Act(st, pc, c).Move?
    ensures AcceptedAt(Act(st, pc, c).pc, Extended(tr, Act(st, pc, c).action), s)
  {
    var action := Act(st, pc, c).action;
    if action.Enqueue? {
      assert (tr + [action.job])[..|tr|] == tr;
    }
  }

  lemma ActKeepsCaller(st: State, pc: Pc, c: Choice)
    requires !ConnectsOrReads(pc)
    requires Exists(st, SocketOf(pc), ServerOf(pc)) && Act(st, pc, c).Move?
    ensures !ConnectsOrReads(Act(st, pc, c).pc)
  {
  }

  lemma ActStaysInRole(st: State, th: Thread, c: Choice, tr: seq<Job>)
    requires InRole(th.role, th.pc, tr)
    requires Exists(st, SocketOf(th.pc), ServerOf(th.pc)) && Act(st, th.pc, c).Move?
    ensures InRole(th.role, Act(st, th.pc, c).pc, Extended(tr, Act(st, th.pc, c).action))
  {
    match th.role {
      case Connector(s) => ActKeepsConnector(st, th.pc, c, tr, s);
      case AcceptedReader(s) => ActKeepsAccepted(st, th.pc, c, tr, s);
      case Caller(_) => ActKeepsCaller(st, th.pc, c);
    }
  }

  predicate ThreadInRole(st: State, t: nat)
    requires t < |st.threads|
  {
    InRole(st.threads[t].role, st.threads[t].pc, Trace(st.log, t))
  }

  predicate AllInRole(st: State) {
    forall t | 0 <= t < |st.threads| :: ThreadInRole(st, t)
  }

  /** Connect threads and read loops are spawned at their beginning. */
  lemma ActSpawnsInRole(st: State, pc: Pc, c: Choice)
    requires Exists(st, SocketOf(pc), ServerOf(pc)) && Act(st, pc, c).Move?
    ensures var action := Act(st, pc, c).action;
            action.Spawn? ==>
              && InRole(action.thread.role, action.thread.pc, [])
              && (action.thread.role.Connector? ==> action.thread.pc == Resolve(action.thread.role.s))
  {
  }

  lemma ThreadInRolePerform(st: State, t: nat, pc: Pc, action: Action, u: nat)
    requires AllInRole(st) && AuthorsExist(st) && t < |st.threads|
    requires u < |Perform(Moved(st, t, pc), t, action).threads|
    requires InRole(st.threads[t].role, pc, Extended(Trace(st.log, t), action))
    requires action.Spawn? ==> InRole(action.thread.role, action.thread.pc, [])
    ensures ThreadInRole(Perform(Moved(st, t, pc), t, action), u)
  {
    TracePerform(st, t, pc, action, u);
    ThreadsPerform(st, t, pc, action, u);
    if u >= |st.threads| {
      TraceOfStranger(st.log, u);
    } else if u != t {
      assert ThreadInRole(st, u);
    }
  }

  lemma ThreadInRoleAdvance(st: State, t: nat, c: Choice, u: nat)
    requires AllInRole(st) && AuthorsExist(st) && u < |Next(st, Advance(t, c)).threads|
    ensures ThreadInRole(Next(st, Advance(t, c)), u)
  {
    if Runnable(st, t) && Act(st, st.threads[t].pc, c).Move? {
      assert ThreadInRole(st, t);
      ActStaysInRole(st, st.threads[t], c, Trace(st.log, t));
      ActSpawnsInRole(st, st.threads[t].pc, c);
      ThreadInRolePerform(st, t, Act(st, st.threads[t].pc, c).pc, Act(st, st.threads[t].pc, c).action, u);
    } else {
      assert ThreadInRole(st, u);
    }
  }

  lemma ThreadInRoleOther(st: State, step: Step, u: nat)
    requires AllInRole(st) && !step.Advance? && u < |Next(st, step).threads|
    ensures ThreadInRole(Next(st, step), u)
  {
    var post := Next(st, step);
    TraceOfAppend(st.log, Entry(Pump, MainThread), u);
    assert Trace(post.log, u) == Trace(st.log, u);
    if u < |st.threads| {
      assert ThreadInRole(st, u) && post.threads[u] == st.threads[u];
    } else {
      assert post.threads[u] == Thread(EntryPoint(step.op), Caller(step.op));
    }
  }

  lemma {:induction false} AlwaysInRole(steps: seq<Step>)
    ensures AllInRole(Reached(steps))
  {
    if steps == [] {
    } else {
      var st, step := Reached(steps[..|steps| - 1]), steps[|steps| - 1];
      AlwaysInRole(steps[..|steps| - 1]);
      AuthorsAlwaysExist(steps[..|steps| - 1]);
      forall u | 0 <= u < |Next(st, step).threads| ensures ThreadInRole(Next(st, step), u) {
        if step.Advance? { ThreadInRoleAdvance(st, step.t, step.choice, u); }
        else { ThreadInRoleOther(st, step, u); }
      }
    }
  }

  /** A sentence that `tr` is the beginning of. */
  function Completed(tr: seq<Job>, s: nat): seq<Job> {
    if |tr| == 0 then [Lookup(s, false), Error(s)]
    else if |tr| == 1 then [tr[0], Error(s)]
    else if Sentence(tr, s) then tr
    else tr + [End(s)]
  }

  lemma EveryPointIsOnASentence(pc: Pc, tr: seq<Job>, s: nat)
    requires ConnectorAt(pc, tr, s)
    ensures ClosedSentence(tr, s) || (Sentence(Completed(tr, s), s) && tr <= Completed(tr, s))
  {
    if Streaming(tr, s) {
      assert (tr + [End(s)])[..|tr|] == tr;
    }
  }

  /**
   * The event grammar, over every interleaving: what the connect and read threads of a socket
   * enqueue is a prefix of `lookup (error | connect ready data* end)`, or a whole such sentence
   * followed by `close`.
   */
  lemma EventGrammar(steps: seq<Step>, t: nat, s: nat)
    requires t < |Reached(steps).threads| && Reached(steps).threads[t].role == Connector(s)
    ensures var tr := Trace(Reached(steps).log, t);
            ClosedSentence(tr, s) || exists full | Sentence(full, s) :: tr <= full
  {
    var st := Reached(steps);
    AlwaysInRole(steps);
    assert ThreadInRole(st, t);
    EveryPointIsOnASentence(st.threads[t].pc, Trace(st.log, t), s);
  }
}
