/** Which threads may finish a socket, fail it or report on it. */
module Attribution {
  import opened Base
  import opened Records
  import opened Machine

  /** The socket a thread may finish, fail or emit for, by the reason the thread exists. */
  function Serves(role: Role): Option<nat> {
    match role
    case Connector(s) => Some(s)
    case AcceptedReader(s) => Some(s)
    case Caller(DestroySoon(s)) => Some(s)
    case Caller(Destroy(s, _)) => Some(s)
    case Caller(ConnectIpc(s)) => Some(s)
    case _ => None
  }

  /** `role` is that of the connect thread of `s`, or of its read loop if it was accepted. */
  predicate LivesFor(role: Role, s: nat) {
    role == Connector(s) || role == AcceptedReader(s)
  }

  /** The socket a thread is about to finish, fail or emit for, by where it stands. */
  function Works(pc: Pc): Option<nat> {
    match pc
    case Resolve(s) => Some(s)
    case Dial(s) => Some(s)
    case Publish(s) => Some(s)
    case Announce(s) => Some(s)
    case Read(s) => Some(s)
    case Push(s, _) => Some(s)
    case HalfClose(s) => Some(s)
    case QueueEnd(s) => Some(s)
    case SetError(s) => Some(s)
    case QueueError(s) => Some(s)
    case Shutdown(s) => Some(s)
    case QueueIpcError(s) => Some(s)
    case Claim(s) => Some(s)
    case QueueClose(s, _) => Some(s)
    case _ => None
  }

  /** The steps of making, accepting and announcing sockets, which nobody takes to finish one. */
  predicate Hosts(pc: Pc) {
    pc.OpenSocket? || pc.OpenServer? || pc.StartPump? || pc.QueuePump? || pc.Bind? || pc.QueueListening?
    || pc.Check? || pc.Accept? || pc.PublishAccepted? || pc.SpawnReader? || pc.CountConnection? || pc.QueueConnection?
  }

  /** The socket whose life a job reports; timeouts and connection events report none. */
  function About(job: Job): Option<nat> {
    match job
    case Lookup(s, _) => Some(s)
    case ConnectReady(s) => Some(s)
    case Data(s, _) => Some(s)
    case End(s) => Some(s)
    case Error(s) => Some(s)
    case Close(s, _) => Some(s)
    case _ => None
  }

  // ------------------------------------------------------------ attribution

  predicate ThreadFits(st: State, t: nat)
    requires t < |st.threads|
  {
    && (Works(st.threads[t].pc).Some? ==> Works(st.threads[t].pc) == Serves(st.threads[t].role))
    && (Serves(st.threads[t].role).Some? ==> Serves(st.threads[t].role).value < |st.sockets|)
    && (Hosts(st.threads[t].pc) ==> Serves(st.threads[t].role) == None)
  }

  predicate EntryFits(st: State, i: nat)
    requires i < |st.log|
  {
    About(st.log[i].job).Some? ==>
      && st.log[i].origin.By? && st.log[i].origin.t < |st.threads|
      && Serves(st.threads[st.log[i].origin.t].role) == About(st.log[i].job)
  }

  predicate Attributed(st: State) {
    && (forall t | 0 <= t < |st.threads| :: ThreadFits(st, t))
    && (forall i | 0 <= i < |st.log| :: EntryFits(st, i))
  }

  predicate StaysAtItsPost(st: State, pc: Pc, pc': Pc, action: Action) {
    && (Works(pc').Some? ==> Works(pc') == Works(pc))
    && (action.Enqueue? && About(action.job).Some? ==> About(action.job) == Works(pc))
    && StaysHost(st, pc, pc', action)
  }

  predicate StaysHost(st: State, pc: Pc, pc': Pc, action: Action) {
    && (Hosts(pc') ==> Hosts(pc))
    && (action.Spawn? ==>
          && Works(action.thread.pc) == Serves(action.thread.role) && !Hosts(action.thread.pc)
          && (Serves(action.thread.role).Some? ==> Serves(action.thread.role).value < |st.sockets|))
  }

  lemma ActStaysHost(st: State, pc: Pc, c: Choice)
    requires Exists(st, SocketOf(pc), ServerOf(pc)) && Act(st, pc, c).Move?
    ensures StaysHost(st, pc, Act(st, pc, c).pc, Act(st, pc, c).action)
  {
  }

  lemma ActStaysAtItsPost(st: State, pc: Pc, c: Choice)
    requires Exists(st, SocketOf(pc), ServerOf(pc)) && Act(st, pc, c).Move?
    ensures StaysAtItsPost(st, pc, Act(st, pc, c).pc, Act(st, pc, c).action)
  {
    ActStaysHost(st, pc, c);
    if Works(pc) == None {
      assert Works(Act(st, pc, c).pc) == None;
    }
  }

  lemma AttributedPerform(st: State, t: nat, pc: Pc, action: Action)
    requires Attributed(st) && t < |st.threads|
    requires StaysAtItsPost(st, st.threads[t].pc, pc, action)
    ensures Attributed(Perform(Moved(st, t, pc), t, action))
  {
    var post := Perform(Moved(st, t, pc), t, action);
    assert ThreadFits(st, t);
    forall u | 0 <= u < |post.threads| ensures ThreadFits(post, u) {
      assert u < |st.threads| ==> ThreadFits(st, u);
    }
    forall i | 0 <= i < |post.log| ensures EntryFits(post, i) {
      assert i < |st.log| ==> EntryFits(st, i);
    }
  }

  lemma AttributedOther(st: State, step: Step)
    requires Attributed(st) && !step.Advance?
    ensures Attributed(Next(st, step))
  {
    var post := Next(st, step);
    forall u | 0 <= u < |post.threads| ensures ThreadFits(post, u) {
      assert u < |st.threads| ==> ThreadFits(st, u);
    }
    forall i | 0 <= i < |post.log| ensures EntryFits(post, i) {
      assert i < |st.log| ==> EntryFits(st, i);
    }
  }

  lemma {:induction false} AlwaysAttributed(steps: seq<Step>)
    ensures Attributed(Reached(steps))
  {
    if steps == [] {
    } else {
      var st, step := Reached(steps[..|steps| - 1]), steps[|steps| - 1];
      AlwaysAttributed(steps[..|steps| - 1]);
      if !step.Advance? {
        AttributedOther(st, step);
      } else if Runnable(st, step.t) && Act(st, st.threads[step.t].pc, step.choice).Move? {
        ActStaysAtItsPost(st, st.threads[step.t].pc, step.choice);
        var Move(pc, action) := Act(st, st.threads[step.t].pc, step.choice);
        AttributedPerform(st, step.t, pc, action);
      }
    }
  }
}
