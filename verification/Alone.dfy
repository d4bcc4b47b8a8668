/** The whole event trace of a socket on which only its own thread reports. */
module Alone {
  import opened Base
  import opened Records
  import opened Machine
  import opened Attribution
  import opened Grammar

  /** The socket on whose life the next step of a thread at `pc` enqueues a report. */
  function Reports(pc: Pc): Option<nat> {
    match pc
    case Resolve(s) => Some(s)
    case Announce(s) => Some(s)
    case Push(s, _) => Some(s)
    case QueueEnd(s) => Some(s)
    case QueueError(s) => Some(s)
    case QueueIpcError(s) => Some(s)
    case QueueClose(s, _) => Some(s)
    case _ => None
  }

  /** `t` connects or reads for `s`, and no other thread has reported on `s` or is about to. Calls
      that come too late to report anything are welcome. */
  predicate Solo(st: State, s: nat, t: nat) {
    && t < |st.threads| && LivesFor(st.threads[t].role, s)
    && (forall i | 0 <= i < |st.log| :: About(st.log[i].job) == Some(s) ==> st.log[i].origin == By(t))
    && (forall u | 0 <= u < |st.threads| && u != t :: Reports(st.threads[u].pc) != Some(s))
  }

  /** Nobody has reported on `s` or is about to. */
  predicate Unreported(st: State, s: nat) {
    && (forall i | 0 <= i < |st.log| :: About(st.log[i].job) != Some(s))
    && (forall u | 0 <= u < |st.threads| :: Reports(st.threads[u].pc) != Some(s))
  }

  /** The flags of a socket whose one reporter stands at `pc` with trace `tr`. */
  predicate FlagsAt(pc: Pc, tr: seq<Job>, hadError: bool, closed: bool, s: nat) {
    match pc
    case QueueError(_) => hadError && !closed
    case Shutdown(_) => hadError && !closed
    case Claim(_) => (hadError <==> Refused(tr, s)) && !closed
    case QueueClose(_, h) => (h <==> Refused(tr, s)) && closed
    case Release => closed && |tr| > 0 && tr[|tr| - 1] == Close(s, Refused(tr[..|tr| - 1], s))
    case Done => closed && |tr| > 0 && tr[|tr| - 1] == Close(s, Refused(tr[..|tr| - 1], s))
    case _ => !hadError && !closed
  }

  predicate SoloFlags(st: State, s: nat, t: nat) {
    Solo(st, s, t) ==> FlagsAt(st.threads[t].pc, Trace(st.log, t), SocketFailed(st, s), SocketClosed(st, s), s)
  }

  predicate FreshFlags(st: State, s: nat) {
    Unreported(st, s) ==> !SocketFailed(st, s) && !SocketClosed(st, s)
  }

  // ---------------------------------------------------------- single steps

  /** A step that fails or closes a socket leaves its thread about to report it, and a thread that
      is about to report reports. */
  predicate ReportsChanges(st: State, pc: Pc, pc': Pc, action: Action) {
    && (Reports(pc).Some? ==> action.Enqueue? && About(action.job) == Reports(pc))
    && (action.AddSocket? ==> !action.socket.hadError && !action.socket.closeEmitted)
    && (action.SetSocket? && (action.socket.hadError != SocketFailed(st, action.s)
                              || action.socket.closeEmitted != SocketClosed(st, action.s))
        ==> Reports(pc') == Some(action.s))
  }

  lemma ActReportsChanges(st: State, pc: Pc, c: Choice)
    requires Exists(st, SocketOf(pc), ServerOf(pc)) && Act(st, pc, c).Move?
    ensures ReportsChanges(st, pc, Act(st, pc, c).pc, Act(st, pc, c).action)
  {
    if Reports(pc).Some? {
    } else if ServerOf(pc).Some? {
    } else {
    }
  }

  /** The flags of `s` after `action`. */
  function FailedAfter(st: State, action: Action, s: nat): bool {
    if action.SetSocket? && action.s == s then action.socket.hadError else SocketFailed(st, s)
  }

  function ClosedAfter(st: State, action: Action, s: nat): bool {
    if action.SetSocket? && action.s == s then action.socket.closeEmitted else SocketClosed(st, s)
  }

  lemma ActKeepsConnectorFlags(st: State, pc: Pc, c: Choice, tr: seq<Job>, s: nat)
    requires ConnectorAt(pc, tr, s) && FlagsAt(pc, tr, SocketFailed(st, s), SocketClosed(st, s), s)
    requires Exists(st, SocketOf(pc), ServerOf(pc)) && Act(st, pc, c).Move?
    ensures var out := Act(st, pc, c);
            FlagsAt(out.pc, Extended(tr, out.action), FailedAfter(st, out.action, s), ClosedAfter(st, out.action, s), s)
  {
    var action := Act(st, pc, c).action;
    if action.Enqueue? {
      assert (tr + [action.job])[..|tr|] == tr;
    }
  }

  lemma ActKeepsAcceptedFlags(st: State, pc: Pc, c: Choice, tr: seq<Job>, s: nat)
    requires AcceptedAt(pc, tr, s) && FlagsAt(pc, tr, SocketFailed(st, s), SocketClosed(st, s), s)
    requires Exists(st, SocketOf(pc), ServerOf(pc)) && Act(st, pc, c).Move?
    ensures var out := Act(st, pc, c);
            FlagsAt(out.pc, Extended(tr, out.action), FailedAfter(st, out.action, s), ClosedAfter(st, out.action, s), s)
  {
    var action := Act(st, pc, c).action;
    if action.Enqueue? {
      assert (tr + [action.job])[..|tr|] == tr;
    }
  }

  lemma FlagsPerform(st: State, t: nat, pc: Pc, action: Action, s: nat)
    requires t < |st.threads| && ReportsChanges(st, st.threads[t].pc, pc, action)
    requires action.SetSocket? ==> action.s < |st.sockets|
    ensures var post := Perform(Moved(st, t, pc), t, action);
            SocketFailed(post, s) == FailedAfter(st, action, s) && SocketClosed(post, s) == ClosedAfter(st, action, s)
  {
  }

  /** Who is alone after a step was alone before it; a thread just spawned finds its socket unreported. */
  lemma SoloBefore(st: State, t: nat, pc: Pc, action: Action, s: nat, u: nat)
    requires AuthorsExist(st) && t < |st.threads| && ReportsChanges(st, st.threads[t].pc, pc, action)
    requires Solo(Perform(Moved(st, t, pc), t, action), s, u)
    ensures if u < |st.threads| then Solo(st, s, u) else Unreported(st, s)
  {
    var post := Perform(Moved(st, t, pc), t, action);
    assert forall i | 0 <= i < |st.log| :: post.log[i] == st.log[i];
    assert forall w | 0 <= w < |st.threads| :: post.threads[w].role == st.threads[w].role;
    assert forall w | 0 <= w < |st.threads| && w != t :: post.threads[w] == st.threads[w];
    assert action.Enqueue? ==> post.log[|st.log|] == Entry(action.job, By(t));
  }

  lemma UnreportedBefore(st: State, t: nat, pc: Pc, action: Action, s: nat)
    requires t < |st.threads| && ReportsChanges(st, st.threads[t].pc, pc, action)
    requires Unreported(Perform(Moved(st, t, pc), t, action), s)
    ensures Unreported(st, s) && Reports(pc) != Some(s)
  {
    var post := Perform(Moved(st, t, pc), t, action);
    assert forall i | 0 <= i < |st.log| :: post.log[i] == st.log[i];
    assert forall w | 0 <= w < |st.threads| && w != t :: post.threads[w] == st.threads[w];
    assert post.threads[t].pc == pc;
    assert action.Enqueue? ==> post.log[|st.log|] == Entry(action.job, By(t));
  }

  lemma FreshFlagsPerform(st: State, t: nat, pc: Pc, action: Action, s: nat)
    requires FreshFlags(st, s) && t < |st.threads| && ReportsChanges(st, st.threads[t].pc, pc, action)
    requires action.SetSocket? ==> action.s < |st.sockets|
    ensures FreshFlags(Perform(Moved(st, t, pc), t, action), s)
  {
    if Unreported(Perform(Moved(st, t, pc), t, action), s) {
      UnreportedBefore(st, t, pc, action, s);
      FlagsPerform(st, t, pc, action, s);
    }
  }

  lemma SoloFlagsPerform(st: State, t: nat, pc: Pc, action: Action, s: nat, u: nat)
    requires AuthorsExist(st) && SoloFlags(st, s, u) && FreshFlags(st, s)
    requires t < |st.threads| && ReportsChanges(st, st.threads[t].pc, pc, action)
    requires action.SetSocket? ==> action.s < |st.sockets|
    requires action.Spawn? ==> action.thread.pc.Resolve? || action.thread.pc.Read?
    requires u == t && Solo(st, s, t) ==>
               FlagsAt(pc, Extended(Trace(st.log, t), action), FailedAfter(st, action, s), ClosedAfter(st, action, s), s)
    ensures SoloFlags(Perform(Moved(st, t, pc), t, action), s, u)
  {
    var post := Perform(Moved(st, t, pc), t, action);
    if Solo(post, s, u) {
      SoloBefore(st, t, pc, action, s, u);
      FlagsPerform(st, t, pc, action, s);
      TracePerform(st, t, pc, action, u);
      if u == t {
        assert post.threads[u].pc == pc;
      } else if u < |st.threads| {
        assert post.threads[u] == st.threads[u] && post.threads[t].pc == pc;
      } else {
        assert action.Spawn? && post.threads[u] == action.thread;
      }
    }
  }

  lemma ActSpawnsReaders(st: State, pc: Pc, c: Choice)
    requires Exists(st, SocketOf(pc), ServerOf(pc)) && Act(st, pc, c).Move?
    ensures var action := Act(st, pc, c).action;
            && (action.Spawn? ==> action.thread.pc.Resolve? || action.thread.pc.Read?)
            && (action.SetSocket? ==> action.s < |st.sockets|)
  {
  }

  lemma OwnStepKeepsFlags(st: State, t: nat, c: Choice, s: nat)
    requires AllInRole(st) && Solo(st, s, t) && SoloFlags(st, s, t)
    requires Runnable(st, t) && Act(st, st.threads[t].pc, c).Move?
    ensures var out := Act(st, st.threads[t].pc, c);
            FlagsAt(out.pc, Extended(Trace(st.log, t), out.action),
                    FailedAfter(st, out.action, s), ClosedAfter(st, out.action, s), s)
  {
    assert ThreadInRole(st, t);
    if st.threads[t].role == Connector(s) {
      ActKeepsConnectorFlags(st, st.threads[t].pc, c, Trace(st.log, t), s);
    } else {
      ActKeepsAcceptedFlags(st, st.threads[t].pc, c, Trace(st.log, t), s);
    }
  }

  lemma SoloFlagsAdvance(st: State, t: nat, c: Choice, s: nat, u: nat)
    requires AuthorsExist(st) && AllInRole(st)
    requires SoloFlags(st, s, u) && FreshFlags(st, s)
    ensures SoloFlags(Next(st, Advance(t, c)), s, u) && FreshFlags(Next(st, Advance(t, c)), s)
  {
    if Runnable(st, t) && Act(st, st.threads[t].pc, c).Move? {
      var out := Act(st, st.threads[t].pc, c);
      ActReportsChanges(st, st.threads[t].pc, c);
      ActSpawnsReaders(st, st.threads[t].pc, c);
      if u == t && Solo(st, s, t) {
        OwnStepKeepsFlags(st, t, c, s);
      }
      SoloFlagsPerform(st, t, out.pc, out.action, s, u);
      FreshFlagsPerform(st, t, out.pc, out.action, s);
    }
  }

  lemma SoloFlagsInvoke(st: State, op: Op, s: nat, u: nat)
    requires SoloFlags(st, s, u) && FreshFlags(st, s)
    ensures SoloFlags(Next(st, Invoke(op)), s, u) && FreshFlags(Next(st, Invoke(op)), s)
  {
    OtherSteps(st, Invoke(op));
    assert forall w | 0 <= w < |st.threads| :: Next(st, Invoke(op)).threads[w] == st.threads[w];
  }

  lemma SoloFlagsMain(st: State, step: Step, s: nat, u: nat)
    requires SoloFlags(st, s, u) && FreshFlags(st, s) && (step.RunJob? || step.RunPump?)
    ensures SoloFlags(Next(st, step), s, u) && FreshFlags(Next(st, step), s)
  {
    OtherSteps(st, step);
    TraceOfAppend(st.log, Entry(Pump, MainThread), u);
    SoloBeforeMain(st, Next(st, step), s, u);
  }

  lemma SoloBeforeMain(st: State, post: State, s: nat, u: nat)
    requires post.threads == st.threads && st.log <= post.log
    ensures Solo(post, s, u) ==> Solo(st, s, u)
    ensures Unreported(post, s) ==> Unreported(st, s)
  {
    assert forall i | 0 <= i < |st.log| :: post.log[i] == st.log[i];
  }

  lemma {:induction false} AlwaysSoloFlags(steps: seq<Step>, s: nat, t: nat)
    ensures SoloFlags(Reached(steps), s, t) && FreshFlags(Reached(steps), s)
  {
    if steps == [] {
    } else {
      var init := steps[..|steps| - 1];
      AlwaysSoloFlags(init, s, t);
      AuthorsAlwaysExist(init);
      AlwaysInRole(init);
      match steps[|steps| - 1] {
        case Advance(u, c) => SoloFlagsAdvance(Reached(init), u, c, s, t);
        case Invoke(op) => SoloFlagsInvoke(Reached(init), op, s, t);
        case _ => SoloFlagsMain(Reached(init), steps[|steps| - 1], s, t);
      }
    }
  }

  // --------------------------------------------------------- the whole trace

  /** Every job that reports the life of socket `s`, whoever enqueued it. */
  function SocketTrace(log: seq<Entry>, s: nat): seq<Job> {
    if log == [] then []
    else
      var last, before := log[|log| - 1], SocketTrace(log[..|log| - 1], s);
      if About(last.job) == Some(s) then before + [last.job] else before
  }

  lemma {:induction false} SocketTraceIsTrace(log: seq<Entry>, s: nat, t: nat)
    requires forall i | 0 <= i < |log| :: About(log[i].job) == Some(s) <==> log[i].origin == By(t)
    ensures SocketTrace(log, s) == Trace(log, t)
  {
    if log == [] {
    } else {
      SocketTraceIsTrace(log[..|log| - 1], s, t);
    }
  }

  lemma SentencesAreAbout(role: Role, pc: Pc, tr: seq<Job>, s: nat, k: nat)
    requires InRole(role, pc, tr) && LivesFor(role, s) && k < |tr|
    ensures About(tr[k]) == Some(s)
  {
    assert k < |tr| - 1 ==> tr[k] == tr[..|tr| - 1][k];
    assert k < |tr| - 2 ==> tr[k] == tr[..|tr| - 1][..|tr| - 2][k];
  }

  lemma SoloOwnsTheTrace(steps: seq<Step>, s: nat, t: nat)
    requires Solo(Reached(steps), s, t)
    ensures SocketTrace(Reached(steps).log, s) == Trace(Reached(steps).log, t)
  {
    var st := Reached(steps);
    AlwaysInRole(steps);
    assert ThreadInRole(st, t);
    forall i | 0 <= i < |st.log| ensures About(st.log[i].job) == Some(s) <==> st.log[i].origin == By(t) {
      if st.log[i].origin == By(t) {
        TraceHolds(st.log, t, i);
        var k :| 0 <= k < |Trace(st.log, t)| && Trace(st.log, t)[k] == st.log[i].job;
        SentencesAreAbout(st.threads[t].role, st.threads[t].pc, Trace(st.log, t), s, k);
      }
    }
    SocketTraceIsTrace(st.log, s, t);
  }

  /** `lookup (error close(true) | connect ready data* end close(false))`, complete. */
  predicate WholeStory(tr: seq<Job>, s: nat) {
    |tr| > 0 && Sentence(tr[..|tr| - 1], s) && tr[|tr| - 1] == Close(s, Refused(tr[..|tr| - 1], s))
  }

  /** `data* end close(false)`, complete. */
  predicate AcceptedStory(tr: seq<Job>, s: nat) {
    |tr| > 0 && Received(tr[..|tr| - 1], s) && tr[|tr| - 1] == Close(s, false)
  }

  lemma CloseEndsTheStory(full: seq<Job>, s: nat)
    ensures Sentence(full, s) ==> WholeStory(full + [Close(s, Refused(full, s))], s)
    ensures Received(full, s) ==> AcceptedStory(full + [Close(s, false)], s)
  {
    assert forall h: bool {:trigger Close(s, h)} :: (full + [Close(s, h)])[..|full|] == full;
  }

  lemma StoryOf(pc: Pc, tr: seq<Job>, hadError: bool, closed: bool, s: nat) returns (story: seq<Job>)
    requires ConnectorAt(pc, tr, s) && FlagsAt(pc, tr, hadError, closed, s)
    ensures WholeStory(story, s) && tr <= story
  {
    if pc.Release? || pc.Done? {
      story := tr;
      assert Sentence(tr[..|tr| - 1], s) by {
        assert !Sentence(tr, s);
      }
    } else {
      EveryPointIsOnASentence(pc, tr, s);
      assert !ClosedSentence(tr, s);
      CloseEndsTheStory(Completed(tr, s), s);
      story := Completed(tr, s) + [Close(s, Refused(Completed(tr, s), s))];
    }
  }

  lemma AcceptedStoryOf(pc: Pc, tr: seq<Job>, hadError: bool, closed: bool, s: nat) returns (story: seq<Job>)
    requires AcceptedAt(pc, tr, s) && FlagsAt(pc, tr, hadError, closed, s)
    ensures AcceptedStory(story, s) && tr <= story
  {
    if pc.Release? || pc.Done? {
      ClosedReceptionIsAStory(pc, tr, s);
      story := tr;
    } else {
      var full := ReceptionToCome(pc, tr, s);
      CloseEndsTheStory(full, s);
      story := full + [Close(s, false)];
    }
  }

  lemma ClosedReceptionIsAStory(pc: Pc, tr: seq<Job>, s: nat)
    requires AcceptedAt(pc, tr, s) && (pc.Release? || pc.Done?)
    requires |tr| > 0 && tr[|tr| - 1] == Close(s, Refused(tr[..|tr| - 1], s))
    ensures AcceptedStory(tr, s)
  {
    var init := tr[..|tr| - 1];
    assert !Received(tr, s);
    assert Received(init, s) && init[|init| - 1] == End(s);
    assert !Refused(init, s);
  }

  lemma ReceptionToCome(pc: Pc, tr: seq<Job>, s: nat) returns (full: seq<Job>)
    requires AcceptedAt(pc, tr, s) && !pc.Release? && !pc.Done?
    ensures Received(full, s) && tr <= full
  {
    if pc.Claim? || pc.QueueClose? {
      full := tr;
    } else {
      full := tr + [End(s)];
      assert full[..|tr|] == tr;
    }
  }

  /**
   * A client socket on which nobody reports but its own connect and read thread, that is, which
   * nobody else finishes or fails: everything enqueued about it is a prefix of
   * `lookup (error close(true) | connect ready data* end close(false))`.
   */
  lemma WholeTraceGrammar(steps: seq<Step>, s: nat, t: nat)
    requires Solo(Reached(steps), s, t) && Reached(steps).threads[t].role == Connector(s)
    ensures exists story | WholeStory(story, s) :: SocketTrace(Reached(steps).log, s) <= story
  {
    var st := Reached(steps);
    SoloOwnsTheTrace(steps, s, t);
    AlwaysInRole(steps);
    AlwaysSoloFlags(steps, s, t);
    assert ThreadInRole(st, t);
    var story := StoryOf(st.threads[t].pc, Trace(st.log, t), SocketFailed(st, s), SocketClosed(st, s), s);
  }

  /** The same for an accepted socket: a prefix of `data* end close(false)`. */
  lemma AcceptedTraceGrammar(steps: seq<Step>, s: nat, t: nat)
    requires Solo(Reached(steps), s, t) && Reached(steps).threads[t].role == AcceptedReader(s)
    ensures exists story | AcceptedStory(story, s) :: SocketTrace(Reached(steps).log, s) <= story
  {
    var st := Reached(steps);
    SoloOwnsTheTrace(steps, s, t);
    AlwaysInRole(steps);
    AlwaysSoloFlags(steps, s, t);
    assert ThreadInRole(st, t);
    var story := AcceptedStoryOf(st.threads[t].pc, Trace(st.log, t), SocketFailed(st, s), SocketClosed(st, s), s);
  }
}
