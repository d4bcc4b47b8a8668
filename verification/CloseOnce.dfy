/** `close` is enqueued once per socket and per server, however many callers race to finish it. */
module CloseOnce {
  import opened Base
  import opened Records
  import opened Machine

  /** A socket or a server. */
  datatype Handle = TheSocket(s: nat) | TheServer(v: nat)

  predicate IsClosed(st: State, h: Handle) {
    match h
    case TheSocket(s) => SocketClosed(st, s)
    case TheServer(v) => ServerClosed(st, v)
  }

  predicate ClosesWith(job: Job, h: Handle) {
    match h
    case TheSocket(s) => job.Close? && job.s == s
    case TheServer(v) => job == ServerClose(v)
  }

  predicate AboutToClose(pc: Pc, h: Handle) {
    match h
    case TheSocket(s) => pc.QueueClose? && pc.s == s
    case TheServer(v) => pc == QueueServerClose(v)
  }

  function CloseEntry(h: Handle): Entry -> nat {
    (e: Entry) => if ClosesWith(e.job, h) then 1 else 0
  }

  function Closing(h: Handle): Thread -> nat {
    (th: Thread) => if AboutToClose(th.pc, h) then 1 else 0
  }

  /** Close jobs of `h`, enqueued or in the hands of the caller that claimed it. */
  function Closes(st: State, h: Handle): nat {
    Sum(st.log, CloseEntry(h)) + Sum(st.threads, Closing(h))
  }

  predicate ClosedOnce(st: State, h: Handle) {
    Closes(st, h) == if IsClosed(st, h) then 1 else 0
  }

  /** A step claims `h` exactly when it takes the thread to the enqueue of its close job. */
  predicate ClaimsProperly(st: State, pc: Pc, pc': Pc, action: Action, h: Handle) {
    && (AboutToClose(pc, h) <==> action.Enqueue? && ClosesWith(action.job, h))
    && (AboutToClose(pc, h) ==> !AboutToClose(pc', h))
    && (action.Spawn? ==> !AboutToClose(action.thread.pc, h))
    && (action.AddSocket? ==> !action.socket.closeEmitted)
    && (action.AddServer? ==> !action.server.closeEmitted)
    && (match h
        case TheSocket(s) =>
          if action.SetSocket? && action.s == s then
            && (AboutToClose(pc', h) ==> !IsClosed(st, h))
            && (action.socket.closeEmitted <==> IsClosed(st, h) || AboutToClose(pc', h))
          else !AboutToClose(pc', h)
        case TheServer(v) =>
          if action.SetServer? && action.v == v then
            && (AboutToClose(pc', h) ==> !IsClosed(st, h))
            && (action.server.closeEmitted <==> IsClosed(st, h) || AboutToClose(pc', h))
          else !AboutToClose(pc', h))
  }

  lemma ActClaimsProperly(st: State, pc: Pc, c: Choice, h: Handle)
    requires Exists(st, SocketOf(pc), ServerOf(pc)) && Act(st, pc, c).Move?
    ensures ClaimsProperly(st, pc, Act(st, pc, c).pc, Act(st, pc, c).action, h)
  {
    if ServerOf(pc).Some? {
    } else {
    }
  }

  lemma ClosedOncePerform(st: State, t: nat, pc: Pc, action: Action, h: Handle)
    requires ClosedOnce(st, h) && t < |st.threads|
    requires ClaimsProperly(st, st.threads[t].pc, pc, action, h)
    requires action.SetSocket? ==> action.s < |st.sockets|
    requires action.SetServer? ==> action.v < |st.servers|
    ensures ClosedOnce(Perform(Moved(st, t, pc), t, action), h)
  {
    PerformTally(st, t, pc, action, CloseEntry(h), Closing(h));
    ClosedByClaim(st, t, pc, action, h);
  }

  /** A step closes `h` exactly when it takes its thread to the enqueue of the close job. */
  lemma ClosedByClaim(st: State, t: nat, pc: Pc, action: Action, h: Handle)
    requires t < |st.threads| && ClaimsProperly(st, st.threads[t].pc, pc, action, h)
    requires action.SetSocket? ==> action.s < |st.sockets|
    requires action.SetServer? ==> action.v < |st.servers|
    ensures IsClosed(Perform(Moved(st, t, pc), t, action), h) <==> IsClosed(st, h) || AboutToClose(pc, h)
    ensures !(IsClosed(st, h) && AboutToClose(pc, h))
  {
  }

  lemma ActWritesInRange(st: State, pc: Pc, c: Choice)
    requires Exists(st, SocketOf(pc), ServerOf(pc)) && Act(st, pc, c).Move?
    ensures var action := Act(st, pc, c).action;
            (action.SetSocket? ==> action.s < |st.sockets|) && (action.SetServer? ==> action.v < |st.servers|)
  {
  }

  lemma ClosedOnceAdvance(st: State, t: nat, c: Choice, h: Handle)
    requires ClosedOnce(st, h)
    ensures ClosedOnce(Next(st, Advance(t, c)), h)
  {
    if Runnable(st, t) && Act(st, st.threads[t].pc, c).Move? {
      ActClaimsProperly(st, st.threads[t].pc, c, h);
      ActWritesInRange(st, st.threads[t].pc, c);
      ClosedOncePerform(st, t, Act(st, st.threads[t].pc, c).pc, Act(st, st.threads[t].pc, c).action, h);
    }
  }

  lemma ClosedOnceNext(st: State, step: Step, h: Handle)
    requires ClosedOnce(st, h)
    ensures ClosedOnce(Next(st, step), h)
  {
    if step.Advance? { ClosedOnceAdvance(st, step.t, step.choice, h); }
    else { OtherTally(st, step, CloseEntry(h), Closing(h)); }
  }

  /** Any number of concurrent finishers and destroyers: the close jobs enqueued or in hand
      number one if the record is closed and none otherwise. */
  lemma {:induction false} ExactlyOneClose(steps: seq<Step>, h: Handle)
    ensures ClosedOnce(Reached(steps), h)
  {
    if steps == [] {
    } else {
      ExactlyOneClose(steps[..|steps| - 1], h);
      ClosedOnceNext(Reached(steps[..|steps| - 1]), steps[|steps| - 1], h);
    }
  }

  lemma ClosedStaysNext(st: State, step: Step, h: Handle)
    requires IsClosed(st, h)
    ensures IsClosed(Next(st, step), h)
  {
    if step.Advance? && Runnable(st, step.t) && Act(st, st.threads[step.t].pc, step.choice).Move? {
      ActClaimsProperly(st, st.threads[step.t].pc, step.choice, h);
    }
  }

  /** A close is never taken back, whatever follows, a late connect included. */
  lemma {:induction false} ClosedForGood(steps: seq<Step>, more: seq<Step>, h: Handle)
    requires IsClosed(Reached(steps), h)
    ensures IsClosed(Reached(steps + more), h)
  {
    RunOfConcat(Init(), steps, more);
    if more == [] {
    } else {
      var shorter := more[..|more| - 1];
      ClosedForGood(steps, shorter, h);
      RunOfConcat(Init(), steps, shorter);
      ClosedStaysNext(Reached(steps + shorter), more[|more| - 1], h);
    }
  }

  // ------------------------------------------------------ the error flag

  function ErrorEntry(s: nat): Entry -> nat {
    (e: Entry) => if e.job == Error(s) then 1 else 0
  }

  /** A destroyer between setting `had_error` and enqueueing the error. */
  function Raising(s: nat): Thread -> nat {
    (th: Thread) => if th.pc == QueueError(s) then 1 else 0
  }

  /** The flag is set only by a destroyer that raises the error as well. */
  predicate FlagHasCause(st: State, s: nat) {
    SocketFailed(st, s) ==> Sum(st.log, ErrorEntry(s)) + Sum(st.threads, Raising(s)) > 0
  }

  /** A `close(true)`, enqueued or in hand, reports a flag that was set. */
  predicate CloseIsTruthful(st: State, s: nat) {
    && (forall t | 0 <= t < |st.threads| :: st.threads[t].pc == QueueClose(s, true) ==> SocketFailed(st, s))
    && (forall i | 0 <= i < |st.log| :: st.log[i].job == Close(s, true) ==> SocketFailed(st, s))
  }

  predicate ErrorHasCause(st: State, s: nat) {
    FlagHasCause(st, s) && CloseIsTruthful(st, s)
  }

  predicate ErrsProperly(st: State, pc: Pc, pc': Pc, action: Action, s: nat) {
    && (pc == QueueError(s) ==> action == Enqueue(Error(s)))
    && (action == Enqueue(Close(s, true)) ==> pc == QueueClose(s, true))
    && (pc' == QueueClose(s, true) ==> SocketFailed(st, s) && s < |st.sockets|)
    && (action.Spawn? ==> action.thread.pc != QueueClose(s, true))
    && SetsFlagProperly(st, pc', action, s)
  }

  predicate SetsFlagProperly(st: State, pc': Pc, action: Action, s: nat) {
    && (action.AddSocket? ==> !action.socket.hadError)
    && (action.SetSocket? && action.s == s ==>
          && (SocketFailed(st, s) ==> action.socket.hadError)
          && (action.socket.hadError ==> SocketFailed(st, s) || pc' == QueueError(s)))
  }

  lemma ActSetsFlagProperly(st: State, pc: Pc, c: Choice, s: nat)
    requires Exists(st, SocketOf(pc), ServerOf(pc)) && Act(st, pc, c).Move?
    ensures SetsFlagProperly(st, Act(st, pc, c).pc, Act(st, pc, c).action, s)
  {
    if ServerOf(pc).Some? {
    } else {
    }
  }

  lemma ActErrsProperly(st: State, pc: Pc, c: Choice, s: nat)
    requires Exists(st, SocketOf(pc), ServerOf(pc)) && Act(st, pc, c).Move?
    ensures ErrsProperly(st, pc, Act(st, pc, c).pc, Act(st, pc, c).action, s)
  {
    ActSetsFlagProperly(st, pc, c, s);
    if ServerOf(pc).Some? {
    } else {
    }
  }

  lemma FlagKept(st: State, t: nat, pc: Pc, action: Action, s: nat)
    requires t < |st.threads|
    requires ErrsProperly(st, st.threads[t].pc, pc, action, s)
    ensures SocketFailed(st, s) ==> SocketFailed(Perform(Moved(st, t, pc), t, action), s)
    ensures SocketFailed(Perform(Moved(st, t, pc), t, action), s) ==> SocketFailed(st, s) || pc == QueueError(s)
  {
  }

  /** The pending error jobs never become fewer: one leaves a thread only by entering the log. */
  lemma CausesKept(st: State, t: nat, pc: Pc, action: Action, s: nat)
    requires t < |st.threads|
    requires ErrsProperly(st, st.threads[t].pc, pc, action, s)
    ensures var post := Perform(Moved(st, t, pc), t, action);
            Sum(post.log, ErrorEntry(s)) + Sum(post.threads, Raising(s))
            >= Sum(st.log, ErrorEntry(s)) + Sum(st.threads, Raising(s)) + if pc == QueueError(s) then 1 else 0
  {
    PerformTally(st, t, pc, action, ErrorEntry(s), Raising(s));
  }

  lemma CloseIsTruthfulPerform(st: State, t: nat, pc: Pc, action: Action, s: nat)
    requires CloseIsTruthful(st, s) && t < |st.threads|
    requires ErrsProperly(st, st.threads[t].pc, pc, action, s)
    ensures CloseIsTruthful(Perform(Moved(st, t, pc), t, action), s)
  {
    var post := Perform(Moved(st, t, pc), t, action);
    FlagKept(st, t, pc, action, s);
    forall u | 0 <= u < |post.threads| && post.threads[u].pc == QueueClose(s, true)
      ensures SocketFailed(post, s)
    {
      assert u != t && u < |st.threads| ==> post.threads[u] == st.threads[u];
    }
  }

  lemma ErrorHasCauseAdvance(st: State, t: nat, c: Choice, s: nat)
    requires ErrorHasCause(st, s)
    ensures ErrorHasCause(Next(st, Advance(t, c)), s)
  {
    if Runnable(st, t) && Act(st, st.threads[t].pc, c).Move? {
      ActErrsProperly(st, st.threads[t].pc, c, s);
      FlagKept(st, t, Act(st, st.threads[t].pc, c).pc, Act(st, st.threads[t].pc, c).action, s);
      CausesKept(st, t, Act(st, st.threads[t].pc, c).pc, Act(st, st.threads[t].pc, c).action, s);
      CloseIsTruthfulPerform(st, t, Act(st, st.threads[t].pc, c).pc, Act(st, st.threads[t].pc, c).action, s);
    }
  }

  lemma CloseIsTruthfulOther(st: State, step: Step, s: nat)
    requires CloseIsTruthful(st, s) && !step.Advance?
    ensures CloseIsTruthful(Next(st, step), s)
  {
    match step {
      case Invoke(op) => assert EntryPoint(op) != QueueClose(s, true);
      case RunJob =>
      case RunPump => assert Pump != Close(s, true);
    }
  }

  lemma ErrorHasCauseOther(st: State, step: Step, s: nat)
    requires ErrorHasCause(st, s) && !step.Advance?
    ensures ErrorHasCause(Next(st, step), s)
  {
    OtherTally(st, step, ErrorEntry(s), Raising(s));
    CloseIsTruthfulOther(st, step, s);
  }

  lemma {:induction false} ErrorsHaveCauses(steps: seq<Step>, s: nat)
    ensures ErrorHasCause(Reached(steps), s)
  {
    if steps == [] {
    } else {
      ErrorsHaveCauses(steps[..|steps| - 1], s);
      var st, step := Reached(steps[..|steps| - 1]), steps[|steps| - 1];
      if step.Advance? { ErrorHasCauseAdvance(st, step.t, step.choice, s); }
      else { ErrorHasCauseOther(st, step, s); }
    }
  }

  /** `close(true)` is never enqueued out of the blue: an error job of that socket is in the
      log, or a destroyer has set the flag and is about to enqueue it. */
  lemma CloseTrueMeansError(steps: seq<Step>, i: nat, s: nat)
    requires i < |Reached(steps).log| && Reached(steps).log[i].job == Close(s, true)
    ensures var st := Reached(steps);
            || (exists j | 0 <= j < |st.log| :: st.log[j].job == Error(s))
            || (exists t | 0 <= t < |st.threads| :: st.threads[t].pc == QueueError(s))
  {
    var st := Reached(steps);
    ErrorsHaveCauses(steps, s);
    SumIsZero(st.log, ErrorEntry(s));
    SumIsZero(st.threads, Raising(s));
  }
}
