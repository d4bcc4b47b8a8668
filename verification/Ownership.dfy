/** A socket belongs to the thread that makes it until that thread lets go of it. */
module Ownership {
  import opened Base
  import opened Machine
  import opened Attribution
  import Accepting
  import Alone

  /** The socket a thread at `pc` is making: nobody else has it yet. */
  function MadeAt(pc: Pc): Option<nat> {
    match pc
    case StartPump(next) => SocketOfThen(next)
    case QueuePump(next) => SocketOfThen(next)
    case PublishAccepted(_, s, _) => Some(s)
    case SpawnReader(_, s, _) => Some(s)
    case _ => None
  }

  predicate Makes(pc: Pc, s: nat) {
    MadeAt(pc) == Some(s)
  }

  /** A thread works on `s`, or may finish it or report on it. */
  predicate Involved(th: Thread, s: nat) {
    SocketOf(th.pc) == Some(s) || Serves(th.role) == Some(s)
  }

  /** While `t` makes `s`, thread `u` has nothing to do with it. */
  predicate KeepsToItself(st: State, t: nat, u: nat, s: nat)
    requires t < |st.threads| && u < |st.threads|
  {
    t != u && Makes(st.threads[t].pc, s) ==> !Involved(st.threads[u], s)
  }

  predicate Exclusive(st: State, s: nat) {
    forall t, u | 0 <= t < |st.threads| && 0 <= u < |st.threads| :: KeepsToItself(st, t, u, s)
  }

  /** A thread comes to work on a socket by making it, or goes on with the one it had; what it
      spawns works on its own socket, and it makes none then. */
  predicate StaysWithItsSocket(st: State, pc: Pc, pc': Pc, action: Action) {
    && (SocketOf(pc').Some? ==> SocketOf(pc') == SocketOf(pc) || (action.AddSocket? && SocketOf(pc') == Some(|st.sockets|)))
    && MakesProperly(st, pc, pc', action)
  }

  predicate MakesProperly(st: State, pc: Pc, pc': Pc, action: Action) {
    && (MadeAt(pc').Some? ==> MadeAt(pc') == MadeAt(pc) || (action.AddSocket? && MadeAt(pc') == Some(|st.sockets|)))
    && (action.Spawn? ==>
          && SocketOf(pc).Some? && SocketOf(action.thread.pc) == SocketOf(pc) && Serves(action.thread.role) == SocketOf(pc)
          && MadeAt(pc').None? && MadeAt(action.thread.pc).None?)
  }

  lemma ActMakesProperly(st: State, pc: Pc, c: Choice)
    requires Exists(st, SocketOf(pc), ServerOf(pc)) && Act(st, pc, c).Move?
    ensures MakesProperly(st, pc, Act(st, pc, c).pc, Act(st, pc, c).action)
  {
    if MadeAt(pc).Some? {
    } else {
    }
  }

  lemma ActTakesNewSocket(st: State, pc: Pc, c: Choice)
    requires SocketOf(pc).None? && Exists(st, SocketOf(pc), ServerOf(pc)) && Act(st, pc, c).Move?
    ensures var Move(pc', action) := Act(st, pc, c);
            SocketOf(pc').Some? ==> action.AddSocket? && SocketOf(pc') == Some(|st.sockets|)
  {
  }

  lemma ActKeepsSocket(st: State, pc: Pc, c: Choice)
    requires SocketOf(pc).Some? && Exists(st, SocketOf(pc), ServerOf(pc)) && Act(st, pc, c).Move?
    ensures SocketOf(Act(st, pc, c).pc).Some? ==> SocketOf(Act(st, pc, c).pc) == SocketOf(pc)
  {
  }

  lemma ActStaysWithItsSocket(st: State, pc: Pc, c: Choice)
    requires Exists(st, SocketOf(pc), ServerOf(pc)) && Act(st, pc, c).Move?
    ensures StaysWithItsSocket(st, pc, Act(st, pc, c).pc, Act(st, pc, c).action)
  {
    ActMakesProperly(st, pc, c);
    if SocketOf(pc).None? {
      ActTakesNewSocket(st, pc, c);
    } else {
      ActKeepsSocket(st, pc, c);
    }
  }

  lemma MakersWorkOnIt(pc: Pc, s: nat)
    requires Makes(pc, s)
    ensures SocketOf(pc) == Some(s)
  {
  }

  lemma KeepsToItselfPerform(st: State, t: nat, pc: Pc, action: Action, s: nat, a: nat, b: nat)
    requires Exclusive(st, s) && NothingDangles(st) && Attributed(st) && t < |st.threads|
    requires StaysWithItsSocket(st, st.threads[t].pc, pc, action)
    requires var post := Perform(Moved(st, t, pc), t, action); a < |post.threads| && b < |post.threads|
    ensures KeepsToItself(Perform(Moved(st, t, pc), t, action), a, b, s)
  {
    var post := Perform(Moved(st, t, pc), t, action);
    assert forall w | 0 <= w < |st.threads| :: post.threads[w] == if w == t then st.threads[t].(pc := pc) else st.threads[w];
    assert forall w | 0 <= w < |st.threads| ::
        ThreadFits(st, w) && Exists(st, SocketOf(st.threads[w].pc), ServerOf(st.threads[w].pc));
    if a != b && Makes(post.threads[a].pc, s) {
      MakersWorkOnIt(post.threads[a].pc, s);
      if a < |st.threads| && b < |st.threads| {
        assert KeepsToItself(st, a, b, s);
      } else if a < |st.threads| {
        assert KeepsToItself(st, a, t, s);
      }
    }
  }

  lemma ExclusiveAdvance(st: State, t: nat, c: Choice, s: nat)
    requires Exclusive(st, s) && NothingDangles(st) && Attributed(st)
    ensures Exclusive(Next(st, Advance(t, c)), s)
  {
    if Runnable(st, t) && Act(st, st.threads[t].pc, c).Move? {
      var out := Act(st, st.threads[t].pc, c);
      var post := Perform(Moved(st, t, out.pc), t, out.action);
      ActStaysWithItsSocket(st, st.threads[t].pc, c);
      forall a, b | 0 <= a < |post.threads| && 0 <= b < |post.threads| ensures KeepsToItself(post, a, b, s) {
        KeepsToItselfPerform(st, t, out.pc, out.action, s, a, b);
      }
    }
  }

  lemma NewCallIsInvolved(op: Op, s: nat)
    requires Involved(Thread(EntryPoint(op), Caller(op)), s)
    ensures SocketOfOp(op) == Some(s)
  {
  }

  lemma ExclusiveInvoke(st: State, op: Op, s: nat)
    requires Exclusive(st, s)
    ensures Exclusive(Next(st, Invoke(op)), s)
  {
    if CanInvoke(st, op) {
      var post := Next(st, Invoke(op));
      var n := |st.threads|;
      forall a, b | 0 <= a < |post.threads| && 0 <= b < |post.threads| ensures KeepsToItself(post, a, b, s) {
        if a < n && b < n {
          assert KeepsToItself(st, a, b, s);
        } else if b == n && Involved(post.threads[b], s) {
          NewCallIsInvolved(op, s);
          assert a < n ==> !Withholds(st.threads[a], s);
        }
      }
    }
  }

  lemma ExclusiveMain(st: State, step: Step, s: nat)
    requires Exclusive(st, s) && (step.RunJob? || step.RunPump?)
    ensures Exclusive(Next(st, step), s)
  {
    var post := Next(st, step);
    forall a, b | 0 <= a < |post.threads| && 0 <= b < |post.threads| ensures KeepsToItself(post, a, b, s) {
      assert post.threads == st.threads && KeepsToItself(st, a, b, s);
    }
  }

  lemma {:induction false} AlwaysExclusive(steps: seq<Step>, s: nat)
    ensures Exclusive(Reached(steps), s)
  {
    if steps == [] {
    } else {
      var init := steps[..|steps| - 1];
      AlwaysExclusive(init, s);
      match steps[|steps| - 1] {
        case Advance(t, c) =>
          NothingEverDangles(init);
          AlwaysAttributed(init);
          ExclusiveAdvance(Reached(init), t, c, s);
        case Invoke(op) => ExclusiveInvoke(Reached(init), op, s);
        case _ => ExclusiveMain(Reached(init), steps[|steps| - 1], s);
      }
    }
  }

  /** A socket still being made is neither failed nor closed: an accepted one is published before
      anybody can have finished it. */
  lemma NotClosedWhileMade(steps: seq<Step>, t: nat, s: nat)
    requires t < |Reached(steps).threads| && Makes(Reached(steps).threads[t].pc, s)
    ensures !SocketClosed(Reached(steps), s) && !SocketFailed(Reached(steps), s)
  {
    var st := Reached(steps);
    AlwaysExclusive(steps, s);
    AlwaysAttributed(steps);
    Alone.AlwaysSoloFlags(steps, s, t);
    assert ThreadFits(st, t);
    forall u | 0 <= u < |st.threads| ensures Alone.Reports(st.threads[u].pc) != Some(s) {
      assert KeepsToItself(st, t, u, s);
    }
    forall i | 0 <= i < |st.log| ensures About(st.log[i].job) != Some(s) {
      assert EntryFits(st, i);
      assert About(st.log[i].job).Some? ==> KeepsToItself(st, t, st.log[i].origin.t, s);
    }
    assert Alone.Unreported(st, s);
  }

  // --------------------------------------------------------------- servers

  /** The server a thread at `pc` is making. */
  function ServerMadeAt(pc: Pc): Option<nat> {
    match pc
    case StartPump(ReturnServer(v)) => Some(v)
    case QueuePump(ReturnServer(v)) => Some(v)
    case _ => None
  }

  /** While thread `t` makes server `v` nobody else works on it, and it is not closed. */
  predicate OwnsServer(st: State, t: nat, v: nat) {
    t < |st.threads| && ServerMadeAt(st.threads[t].pc) == Some(v) ==>
      && !ServerClosed(st, v)
      && forall u | 0 <= u < |st.threads| && u != t :: ServerOf(st.threads[u].pc) != Some(v)
  }

  predicate StaysWithItsServer(st: State, pc: Pc, pc': Pc, action: Action) {
    && (ServerOf(pc').Some? ==> ServerOf(pc') == ServerOf(pc) || (action.AddServer? && ServerOf(pc') == Some(|st.servers|)))
    && (ServerMadeAt(pc').Some? ==>
          ServerMadeAt(pc') == ServerMadeAt(pc) || (action.AddServer? && ServerMadeAt(pc') == Some(|st.servers|)))
    && (action.Spawn? ==> ServerOf(action.thread.pc).None?)
    && (action.SetServer? ==> ServerOf(pc) == Some(action.v) && ServerMadeAt(pc).None?)
    && (action.AddServer? ==> !action.server.closeEmitted && ServerMadeAt(pc).None?)
  }

  lemma ActTakesNewServer(st: State, pc: Pc, c: Choice)
    requires ServerOf(pc).None? && Exists(st, SocketOf(pc), ServerOf(pc)) && Act(st, pc, c).Move?
    ensures var Move(pc', action) := Act(st, pc, c);
            && (ServerOf(pc').Some? || action.AddServer? ==>
                  && pc' == StartPump(ReturnServer(|st.servers|))
                  && action.AddServer? && !action.server.closeEmitted)
            && !action.SetServer?
            && (action.Spawn? ==> ServerOf(action.thread.pc).None?)
  {
    if pc.OpenServer? {
    } else {
    }
  }

  lemma ActStaysWithItsServer(st: State, pc: Pc, c: Choice)
    requires Exists(st, SocketOf(pc), ServerOf(pc)) && Act(st, pc, c).Move?
    ensures StaysWithItsServer(st, pc, Act(st, pc, c).pc, Act(st, pc, c).action)
  {
    if ServerOf(pc).None? {
      ActTakesNewServer(st, pc, c);
    }
  }

  /** The maker's server is not closed by the step: the step is its own, or works on another server. */
  lemma ServerStaysOpen(st: State, t: nat, pc: Pc, action: Action, owner: nat, v: nat)
    requires OwnsServer(st, owner, v) && NothingDangles(st) && t < |st.threads| && owner < |st.threads|
    requires StaysWithItsServer(st, st.threads[t].pc, pc, action)
    requires ServerMadeAt(if owner == t then pc else st.threads[owner].pc) == Some(v)
    ensures !ServerClosed(Perform(Moved(st, t, pc), t, action), v)
  {
    assert Exists(st, SocketOf(st.threads[owner].pc), ServerOf(st.threads[owner].pc));
  }

  lemma OwnsServerPerform(st: State, t: nat, pc: Pc, action: Action, owner: nat, v: nat)
    requires OwnsServer(st, owner, v) && NothingDangles(st) && t < |st.threads|
    requires StaysWithItsServer(st, st.threads[t].pc, pc, action)
    ensures OwnsServer(Perform(Moved(st, t, pc), t, action), owner, v)
  {
    var post := Perform(Moved(st, t, pc), t, action);
    ThreadsPerform(st, t, pc, action, owner);
    if owner < |st.threads| && ServerMadeAt(post.threads[owner].pc) == Some(v) {
      ServerStaysOpen(st, t, pc, action, owner, v);
      forall u | 0 <= u < |post.threads| && u != owner ensures ServerOf(post.threads[u].pc) != Some(v) {
        ThreadsPerform(st, t, pc, action, u);
        assert u < |st.threads| ==> Exists(st, SocketOf(st.threads[u].pc), ServerOf(st.threads[u].pc));
        assert Exists(st, SocketOf(st.threads[owner].pc), ServerOf(st.threads[owner].pc));
      }
    }
  }

  lemma OwnsServerInvoke(st: State, op: Op, owner: nat, v: nat)
    requires OwnsServer(st, owner, v)
    ensures OwnsServer(Next(st, Invoke(op)), owner, v)
  {
    OtherSteps(st, Invoke(op));
    assert ServerMadeAt(EntryPoint(op)).None?;
    assert ServerOf(EntryPoint(op)).Some? ==> ServerOf(EntryPoint(op)) == ServerOfOp(op);
  }

  lemma {:induction false} AlwaysOwnsServer(steps: seq<Step>, owner: nat, v: nat)
    ensures OwnsServer(Reached(steps), owner, v)
  {
    if steps == [] {
    } else {
      var st, step := Reached(steps[..|steps| - 1]), steps[|steps| - 1];
      AlwaysOwnsServer(steps[..|steps| - 1], owner, v);
      NothingEverDangles(steps[..|steps| - 1]);
      match step {
        case Invoke(op) => OwnsServerInvoke(st, op, owner, v);
        case Advance(t, c) =>
          if Runnable(st, t) && Act(st, st.threads[t].pc, c).Move? {
            ActStaysWithItsServer(st, st.threads[t].pc, c);
            OwnsServerPerform(st, t, Act(st, st.threads[t].pc, c).pc, Act(st, st.threads[t].pc, c).action, owner, v);
          }
        case _ => OtherSteps(st, step);
      }
    }
  }

  /** A record whose creator has yet to see to the pump is not closed. */
  lemma CreatorsHaveOpenRecords(steps: seq<Step>, t: nat)
    requires t < |Reached(steps).threads|
    requires Reached(steps).threads[t].pc.StartPump? || Reached(steps).threads[t].pc.QueuePump?
    ensures var st := Reached(steps);
            || (exists s | 0 <= s < |st.sockets| :: !SocketClosed(st, s))
            || (exists v | 0 <= v < |st.servers| :: !ServerClosed(st, v))
  {
    var st := Reached(steps);
    NothingEverDangles(steps);
    assert Exists(st, SocketOf(st.threads[t].pc), ServerOf(st.threads[t].pc));
    match SocketOf(st.threads[t].pc) {
      case Some(s) => NotClosedWhileMade(steps, t, s);
      case None => AlwaysOwnsServer(steps, t, st.threads[t].pc.next.v);
    }
  }

  // ------------------------------------------------------- what is handed out

  /** A thread is making socket `s` or carries it to its connection event. */
  predicate Carries(th: Thread, s: nat) {
    || MadeAt(th.pc) == Some(s) || Accepting.CarriedBy(th.pc) == Some(s)
    || (th.role.Caller? && th.role.op.CreateConnection? && (th.pc == BeginConnect(s) || th.pc == SpawnConnector(s)))
  }

  /** A call on a socket begins only when no thread makes or carries it any more, and its connection
      event, if it has one, has been taken from the queue; and it begins whenever that is so. */
  lemma CallsBeginInHand(st: State, op: Op, s: nat)
    requires SocketOfOp(op) == Some(s) && s < |st.sockets|
    ensures CanInvoke(st, op)
            <==> && (forall t | 0 <= t < |st.threads| :: !Carries(st.threads[t], s))
                 && (forall i | 0 <= i < |st.log| && st.log[i].job.Connection? && st.log[i].job.s == s :: i < st.ran)
  {
    forall t | 0 <= t < |st.threads| ensures Withholds(st.threads[t], s) <==> Carries(st.threads[t], s) {
    }
  }

  /** A call on a server begins when the call that made it has returned. */
  lemma ServerCallsBeginInHand(st: State, op: Op, v: nat)
    requires ServerOfOp(op) == Some(v) && v < |st.servers|
    ensures CanInvoke(st, op) <==> forall t | 0 <= t < |st.threads| :: ServerMadeAt(st.threads[t].pc) != Some(v)
  {
    assert forall t | 0 <= t < |st.threads| ::
      ServerMadeAt(st.threads[t].pc) == Some(v)
      <==> st.threads[t].pc == StartPump(ReturnServer(v)) || st.threads[t].pc == QueuePump(ReturnServer(v));
  }
}
