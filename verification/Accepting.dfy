/** What `connections` counts, and how little a closed server still accepts. */
module Accepting {
  import opened Base
  import opened Machine
  import Flags

  function ConnectionEntry(v: nat): Entry -> nat {
    (e: Entry) => if e.job.Connection? && e.job.v == v then 1 else 0
  }

  /** An accept thread stands between counting a connection and announcing it. */
  predicate Announces(pc: Pc, v: nat) {
    pc.QueueConnection? && pc.v == v
  }

  function Announcing(v: nat): Thread -> nat {
    (th: Thread) => if Announces(th.pc, v) then 1 else 0
  }

  function Connections(st: State, v: nat): nat {
    if v < |st.servers| then st.servers[v].connections else 0
  }

  predicate ConnectionsMatch(st: State, v: nat) {
    Connections(st, v) == Sum(st.log, ConnectionEntry(v)) + Sum(st.threads, Announcing(v))
  }

  predicate CountsProperly(st: State, pc: Pc, pc': Pc, action: Action, v: nat) {
    && (pc.QueueConnection? && pc.v == v <==> action.Enqueue? && action.job.Connection? && action.job.v == v)
    && (action.Spawn? ==> !action.thread.pc.QueueConnection?)
    && (action.AddServer? ==> action.server.connections == 0)
    && (if action.SetServer? && action.v == v then
          v < |st.servers| && action.server.connections
          == st.servers[v].connections + if pc'.QueueConnection? && pc'.v == v then 1 else 0
        else !(pc'.QueueConnection? && pc'.v == v))
  }

  lemma ActCountsProperly(st: State, pc: Pc, c: Choice, v: nat)
    requires Exists(st, SocketOf(pc), ServerOf(pc)) && Act(st, pc, c).Move?
    ensures CountsProperly(st, pc, Act(st, pc, c).pc, Act(st, pc, c).action, v)
  {
    if ServerOf(pc).None? {
    } else {
    }
  }

  lemma ConnectionsMatchPerform(st: State, t: nat, pc: Pc, action: Action, v: nat)
    requires ConnectionsMatch(st, v) && t < |st.threads|
    requires CountsProperly(st, st.threads[t].pc, pc, action, v)
    ensures ConnectionsMatch(Perform(Moved(st, t, pc), t, action), v)
  {
    PerformTally(st, t, pc, action, ConnectionEntry(v), Announcing(v));
  }

  lemma ConnectionsMatchAdvance(st: State, t: nat, c: Choice, v: nat)
    requires ConnectionsMatch(st, v)
    ensures ConnectionsMatch(Next(st, Advance(t, c)), v)
  {
    if Runnable(st, t) && Act(st, st.threads[t].pc, c).Move? {
      ActCountsProperly(st, st.threads[t].pc, c, v);
      ConnectionsMatchPerform(st, t, Act(st, st.threads[t].pc, c).pc, Act(st, st.threads[t].pc, c).action, v);
    }
  }

  /** `connections` is the number of connection events enqueued or about to be. */
  lemma {:induction false} AcceptConservation(steps: seq<Step>, v: nat)
    ensures ConnectionsMatch(Reached(steps), v)
  {
    if steps == [] {
    } else {
      var st, step := Reached(steps[..|steps| - 1]), steps[|steps| - 1];
      AcceptConservation(steps[..|steps| - 1], v);
      if step.Advance? { ConnectionsMatchAdvance(st, step.t, step.choice, v); }
      else { OtherTally(st, step, ConnectionEntry(v), Announcing(v)); }
    }
  }

  // -------------------------------------------- one handle per connection

  function AnnouncedEntry(s: nat): Entry -> nat {
    (e: Entry) => if e.job.Connection? && e.job.s == s then 1 else 0
  }

  /** The accepted socket an accept thread is carrying towards its connection event. */
  function CarriedBy(pc: Pc): Option<nat> {
    match pc
    case StartPump(ThenAccept(_, s, _)) => Some(s)
    case QueuePump(ThenAccept(_, s, _)) => Some(s)
    case PublishAccepted(_, s, _) => Some(s)
    case SpawnReader(_, s, _) => Some(s)
    case CountConnection(_, s, _) => Some(s)
    case QueueConnection(_, s, _) => Some(s)
    case _ => None
  }

  function Carrying(s: nat): Thread -> nat {
    (th: Thread) => if CarriedBy(th.pc) == Some(s) then 1 else 0
  }

  /** Connection events of `s`, enqueued or on their way. */
  function Announcements(st: State, s: nat): nat {
    Sum(st.log, AnnouncedEntry(s)) + Sum(st.threads, Carrying(s))
  }

  predicate CarriesProperly(st: State, pc: Pc, pc': Pc, action: Action, s: nat) {
    && (action.Enqueue? && action.job.Connection? && action.job.s == s
        ==> CarriedBy(pc) == Some(s) && CarriedBy(pc') == None)
    && (CarriedBy(pc') == Some(s) ==> CarriedBy(pc) == Some(s) || (action.AddSocket? && s == |st.sockets|))
    && (CarriedBy(pc) == Some(s) ==>
          CarriedBy(pc') == Some(s) || (action.Enqueue? && action.job.Connection? && action.job.s == s))
    && (action.Spawn? ==> CarriedBy(action.thread.pc) == None)
  }

  lemma ActCarriesProperly(st: State, pc: Pc, c: Choice, s: nat)
    requires Exists(st, SocketOf(pc), ServerOf(pc)) && Act(st, pc, c).Move?
    ensures CarriesProperly(st, pc, Act(st, pc, c).pc, Act(st, pc, c).action, s)
  {
    if ServerOf(pc).None? {
      ActWithoutServerCarriesNothing(st, pc, c);
    }
  }

  lemma ActWithoutServerCarriesNothing(st: State, pc: Pc, c: Choice)
    requires ServerOf(pc).None? && Exists(st, SocketOf(pc), ServerOf(pc)) && Act(st, pc, c).Move?
    ensures var Move(pc', action) := Act(st, pc, c);
            && CarriedBy(pc) == None && CarriedBy(pc') == None
            && (action.Enqueue? ==> !action.job.Connection?)
            && (action.Spawn? ==> CarriedBy(action.thread.pc) == None)
  {
  }

  lemma AnnouncementsPerform(st: State, t: nat, pc: Pc, action: Action, s: nat)
    requires t < |st.threads| && CarriesProperly(st, st.threads[t].pc, pc, action, s)
    ensures var post := Perform(Moved(st, t, pc), t, action);
            Announcements(st, s) <= Announcements(post, s)
            <= Announcements(st, s) + if action.AddSocket? && s == |st.sockets| then 1 else 0
  {
    PerformTally(st, t, pc, action, AnnouncedEntry(s), Carrying(s));
  }

  lemma AnnouncementsAdvance(st: State, t: nat, c: Choice, s: nat)
    ensures var post := Next(st, Advance(t, c));
            Announcements(st, s) <= Announcements(post, s)
            <= Announcements(st, s) + if |post.sockets| > |st.sockets| && s == |st.sockets| then 1 else 0
  {
    if Runnable(st, t) && Act(st, st.threads[t].pc, c).Move? {
      ActCarriesProperly(st, st.threads[t].pc, c, s);
      AnnouncementsPerform(st, t, Act(st, st.threads[t].pc, c).pc, Act(st, st.threads[t].pc, c).action, s);
    }
  }

  lemma AnnouncementsNext(st: State, step: Step, s: nat)
    ensures var post := Next(st, step);
            Announcements(st, s) <= Announcements(post, s)
            <= Announcements(st, s) + if |post.sockets| > |st.sockets| && s == |st.sockets| then 1 else 0
  {
    if step.Advance? { AnnouncementsAdvance(st, step.t, step.choice, s); }
    else { OtherTally(st, step, AnnouncedEntry(s), Carrying(s)); }
  }

  lemma SocketsOnlyGrow(st: State, step: Step)
    ensures |Next(st, step).sockets| >= |st.sockets|
  {
  }

  lemma {:induction false} NoSocketAnnouncedTwice(steps: seq<Step>, s: nat)
    ensures Announcements(Reached(steps), s) <= if s < |Reached(steps).sockets| then 1 else 0
  {
    if steps == [] {
    } else {
      var st, step := Reached(steps[..|steps| - 1]), steps[|steps| - 1];
      NoSocketAnnouncedTwice(steps[..|steps| - 1], s);
      AnnouncementsNext(st, step, s);
      SocketsOnlyGrow(st, step);
    }
  }

  lemma CarriedMeansOne(steps: seq<Step>, t: nat, s: nat)
    requires t < |Reached(steps).threads| && CarriedBy(Reached(steps).threads[t].pc) == Some(s)
    ensures Announcements(Reached(steps), s) == 1
  {
    NoSocketAnnouncedTwice(steps, s);
    SumIsZero(Reached(steps).threads, Carrying(s));
    assert Carrying(s)(Reached(steps).threads[t]) == 1;
  }

  /** An accepted socket is never lost or announced twice: from the moment an accept thread
      carries it, its one connection event is on its way or enqueued, whatever happens next. */
  lemma {:induction false} AcceptedSocketIsAnnounced(steps: seq<Step>, more: seq<Step>, s: nat)
    requires Announcements(Reached(steps), s) == 1
    ensures Announcements(Reached(steps + more), s) == 1
  {
    if more == [] {
      assert steps + more == steps;
    } else {
      var init, last := steps + more[..|more| - 1], more[|more| - 1];
      AcceptedSocketIsAnnounced(steps, more[..|more| - 1], s);
      assert steps + more == init + [last] && (init + [last])[..|init|] == init;
      AnnouncementsNext(Reached(init), last, s);
      NoSocketAnnouncedTwice(steps + more, s);
    }
  }

  /** Two connection events, of one server or of two, never announce the same handle. */
  lemma ConnectionsAreDistinctHandles(steps: seq<Step>, i: nat, j: nat)
    requires i < j < |Reached(steps).log|
    requires Reached(steps).log[i].job.Connection? && Reached(steps).log[j].job.Connection?
    ensures Reached(steps).log[i].job.s < |Reached(steps).sockets|
    ensures Reached(steps).log[i].job.s != Reached(steps).log[j].job.s
  {
    var st := Reached(steps);
    var s := st.log[i].job.s;
    NoSocketAnnouncedTwice(steps, s);
    SumSplit(st.log, i, AnnouncedEntry(s));
    SumSplit(st.log[i + 1..], j - i - 1, AnnouncedEntry(s));
  }

  // ------------------------------------------------- after server_close

  /** An accept thread of `v` has passed the `closed` test and not yet counted. */
  predicate PastItsTest(pc: Pc, v: nat) {
    match pc
    case Accept(u, _) => u == v
    case StartPump(next) => next.ThenAccept? && next.v == v
    case QueuePump(next) => next.ThenAccept? && next.v == v
    case PublishAccepted(u, _, _) => u == v
    case SpawnReader(u, _, _) => u == v
    case CountConnection(u, _, _) => u == v
    case _ => false
  }

  function MayCount(v: nat): Thread -> nat {
    (th: Thread) => if PastItsTest(th.pc, v) then 1 else 0
  }

  /** What the accept thread's test sees of a closed server. */
  predicate Barred(st: State, v: nat) {
    v < |st.servers| && st.servers[v].closed
  }

  /** A step leaves the test behind only by counting one connection, or none. */
  predicate WindsDown(st: State, pc: Pc, pc': Pc, action: Action, v: nat) {
    && (PastItsTest(pc', v) ==> PastItsTest(pc, v))
    && (action.Spawn? ==> !PastItsTest(action.thread.pc, v))
    && (action.SetServer? ==> action.v < |st.servers|)
    && (action.SetServer? && action.v == v ==>
          && action.server.closed
          && action.server.connections
             == Connections(st, v) + if PastItsTest(pc, v) && !PastItsTest(pc', v) then 1 else 0)
  }

  lemma ActWindsDown(st: State, pc: Pc, c: Choice, v: nat)
    requires Barred(st, v)
    requires Exists(st, SocketOf(pc), ServerOf(pc)) && Act(st, pc, c).Move?
    ensures WindsDown(st, pc, Act(st, pc, c).pc, Act(st, pc, c).action, v)
  {
    if ServerOf(pc).None? {
    } else {
    }
  }

  /** What `v` has counted plus what it may still count. */
  function Potential(st: State, v: nat): nat {
    Connections(st, v) + Sum(st.threads, MayCount(v))
  }

  lemma PotentialPerform(st: State, t: nat, pc: Pc, action: Action, v: nat)
    requires Barred(st, v) && t < |st.threads|
    requires WindsDown(st, st.threads[t].pc, pc, action, v)
    ensures var post := Perform(Moved(st, t, pc), t, action);
            Barred(post, v) && Potential(post, v) <= Potential(st, v)
  {
    PerformTally(st, t, pc, action, (e: Entry) => 0, MayCount(v));
  }

  lemma PotentialNext(st: State, step: Step, v: nat)
    requires Barred(st, v)
    ensures Barred(Next(st, step), v) && Potential(Next(st, step), v) <= Potential(st, v)
  {
    if step.Advance? {
      var t, c := step.t, step.choice;
      if Runnable(st, t) && Act(st, st.threads[t].pc, c).Move? {
        ActWindsDown(st, st.threads[t].pc, c, v);
        PotentialPerform(st, t, Act(st, st.threads[t].pc, c).pc, Act(st, st.threads[t].pc, c).action, v);
      }
    } else {
      OtherTally(st, step, (e: Entry) => 0, MayCount(v));
    }
  }

  lemma {:induction false} PotentialNeverGrows(st: State, more: seq<Step>, v: nat)
    requires Barred(st, v)
    ensures Barred(Run(st, more), v) && Potential(Run(st, more), v) <= Potential(st, v)
  {
    if more == [] {
    } else {
      PotentialNeverGrows(st, more[..|more| - 1], v);
      PotentialNext(Run(st, more[..|more| - 1]), more[|more| - 1], v);
    }
  }

  /** Once `server_close` has claimed the server, all threads together count at most one more
      connection per accept thread already past its test. */
  lemma ClosedServerWindsDown(steps: seq<Step>, more: seq<Step>, v: nat)
    requires ServerClosed(Reached(steps), v)
    ensures Connections(Reached(steps + more), v)
            <= Connections(Reached(steps), v) + Sum(Reached(steps).threads, MayCount(v))
  {
    RunOfConcat(Init(), steps, more);
    Flags.FlagCoherence(steps);
    PotentialNeverGrows(Reached(steps), more, v);
  }

  // ------------------------------------------------- the same, per thread

  function ConnectionEntryBy(v: nat, t: nat): Entry -> nat {
    (e: Entry) => if e.job.Connection? && e.job.v == v && e.origin == By(t) then 1 else 0
  }

  /** The connections of `v` that thread `t` has counted. */
  function CountedBy(st: State, v: nat, t: nat): nat {
    Sum(st.log, ConnectionEntryBy(v, t)) + if t < |st.threads| then Announcing(v)(st.threads[t]) else 0
  }

  /** What thread `t` may still count for `v` once `v` is closed. */
  function MayStillCount(st: State, v: nat, t: nat): nat {
    if t < |st.threads| then MayCount(v)(st.threads[t]) else 0
  }

  function PotentialBy(st: State, v: nat, t: nat): nat {
    CountedBy(st, v, t) + MayStillCount(st, v, t)
  }

  /** One step of a thread: it counts only what it was still allowed to. */
  predicate CountsWithinLimit(pc: Pc, pc': Pc, action: Action, v: nat) {
    && (action.Enqueue? && action.job.Connection? && action.job.v == v <==> Announces(pc, v))
    && (Announces(pc', v) || PastItsTest(pc', v) ==> PastItsTest(pc, v))
    && (action.Spawn? ==> !Announces(action.thread.pc, v) && !PastItsTest(action.thread.pc, v))
  }

  lemma ActCountsWithinLimit(st: State, pc: Pc, c: Choice, v: nat)
    requires Barred(st, v)
    requires Exists(st, SocketOf(pc), ServerOf(pc)) && Act(st, pc, c).Move?
    ensures CountsWithinLimit(pc, Act(st, pc, c).pc, Act(st, pc, c).action, v)
  {
    if ServerOf(pc).None? {
    } else {
    }
  }

  lemma PotentialByPerform(st: State, t: nat, pc: Pc, action: Action, v: nat, u: nat)
    requires t < |st.threads| && CountsWithinLimit(st.threads[t].pc, pc, action, v)
    ensures PotentialBy(Perform(Moved(st, t, pc), t, action), v, u) <= PotentialBy(st, v, u)
  {
    PerformTally(st, t, pc, action, ConnectionEntryBy(v, u), (th: Thread) => 0);
    ThreadsPerform(st, t, pc, action, u);
  }

  /** What thread `u` holds: a connection counted and not announced, or one it may still count. */
  function Holding(st: State, v: nat, u: nat): nat {
    if u < |st.threads| then Announcing(v)(st.threads[u]) + MayCount(v)(st.threads[u]) else 0
  }

  lemma CallsBeginEmptyHanded(op: Op, v: nat)
    ensures !Announces(EntryPoint(op), v) && !PastItsTest(EntryPoint(op), v)
  {
  }

  lemma HoldingOther(st: State, step: Step, v: nat, u: nat)
    requires !step.Advance?
    ensures Holding(Next(st, step), v, u) == Holding(st, v, u)
  {
    OtherSteps(st, step);
    if step.Invoke? && u == |st.threads| {
      CallsBeginEmptyHanded(step.op, v);
    }
  }

  lemma PotentialByOther(st: State, step: Step, v: nat, u: nat)
    requires !step.Advance?
    ensures PotentialBy(Next(st, step), v, u) == PotentialBy(st, v, u)
  {
    OtherTally(st, step, ConnectionEntryBy(v, u), (th: Thread) => 0);
    HoldingOther(st, step, v, u);
    assert PotentialBy(st, v, u) == Sum(st.log, ConnectionEntryBy(v, u)) + Holding(st, v, u);
  }

  lemma PotentialByNext(st: State, step: Step, v: nat, u: nat)
    requires Barred(st, v)
    ensures PotentialBy(Next(st, step), v, u) <= PotentialBy(st, v, u)
  {
    if !step.Advance? {
      PotentialByOther(st, step, v, u);
    } else if Runnable(st, step.t) && Act(st, st.threads[step.t].pc, step.choice).Move? {
      var out := Act(st, st.threads[step.t].pc, step.choice);
      ActCountsWithinLimit(st, st.threads[step.t].pc, step.choice, v);
      PotentialByPerform(st, step.t, out.pc, out.action, v, u);
    }
  }

  lemma {:induction false} PotentialByNeverGrows(st: State, more: seq<Step>, v: nat, u: nat)
    requires Barred(st, v)
    ensures PotentialBy(Run(st, more), v, u) <= PotentialBy(st, v, u)
  {
    if more == [] {
    } else {
      PotentialByNeverGrows(st, more[..|more| - 1], v, u);
      PotentialNeverGrows(st, more[..|more| - 1], v);
      PotentialByNext(Run(st, more[..|more| - 1]), more[|more| - 1], v, u);
    }
  }

  /** Once `server_close` has claimed the server, no thread counts more than one further connection,
      and only an accept thread already past its test counts any: a thread that starts later, a
      later `listen` included, counts none. */
  lemma EachThreadCountsAtMostOneMore(steps: seq<Step>, more: seq<Step>, v: nat, t: nat)
    requires ServerClosed(Reached(steps), v)
    ensures CountedBy(Reached(steps + more), v, t)
            <= CountedBy(Reached(steps), v, t)
               + (if t < |Reached(steps).threads| then MayCount(v)(Reached(steps).threads[t]) else 0)
    ensures t < |Reached(steps).threads| ==> MayCount(v)(Reached(steps).threads[t]) <= 1
  {
    RunOfConcat(Init(), steps, more);
    Flags.FlagCoherence(steps);
    PotentialByNeverGrows(Reached(steps), more, v, t);
  }
}
