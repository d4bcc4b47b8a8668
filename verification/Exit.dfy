/** What is already in the queue when the keep-alive pump gives up. */
module Exit {
  import opened Base
  import opened Records
  import opened Machine
  import opened Grammar
  import opened CloseOnce
  import Attribution
  import Bytes
  import Handles

  /** The pump job is about to read a handle count that makes it retire. */
  predicate PumpSeesZero(st: State) {
    st.main == PumpTest && st.active <= 0
  }

  predicate Known(st: State, h: Handle) {
    match h
    case TheSocket(s) => s < |st.sockets|
    case TheServer(v) => v < |st.servers|
  }

  lemma KnownAndReleasedIsClosed(steps: seq<Step>, h: Handle)
    requires Reached(steps).active <= 0 && Known(Reached(steps), h)
    ensures IsClosed(Reached(steps), h)
    ensures Sum(Reached(steps).threads, Closing(h)) == 0
  {
    var st := Reached(steps);
    Handles.ZeroMeansAllReleased(steps);
    SumIsZero(st.threads, Closing(h));
    forall t | 0 <= t < |st.threads| ensures Closing(h)(st.threads[t]) == 0 {
      assert Handles.Releasing(st.threads[t]) == 0;
    }
  }

  /** No close is lost at exit: when the pump retires, every socket and every server ever opened
      has exactly one close job in the log. */
  lemma NoCloseLostAtExit(steps: seq<Step>, h: Handle)
    requires PumpSeesZero(Reached(steps)) && Known(Reached(steps), h)
    ensures Sum(Reached(steps).log, CloseEntry(h)) == 1
  {
    KnownAndReleasedIsClosed(steps, h);
    ExactlyOneClose(steps, h);
  }

  predicate OnlyReader(st: State, s: nat, t: nat) {
    && t < |st.threads| && Attribution.LivesFor(st.threads[t].role, s)
    && forall u | 0 <= u < |st.threads| && u != t :: !Attribution.LivesFor(st.threads[u].role, s)
  }

  /** Some close of `s` in the log was enqueued by `t`. */
  predicate ClosedBy(st: State, s: nat, t: nat) {
    exists i | 0 <= i < |st.log| :: st.log[i].origin == By(t) && st.log[i].job.Close? && st.log[i].job.s == s
  }

  lemma ConnectorClosesLast(pc: Pc, tr: seq<Job>, s: nat, k: nat)
    requires ConnectorAt(pc, tr, s) && k < |tr| && tr[k].Close?
    ensures ClosedSentence(tr, s) && (pc.Release? || pc.Done?)
  {
    assert k < |tr| - 1 ==> tr[k] == tr[..|tr| - 1][k];
    assert k < |tr| - 2 ==> tr[k] == tr[..|tr| - 1][..|tr| - 2][k];
  }

  lemma AcceptedClosesLast(pc: Pc, tr: seq<Job>, s: nat, k: nat)
    requires AcceptedAt(pc, tr, s) && k < |tr| && tr[k].Close?
    ensures ClosedReceived(tr, s) && (pc.Release? || pc.Done?)
  {
    assert k < |tr| - 1 ==> tr[k] == tr[..|tr| - 1][k];
    assert k < |tr| - 2 ==> tr[k] == tr[..|tr| - 1][..|tr| - 2][k];
  }

  lemma CloserHasEnded(steps: seq<Step>, s: nat, t: nat)
    requires var st := Reached(steps); t < |st.threads| && Attribution.LivesFor(st.threads[t].role, s) && ClosedBy(st, s, t)
    ensures var st := Reached(steps); st.threads[t].pc.Release? || st.threads[t].pc.Done?
    ensures var tr := Trace(Reached(steps).log, t);
            if Reached(steps).threads[t].role == Connector(s) then ClosedSentence(tr, s) else ClosedReceived(tr, s)
  {
    var st := Reached(steps);
    var tr := Trace(st.log, t);
    AlwaysInRole(steps);
    assert ThreadInRole(st, t);
    var i :| 0 <= i < |st.log| && st.log[i].origin == By(t) && st.log[i].job.Close? && st.log[i].job.s == s;
    TraceHolds(st.log, t, i);
    var k :| 0 <= k < |tr| && tr[k] == st.log[i].job;
    if st.threads[t].role == Connector(s) {
      ConnectorClosesLast(st.threads[t].pc, tr, s, k);
    } else {
      AcceptedClosesLast(st.threads[t].pc, tr, s, k);
    }
  }

  /** `t` got as far as reading `s`: it was accepted, or it has announced the connection. */
  predicate ReachedItsLoop(st: State, s: nat, t: nat) {
    && t < |st.threads|
    && (st.threads[t].role == AcceptedReader(s)
        || (st.threads[t].role == Connector(s)
            && exists i | 0 <= i < |st.log| :: st.log[i].origin == By(t) && st.log[i].job == ConnectReady(s)))
  }

  /** `lookup connect ready data* end close` of a client, or `data* end close` of an accepted socket. */
  predicate EndedThenClosed(tr: seq<Job>, s: nat) {
    && |tr| > 1 && tr[|tr| - 1].Close? && tr[|tr| - 1].s == s && tr[|tr| - 2] == End(s)
    && (Streaming(tr[..|tr| - 2], s) || Receiving(tr[..|tr| - 2], s))
  }

  lemma AnnouncedIsNotRefused(tr: seq<Job>, s: nat, k: nat)
    requires ClosedSentence(tr, s) && k < |tr| && tr[k] == ConnectReady(s)
    ensures EndedThenClosed(tr, s)
  {
    assert k < |tr| - 1 && tr[..|tr| - 1][k] == tr[k];
    assert tr[..|tr| - 1][..|tr| - 2] == tr[..|tr| - 2];
  }

  lemma ReceivedIsEnded(tr: seq<Job>, s: nat)
    requires ClosedReceived(tr, s)
    ensures EndedThenClosed(tr, s)
  {
    assert tr[..|tr| - 1][..|tr| - 2] == tr[..|tr| - 2];
  }

  /** A read loop whose close of the socket is in the log has enqueued its data, then the end, then
      that close, and nothing else. */
  lemma ReaderEndsBeforeItCloses(steps: seq<Step>, s: nat, t: nat)
    requires ReachedItsLoop(Reached(steps), s, t) && ClosedBy(Reached(steps), s, t)
    ensures EndedThenClosed(Trace(Reached(steps).log, t), s)
  {
    var st := Reached(steps);
    var tr := Trace(st.log, t);
    CloserHasEnded(steps, s, t);
    if st.threads[t].role == AcceptedReader(s) {
      ReceivedIsEnded(tr, s);
    } else {
      var i :| 0 <= i < |st.log| && st.log[i].origin == By(t) && st.log[i].job == ConnectReady(s);
      TraceHolds(st.log, t, i);
      var k :| 0 <= k < |tr| && tr[k] == st.log[i].job;
      AnnouncedIsNotRefused(tr, s, k);
    }
  }

  /**
   * A thread that closed its own socket has left nothing behind. All it ever enqueued is a whole
   * sentence and that close: data, `end`, close if it reached its read loop, `lookup error close`
   * if it was refused. As it was the only reader, the data jobs carry every byte the socket counted.
   */
  lemma ReadLoopLosesNothing(steps: seq<Step>, s: nat, t: nat)
    requires ClosedBy(Reached(steps), s, t) && OnlyReader(Reached(steps), s, t)
    ensures var tr := Trace(Reached(steps).log, t);
            if Reached(steps).threads[t].role == Connector(s) then ClosedSentence(tr, s) else ClosedReceived(tr, s)
    ensures ReachedItsLoop(Reached(steps), s, t) ==> EndedThenClosed(Trace(Reached(steps).log, t), s)
    ensures Bytes.BytesRead(Reached(steps), s) == Sum(Reached(steps).log, Bytes.DataEntry(s))
  {
    var st := Reached(steps);
    CloserHasEnded(steps, s, t);
    if ReachedItsLoop(st, s, t) {
      ReaderEndsBeforeItCloses(steps, s, t);
    }
    Bytes.ByteConservation(steps, s);
    Attribution.AlwaysAttributed(steps);
    AlwaysInRole(steps);
    SumIsZero(st.threads, Bytes.InHand(s));
    forall u | 0 <= u < |st.threads| ensures Bytes.InHand(s)(st.threads[u]) == 0 {
      assert ThreadInRole(st, u) && Attribution.ThreadFits(st, u);
    }
  }
}
