/**
 * Which ends of the handshake shut what, and what a half-open end can still do: an end shuts its
 * write half because its plan asks for it or because the stream ended and it is not half-open, and
 * for no other reason.
 */
module HalfOpen {
  import opened Records
  import opened Handshake

  // -------------------------------------------------------- the write half

  /** The read loop has ended with the stream on an end that is not half-open. */
  predicate HalfClosed(e: Endpoint) {
    !e.socket.allowHalfOpen && LeftItsLoop(e) && !e.readFailed
  }

  lemma ReaderShuts(me: Endpoint)
    requires me.reader != Reading && me.reader != Finished && (HalfClosed(me) ==> me.writeShut)
    requires me.readFailed ==> LeftItsLoop(me)
    ensures WillShut(StepReader(me)) <==> WillShut(me) || HalfClosed(StepReader(me))
    ensures HalfClosed(StepReader(me)) ==> StepReader(me).writeShut
  {
  }

  lemma CallerShuts(me: Endpoint)
    requires me.caller != Idle && (HalfClosed(me) ==> me.writeShut)
    ensures WillShut(StepCaller(me)) <==> WillShut(me)
    ensures HalfClosed(StepCaller(me)) <==> HalfClosed(me)
  {
  }

  lemma ShutsForAReason(me: Endpoint, act: Act)
    requires Enabled(me, act) && (HalfClosed(me) ==> me.writeShut) && (me.readFailed ==> LeftItsLoop(me))
    ensures WillShut(Step(me, act)) <==> WillShut(me) || HalfClosed(Step(me, act))
  {
    match act {
      case ReaderStep => ReaderShuts(me);
      case UserStep(k) =>
        if me.caller != Idle {
          CallerShuts(me);
        } else {
          PlanAhead(me, k);
        }
      case _ =>
    }
  }

  /** One move, seen from the end `onLeft`: its own step, or bytes that arrive. */
  lemma OneEndMoves(w: World, m: Move, onLeft: bool)
    requires Can(w, m)
    ensures var me, me' := Mine(w, onLeft), Mine(Do(w, m), onLeft);
            if m.onLeft == onLeft then me' == Step(me, m.act)
            else me' == me.(inbox := me.inbox + Sent(Peer(w, onLeft), m.act))
  {
  }

  lemma ShutsForAReasonMove(w: World, m: Move, onLeft: bool)
    requires Sound(w) && Can(w, m)
    ensures var me, me' := Mine(w, onLeft), Mine(Do(w, m), onLeft);
            && (WillShut(me') <==> WillShut(me) || HalfClosed(me'))
            && (HalfClosed(me) ==> HalfClosed(me'))
  {
    OneEndMoves(w, m, onLeft);
    PairsAreWorlds(w, onLeft);
    if m.onLeft == onLeft {
      ShutsForAReason(Mine(w, onLeft), m.act);
      if HalfClosed(Mine(w, onLeft)) {
        HalfClosedStep(Mine(w, onLeft), m.act);
      }
    }
  }

  lemma HalfClosedStep(me: Endpoint, act: Act)
    requires Enabled(me, act) && HalfClosed(me)
    ensures HalfClosed(Step(me, act))
  {
    if act.ReaderStep? {
    } else if act.UserStep? && me.caller == Idle {
    } else {
    }
  }

  lemma {:induction false} ShutsForAReasonRun(w: World, moves: seq<Move>, onLeft: bool)
    requires Sound(w) && Legal(w, moves)
    ensures var me, me' := Mine(w, onLeft), Mine(After(w, moves), onLeft);
            && (WillShut(me') <==> WillShut(me) || HalfClosed(me'))
            && (HalfClosed(me) ==> HalfClosed(me'))
    decreases |moves|
  {
    if moves == [] {
      PairsAreWorlds(w, onLeft);
    } else {
      SoundMove(w, moves[0]);
      ShutsForAReasonMove(w, moves[0], onLeft);
      ShutsForAReasonRun(Do(w, moves[0]), moves[1..], onLeft);
    }
  }

  /** Over all runs: an end has shut its write half, or is going to by a call, exactly when its plan
      calls `end` or `destroy`, or the stream has ended on it and it is not half-open. */
  lemma ShutsExactly(w: World, moves: seq<Move>, onLeft: bool)
    requires Connected(w) && Legal(w, moves)
    ensures WillShut(Mine(After(w, moves), onLeft))
            <==> Asks(Mine(w, onLeft).plan) || HalfClosed(Mine(After(w, moves), onLeft))
  {
    ShutsForAReasonRun(w, moves, onLeft);
  }

  /** At rest it has. */
  lemma ShutAtRest(w: World, moves: seq<Move>, onLeft: bool)
    requires Connected(w) && Legal(w, moves) && Quiet(After(w, moves))
    ensures Mine(After(w, moves), onLeft).writeShut
            <==> Asks(Mine(w, onLeft).plan) || HalfClosed(Mine(After(w, moves), onLeft))
  {
    ShutsExactly(w, moves, onLeft);
    QuietEnd(After(w, moves), onLeft);
  }

  lemma {:induction false} HalfOpenStays(w: World, moves: seq<Move>, onLeft: bool)
    requires Legal(w, moves)
    ensures Mine(After(w, moves), onLeft).socket.allowHalfOpen == Mine(w, onLeft).socket.allowHalfOpen
    decreases |moves|
  {
    if moves == [] {
    } else {
      OneEndMoves(w, moves[0], onLeft);
      HalfOpenStays(Do(w, moves[0]), moves[1..], onLeft);
    }
  }

  /** The write half of a half-open end whose plan does not ask stays open in every run, the end of
      its peer's stream included. */
  lemma HalfOpenEndsStayWritable(w: World, moves: seq<Move>, onLeft: bool)
    requires Connected(w) && Legal(w, moves)
    requires Mine(w, onLeft).socket.allowHalfOpen && !Asks(Mine(w, onLeft).plan)
    ensures !Mine(After(w, moves), onLeft).writeShut
  {
    ShutsExactly(w, moves, onLeft);
    HalfOpenStays(w, moves, onLeft);
  }

  // ---------------------------------------------------- what gets written

  /** All that a plan writes, in order. */
  function Planned(plan: seq<Call>): seq<Byte> {
    if plan == [] then [] else (if plan[0].Write? then plan[0].bytes else []) + Planned(plan[1..])
  }

  /** The kernel takes nothing of a write that offers something. */
  predicate RefusedWrite(me: Endpoint, act: Act) {
    act == UserStep(0) && me.caller == Idle && me.plan != [] && me.plan[0].Write? && me.plan[0].bytes != []
  }

  predicate TakesAll(w: World, moves: seq<Move>, onLeft: bool)
    requires Legal(w, moves)
    decreases |moves|
  {
    moves == []
    || ((moves[0].onLeft == onLeft ==> !RefusedWrite(Mine(w, onLeft), moves[0].act))
        && TakesAll(Do(w, moves[0]), moves[1..], onLeft))
  }

  lemma PlannedOfWrite(bytes: seq<Byte>, rest: seq<Call>)
    ensures Planned([Write(bytes)] + rest) == bytes + Planned(rest)
  {
    assert ([Write(bytes)] + rest)[1..] == rest;
  }

  lemma PartOfAWrite(written: seq<Byte>, bytes: seq<Byte>, k: nat, rest: seq<Call>)
    requires k <= |bytes|
    ensures written + bytes[..k] + Planned([Write(bytes[k..])] + rest) == written + Planned([Write(bytes)] + rest)
  {
    PlannedOfWrite(bytes, rest);
    PlannedOfWrite(bytes[k..], rest);
    assert bytes[..k] + bytes[k..] == bytes;
  }

  lemma CallWritesPlanned(me: Endpoint, k: nat)
    requires me.caller == Idle && Enabled(me, UserStep(k)) && !me.writeShut && !RefusedWrite(me, UserStep(k))
    ensures StartCall(me, k).written + Planned(StartCall(me, k).plan) == me.written + Planned(me.plan)
  {
    if me.plan[0].Write? && k > 0 {
      PartOfAWrite(me.written, me.plan[0].bytes, k, me.plan[1..]);
      assert me.plan == [me.plan[0]] + me.plan[1..];
    } else {
      assert [] + Planned(me.plan[1..]) == Planned(me.plan[1..]);
    }
  }

  lemma StepWritesPlanned(me: Endpoint, act: Act)
    requires Enabled(me, act) && !me.writeShut && !RefusedWrite(me, act)
    ensures Step(me, act).written + Planned(Step(me, act).plan) == me.written + Planned(me.plan)
  {
    if act.UserStep? && me.caller == Idle {
      CallWritesPlanned(me, act.count);
    } else if act.UserStep? {
    } else if act.ReaderStep? {
    } else {
    }
  }

  lemma {:induction false} WritesPlannedRun(w: World, moves: seq<Move>, onLeft: bool)
    requires Sound(w) && Legal(w, moves) && TakesAll(w, moves, onLeft)
    requires !WillShut(Mine(w, onLeft)) && Mine(w, onLeft).socket.allowHalfOpen
    ensures Mine(After(w, moves), onLeft).written + Planned(Mine(After(w, moves), onLeft).plan)
            == Mine(w, onLeft).written + Planned(Mine(w, onLeft).plan)
    decreases |moves|
  {
    if moves == [] {
    } else {
      SoundMove(w, moves[0]);
      OneEndMoves(w, moves[0], onLeft);
      ShutsForAReasonMove(w, moves[0], onLeft);
      if moves[0].onLeft == onLeft {
        StepWritesPlanned(Mine(w, onLeft), moves[0].act);
      }
      WritesPlannedRun(Do(w, moves[0]), moves[1..], onLeft);
    }
  }

  lemma ConnectedIsSound(w: World)
    requires Connected(w)
    ensures Sound(w)
  {
  }

  /** A half-open end that neither ends nor destroys gets all its writes through, whatever its peer
      does and whenever its peer's stream ends, as long as the kernel does not refuse; and its peer
      has pushed, in hand or in its kernel's buffer exactly those bytes. */
  lemma HalfOpenEndsWriteEverything(w: World, moves: seq<Move>, onLeft: bool)
    requires Connected(w) && Legal(w, moves) && Quiet(After(w, moves)) && TakesAll(w, moves, onLeft)
    requires Mine(w, onLeft).socket.allowHalfOpen && !Asks(Mine(w, onLeft).plan)
    ensures Mine(After(w, moves), onLeft).written == Planned(Mine(w, onLeft).plan)
    ensures Arrived(Peer(After(w, moves), onLeft)) == Planned(Mine(w, onLeft).plan)
  {
    ConnectedIsSound(w);
    WritesPlannedRun(w, moves, onLeft);
    QuietEnd(After(w, moves), onLeft);
    BytesArriveInOrder(w, moves, !onLeft);
    NothingLeftToWrite(Mine(After(w, moves), onLeft), Mine(w, onLeft));
  }

  lemma NothingLeftToWrite(end: Endpoint, start: Endpoint)
    requires end.written + Planned(end.plan) == start.written + Planned(start.plan)
    requires end.plan == [] && start.written == []
    ensures end.written == Planned(start.plan)
  {
    assert Planned(end.plan) == [] && end.written + [] == end.written;
    assert [] + Planned(start.plan) == Planned(start.plan);
  }

  // ----------------------------------------------------------- the read half

  predicate Destroys(plan: seq<Call>) {
    plan != [] && (plan[0].Destroy? || Destroys(plan[1..]))
  }

  /** This end has shut its read half or is going to. */
  predicate WillStopReading(e: Endpoint) {
    e.readShut || e.caller == SetsError || e.caller == QueuesError || e.caller == ShutsDown || Destroys(e.plan)
  }

  lemma StopsReadingStep(me: Endpoint, act: Act)
    requires Enabled(me, act)
    ensures WillStopReading(Step(me, act)) <==> WillStopReading(me)
  {
    if act.UserStep? && me.caller == Idle {
      var next := StartCall(me, act.count).plan;
      assert next != me.plan[1..] ==> next[1..] == me.plan[1..];
    } else if act.UserStep? {
    } else if act.ReaderStep? {
    } else {
    }
  }

  lemma {:induction false} StopsReadingRun(w: World, moves: seq<Move>, onLeft: bool)
    requires Legal(w, moves)
    ensures WillStopReading(Mine(After(w, moves), onLeft)) <==> WillStopReading(Mine(w, onLeft))
    decreases |moves|
  {
    if moves == [] {
    } else {
      OneEndMoves(w, moves[0], onLeft);
      if moves[0].onLeft == onLeft {
        StopsReadingStep(Mine(w, onLeft), moves[0].act);
      }
      StopsReadingRun(Do(w, moves[0]), moves[1..], onLeft);
    }
  }

  /** At rest the read loop of an end has finished exactly when its own plan destroys it, or its peer
      shut its write half and the end has seen it, or it left on a hard error; a destroyed socket's
      read loop never stays behind. */
  lemma ReadersFinish(w: World, moves: seq<Move>, onLeft: bool)
    requires Connected(w) && Legal(w, moves) && Quiet(After(w, moves))
    ensures var me, peer := Mine(After(w, moves), onLeft), Peer(After(w, moves), onLeft);
            me.reader == Finished <==> Destroys(Mine(w, onLeft).plan) || peer.writeShut || me.readFailed
  {
    var me := Mine(After(w, moves), onLeft);
    ConnectedIsSound(w);
    SoundRun(w, moves);
    PairsAreWorlds(After(w, moves), onLeft);
    StopsReadingRun(w, moves, onLeft);
    QuietEnd(After(w, moves), onLeft);
    assert me.readShut <==> Destroys(Mine(w, onLeft).plan);
  }
}
