/**
 * The ends of Handshake.dfy are threads of Machine.dfy: every move of a read loop or of a user's
 * call is `Machine.Act` at the position that stands for it, and every run of the handshake is a
 * run of the machine.
 */
module HandshakeActs {
  import opened Base
  import opened Records
  import opened Machine
  import H = Handshake

  // --------------------------------------------------------- single moves

  /** The machine's program counter of a read loop of socket `s`. */
  function ReaderPc(r: H.Reader, s: nat): Pc {
    match r
    case Reading => Pc.Read(s)
    case Pushing(chunk) => Pc.Push(s, |chunk|)
    case SawEof => Pc.HalfClose(s)
    case QueueingEnd => Pc.QueueEnd(s)
    case Claiming => Pc.Claim(s)
    case QueueingClose(hadError) => Pc.QueueClose(s, hadError)
    case Releasing => Pc.Release
    case Finished => Pc.Done
  }

  /** The machine's program counter of the user's current call on socket `s`. */
  function CallerPc(c: H.Caller, s: nat): Pc {
    match c
    case Idle => Pc.Done
    case SetsError => Pc.SetError(s)
    case QueuesError => Pc.QueueError(s)
    case ShutsDown => Pc.Shutdown(s)
    case Claims => Pc.Claim(s)
    case QueuesClose(hadError) => Pc.QueueClose(s, hadError)
    case Releases => Pc.Release
  }

  /** How the outside world answers the move. */
  function Answer(act: H.Act): Choice {
    match act
    case Receive(n) => Bytes(n)
    case SeeEof => Eof
    case HardError => Fail
    case _ => Ok
  }

  /** A move that works on socket `s` alone. */
  predicate OnlyOn(action: Action, s: nat) {
    match action
    case Skip => true
    case SetSocket(r, _) => r == s
    case Enqueue(job) => !job.Connection?
    case CloseHandle => true
    case _ => false
  }

  /** `outcome` goes to `pc`, leaves socket `s` with `record`, and releases so many handles. */
  predicate Matches(st: State, outcome: Outcome, pc: Pc, s: nat, record: SocketState, released: nat)
    requires s < |st.sockets|
  {
    && outcome.Move? && outcome.pc == pc && OnlyOn(outcome.action, s)
    && record == (if outcome.action.SetSocket? then outcome.action.socket else st.sockets[s])
    && released == if outcome.action.CloseHandle? then 1 else 0
  }

  lemma ReadsAreActs(st: State, s: nat, me: H.Endpoint, act: H.Act)
    requires s < |st.sockets| && st.sockets[s] == me.socket
    requires H.Enabled(me, act) && !act.UserStep? && !act.ReaderStep?
    ensures var me' := H.Step(me, act);
            Matches(st, Act(st, Pc.Read(s), Answer(act)), ReaderPc(me'.reader, s), s, me'.socket, 0)
  {
  }

  lemma ClaimIsAct(st: State, s: nat, me: H.Endpoint)
    requires s < |st.sockets| && st.sockets[s] == me.socket && me.reader == H.Claiming
    ensures var me' := H.StepReader(me);
            Matches(st, Act(st, Pc.Claim(s), Ok), ReaderPc(me'.reader, s), s, me'.socket, 0)
  {
  }

  lemma ReaderStepsAreActs(st: State, s: nat, me: H.Endpoint)
    requires s < |st.sockets| && st.sockets[s] == me.socket && me.reader != H.Reading && me.reader != H.Finished
    ensures var me' := H.StepReader(me);
            Matches(st, Act(st, ReaderPc(me.reader, s), Ok), ReaderPc(me'.reader, s), s, me'.socket,
                    if me.reader == H.Releasing then 1 else 0)
  {
    if me.reader == H.Claiming {
      ClaimIsAct(st, s, me);
    } else if me.reader.QueueingClose? || me.reader == H.Releasing {
    } else {
    }
  }

  /** Every move of the read loop is the machine's step at that point: same record, same next
      position, same release. */
  lemma ReaderMovesAreActs(st: State, s: nat, me: H.Endpoint, act: H.Act)
    requires s < |st.sockets| && st.sockets[s] == me.socket && H.Enabled(me, act) && !act.UserStep?
    ensures var me' := H.Step(me, act);
            Matches(st, Act(st, ReaderPc(me.reader, s), Answer(act)), ReaderPc(me'.reader, s), s, me'.socket,
                    H.Released(me, act))
  {
    if act.ReaderStep? {
      ReaderStepsAreActs(st, s, me);
    } else {
      ReadsAreActs(st, s, me, act);
    }
  }

  /** So is every move of a call in progress. */
  lemma CallerMovesAreActs(st: State, s: nat, me: H.Endpoint)
    requires s < |st.sockets| && st.sockets[s] == me.socket && me.caller != H.Idle
    ensures var me' := H.StepCaller(me);
            Matches(st, Act(st, CallerPc(me.caller, s), Ok), CallerPc(me'.caller, s), s, me'.socket,
                    if me.caller == H.Releases then 1 else 0)
  {
    if me.caller == H.Claims {
    } else if me.caller.QueuesClose? || me.caller == H.Releases {
    } else {
    }
  }

  /** Conversely, whatever the machine's read loop can do, and the wire allows, the handshake has as a
      move; and a call in progress can always go on. */
  lemma ActsAreMoves(st: State, s: nat, me: H.Endpoint, c: Choice)
    requires s < |st.sockets| && st.sockets[s] == me.socket
    ensures Act(st, ReaderPc(me.reader, s), c).Move? ==>
              if me.reader != H.Reading then H.Enabled(me, H.ReaderStep)
              else match c
                   case Bytes(n) => n <= |me.inbox| ==> H.Enabled(me, H.Receive(n))
                   case Eof => me.readShut || me.inbox == [] ==> H.Enabled(me, H.SeeEof)
                   case Fail => H.Enabled(me, H.HardError)
                   case _ => true
    ensures Act(st, CallerPc(me.caller, s), c).Move? ==> forall k: nat :: H.Enabled(me, H.UserStep(k))
  {
  }

  /** The machine's operation for a call of the plan that runs as a thread. */
  function OpOf(call: H.Call, s: nat): Option<Op> {
    match call
    case Destroy(withError) => Some(Op.Destroy(s, withError))
    case DestroySoon => Some(Op.DestroySoon(s))
    case _ => None
  }

  /** A call of `destroy` or `destroySoon` begins where the machine's operation begins; the calls
      that only write or end touch neither the record nor the read loop. */
  lemma CallsStartAsOps(me: H.Endpoint, k: nat, s: nat)
    requires me.caller == H.Idle && H.Enabled(me, H.UserStep(k))
    ensures var me', op := H.StartCall(me, k), OpOf(me.plan[0], s);
            && CallerPc(me'.caller, s) == (if op.Some? then EntryPoint(op.value) else Done)
            && (me'.caller == H.Idle <==> op.None?)
            && me'.socket == me.socket && me'.reader == me.reader
  {
  }

  // ------------------------------------------------------------- whole runs

  /** Where the machine keeps an end: its socket, its read loop, and its call in progress. */
  datatype Place = Place(s: nat, reader: nat, caller: Option<nat>)

  predicate StandsAt(st: State, me: H.Endpoint, p: Place) {
    && p.s < |st.sockets| && st.sockets[p.s] == me.socket && HandedOut(st, p.s)
    && p.reader < |st.threads| && st.threads[p.reader].pc == ReaderPc(me.reader, p.s)
    && (me.caller == H.Idle <==> p.caller.None?)
    && (p.caller.Some? ==>
          p.caller.value < |st.threads| && st.threads[p.caller.value].pc == CallerPc(me.caller, p.s))
  }

  /** Two ends, and the threads of each, are different ones. */
  predicate Distinct(p: Place, q: Place) {
    && p.s != q.s && p.reader != q.reader
    && p.caller != Some(p.reader) && p.caller != Some(q.reader)
    && q.caller != Some(p.reader) && q.caller != Some(q.reader)
    && (p.caller.Some? ==> p.caller != q.caller)
  }

  /** Thread `t` has gone to `pc`, socket `s` holds `record`, and nothing else has changed but for
      jobs enqueued that announce no connection. */
  predicate WentOn(st: State, post: State, t: nat, pc: Pc, s: nat, record: SocketState)
    requires t < |st.threads| && s < |st.sockets|
  {
    && post.threads == st.threads[t := st.threads[t].(pc := pc)]
    && post.sockets == st.sockets[s := record]
    && post.ran == st.ran && |st.log| <= |post.log|
    && forall i | 0 <= i < |post.log| ::
         if i < |st.log| then post.log[i] == st.log[i] else !post.log[i].job.Connection?
  }

  lemma MatchedStep(st: State, t: nat, c: Choice, pc: Pc, s: nat, record: SocketState, released: nat)
    requires s < |st.sockets| && Runnable(st, t)
    requires Matches(st, Act(st, st.threads[t].pc, c), pc, s, record, released)
    ensures WentOn(st, Next(st, Advance(t, c)), t, pc, s, record)
    ensures Next(st, Advance(t, c)).active == st.active - released
  {
    assert st.sockets[s := st.sockets[s]] == st.sockets;
  }

  lemma StaysHandedOut(st: State, post: State, t: nat, pc: Pc, s: nat, record: SocketState, r: nat)
    requires t < |st.threads| && s < |st.sockets| && WentOn(st, post, t, pc, s, record)
    requires HandedOut(st, r) && !Withholds(st.threads[t].(pc := pc), r)
    ensures HandedOut(post, r)
  {
    forall u | 0 <= u < |post.threads| ensures !Withholds(post.threads[u], r) {
      assert u != t ==> post.threads[u] == st.threads[u];
    }
  }

  /** A thread that is not the peer's leaves the peer alone. */
  lemma PeerStands(st: State, post: State, t: nat, pc: Pc, s: nat, record: SocketState, peer: H.Endpoint, q: Place)
    requires t < |st.threads| && s < |st.sockets| && WentOn(st, post, t, pc, s, record)
    requires StandsAt(st, peer, q) && q.s != s && q.reader != t && q.caller != Some(t)
    requires !Withholds(st.threads[t].(pc := pc), q.s)
    ensures StandsAt(post, peer, q)
  {
    StaysHandedOut(st, post, t, pc, s, record, q.s);
  }

  lemma PositionsWithholdNothing(r: H.Reader, c: H.Caller, s: nat, role: Role, any: nat)
    ensures !Withholds(Thread(ReaderPc(r, s), role), any) && !Withholds(Thread(CallerPc(c, s), role), any)
  {
  }

  /** When the read loop has gone on, both ends stand where they should. */
  lemma ReaderStands(st: State, post: State, me: H.Endpoint, me': H.Endpoint, p: Place, peer: H.Endpoint, q: Place)
    requires StandsAt(st, me, p) && StandsAt(st, peer, q) && Distinct(p, q) && me'.caller == me.caller
    requires WentOn(st, post, p.reader, ReaderPc(me'.reader, p.s), p.s, me'.socket)
    ensures StandsAt(post, me', p) && StandsAt(post, peer, q)
  {
    var pc, role := ReaderPc(me'.reader, p.s), st.threads[p.reader].role;
    PositionsWithholdNothing(me'.reader, me'.caller, p.s, role, p.s);
    PositionsWithholdNothing(me'.reader, me'.caller, p.s, role, q.s);
    StaysHandedOut(st, post, p.reader, pc, p.s, me'.socket, p.s);
    PeerStands(st, post, p.reader, pc, p.s, me'.socket, peer, q);
  }

  lemma ReaderKeepsCall(me: H.Endpoint, act: H.Act)
    requires H.Enabled(me, act) && !act.UserStep?
    ensures H.Step(me, act).caller == me.caller
  {
  }

  /** The machine's step for a move by the read loop. */
  lemma ReaderMoves(st: State, me: H.Endpoint, p: Place, peer: H.Endpoint, q: Place, act: H.Act)
    requires StandsAt(st, me, p) && StandsAt(st, peer, q) && Distinct(p, q)
    requires H.Enabled(me, act) && !act.UserStep?
    ensures var post := Next(st, Advance(p.reader, Answer(act)));
            && StandsAt(post, H.Step(me, act), p) && StandsAt(post, peer, q)
            && post.active == st.active - H.Released(me, act)
  {
    ReaderMovesAreActs(st, p.s, me, act);
    ReaderKeepsCall(me, act);
    var me', post := H.Step(me, act), Next(st, Advance(p.reader, Answer(act)));
    MatchedStep(st, p.reader, Answer(act), ReaderPc(me'.reader, p.s), p.s, me'.socket, H.Released(me, act));
    ReaderStands(st, post, me, me', p, peer, q);
  }

  /** The place after a move of a call in progress. */
  function PlaceAfter(p: Place, me': H.Endpoint): Place {
    if me'.caller == H.Idle then p.(caller := None) else p
  }

  /** The same when the call in progress has gone on. */
  lemma CallerStands(st: State, post: State, me: H.Endpoint, me': H.Endpoint, p: Place, peer: H.Endpoint, q: Place)
    requires StandsAt(st, me, p) && StandsAt(st, peer, q) && Distinct(p, q)
    requires me.caller != H.Idle && me'.reader == me.reader
    requires WentOn(st, post, p.caller.value, CallerPc(me'.caller, p.s), p.s, me'.socket)
    ensures StandsAt(post, me', PlaceAfter(p, me')) && StandsAt(post, peer, q) && Distinct(PlaceAfter(p, me'), q)
  {
    var t, pc, role := p.caller.value, CallerPc(me'.caller, p.s), st.threads[p.caller.value].role;
    PositionsWithholdNothing(me'.reader, me'.caller, p.s, role, p.s);
    PositionsWithholdNothing(me'.reader, me'.caller, p.s, role, q.s);
    StaysHandedOut(st, post, t, pc, p.s, me'.socket, p.s);
    PeerStands(st, post, t, pc, p.s, me'.socket, peer, q);
  }

  lemma CallerKeepsReader(me: H.Endpoint)
    requires me.caller != H.Idle
    ensures H.StepCaller(me).reader == me.reader
  {
  }

  /** The machine's step for a move by a call in progress. */
  lemma CallerMoves(st: State, me: H.Endpoint, p: Place, peer: H.Endpoint, q: Place)
    requires StandsAt(st, me, p) && StandsAt(st, peer, q) && Distinct(p, q) && me.caller != H.Idle
    ensures var post, me' := Next(st, Advance(p.caller.value, Ok)), H.StepCaller(me);
            && StandsAt(post, me', PlaceAfter(p, me')) && StandsAt(post, peer, q) && Distinct(PlaceAfter(p, me'), q)
            && post.active == st.active - if me.caller == H.Releases then 1 else 0
  {
    CallerMovesAreActs(st, p.s, me);
    CallerKeepsReader(me);
    var t, me' := p.caller.value, H.StepCaller(me);
    MatchedStep(st, t, Ok, CallerPc(me'.caller, p.s), p.s, me'.socket, if me.caller == H.Releases then 1 else 0);
    CallerStands(st, Next(st, Advance(t, Ok)), me, me', p, peer, q);
  }

  /** Starting a thread that withholds nothing leaves every end where it stands. */
  lemma StandsAfterInvoke(st: State, op: Op, me: H.Endpoint, p: Place)
    requires StandsAt(st, me, p) && CanInvoke(st, op)
    requires !Withholds(Thread(EntryPoint(op), Caller(op)), p.s)
    ensures StandsAt(Next(st, Invoke(op)), me, p)
  {
    var post := Next(st, Invoke(op));
    assert forall u | 0 <= u < |st.threads| :: post.threads[u] == st.threads[u];
  }

  /** The machine's step for the beginning of a call that runs as a thread. */
  lemma CallMoves(st: State, me: H.Endpoint, p: Place, peer: H.Endpoint, q: Place, op: Op)
    requires StandsAt(st, me, p) && StandsAt(st, peer, q) && Distinct(p, q) && me.caller == H.Idle && me.plan != []
    requires OpOf(me.plan[0], p.s) == Some(op)
    ensures var post, p' := Next(st, Invoke(op)), p.(caller := Some(|st.threads|));
            && StandsAt(post, H.StartCall(me, 0), p') && StandsAt(post, peer, q) && Distinct(p', q)
            && post.active == st.active
  {
    CallsStartAsOps(me, 0, p.s);
    PositionsWithholdNothing(me.reader, H.StartCall(me, 0).caller, p.s, Caller(op), p.s);
    PositionsWithholdNothing(me.reader, H.StartCall(me, 0).caller, p.s, Caller(op), q.s);
    StandsAfterInvoke(st, op, me, p);
    StandsAfterInvoke(st, op, peer, q);
  }

  /** The machine's step, if any, for a move of one end. */
  lemma EndMoves(st: State, me: H.Endpoint, p: Place, peer: H.Endpoint, q: Place, act: H.Act)
    returns (steps: seq<Step>, p': Place)
    requires StandsAt(st, me, p) && StandsAt(st, peer, q) && Distinct(p, q) && H.Enabled(me, act)
    ensures var post := Run(st, steps);
            && StandsAt(post, H.Step(me, act), p') && StandsAt(post, peer, q) && Distinct(p', q)
            && post.active == st.active - H.Released(me, act)
    ensures p'.s == p.s
  {
    var op := if act.UserStep? && me.caller == H.Idle then OpOf(me.plan[0], p.s) else None;
    if !act.UserStep? {
      ReaderMoves(st, me, p, peer, q, act);
      steps, p' := [Advance(p.reader, Answer(act))], p;
    } else if me.caller != H.Idle {
      CallerMoves(st, me, p, peer, q);
      steps, p' := [Advance(p.caller.value, Ok)], PlaceAfter(p, H.StepCaller(me));
    } else if op.Some? {
      CallMoves(st, me, p, peer, q, op.value);
      steps, p' := [Invoke(op.value)], p.(caller := Some(|st.threads|));
    } else {
      CallsStartAsOps(me, act.count, p.s);
      steps, p' := [], p;
    }
    assert steps != [] ==> steps[..0] == [] && Run(st, steps) == Next(st, steps[0]);
  }

  /** The machine stands where the handshake stands, with `others` handles that are not theirs. */
  predicate Stands(st: State, w: H.World, left: Place, right: Place, others: int) {
    && StandsAt(st, w.left, left) && StandsAt(st, w.right, right) && Distinct(left, right)
    && st.active == w.active + others
  }

  /** Every move of the handshake is a step of the machine, or, for a write or an end, none. */
  lemma MovesAreSteps(st: State, w: H.World, m: H.Move, left: Place, right: Place, others: int)
    returns (steps: seq<Step>, left': Place, right': Place)
    requires Stands(st, w, left, right, others) && H.Can(w, m)
    ensures Stands(Run(st, steps), H.Do(w, m), left', right', others)
    ensures left'.s == left.s && right'.s == right.s
  {
    var me, peer := H.Mine(w, m.onLeft), H.Peer(w, m.onLeft);
    var p, q := if m.onLeft then left else right, if m.onLeft then right else left;
    var p';
    steps, p' := EndMoves(st, me, p, peer, q, m.act);
    left', right' := if m.onLeft then p' else left, if m.onLeft then right else p';
  }

  /** Every run of the handshake is a run of the machine. */
  lemma {:induction false} RunsAreMachineRuns(
    st: State, w: H.World, moves: seq<H.Move>, left: Place, right: Place, others: int)
    returns (steps: seq<Step>, left': Place, right': Place)
    requires Stands(st, w, left, right, others) && H.Legal(w, moves)
    ensures Stands(Run(st, steps), H.After(w, moves), left', right', others)
    ensures left'.s == left.s && right'.s == right.s
    decreases |moves|
  {
    if moves == [] {
      steps, left', right' := [], left, right;
    } else {
      var first, l, r := MovesAreSteps(st, w, moves[0], left, right, others);
      var rest;
      rest, left', right' := RunsAreMachineRuns(Run(st, first), H.Do(w, moves[0]), moves[1..], l, r, others);
      steps := first + rest;
      RunOfConcat(st, first, rest);
    }
  }

  /** What the plans decide, they decide in the machine: under the conditions of
      `Handshake.OneEndClosesBoth` the machine has a run after which both sockets are closed and
      both of their handles are released. */
  lemma OneEndClosesBothInTheMachine(
    st: State, w: H.World, moves: seq<H.Move>, left: Place, right: Place, others: int)
    returns (steps: seq<Step>)
    requires Stands(st, w, left, right, others)
    requires H.Connected(w) && H.Legal(w, moves) && H.Quiet(H.After(w, moves))
    requires !w.left.socket.allowHalfOpen && !w.right.socket.allowHalfOpen
    requires !H.After(w, moves).left.readFailed && !H.After(w, moves).right.readFailed
    requires H.Asks(w.left.plan) || H.Asks(w.right.plan) || (H.AsksSoon(w.left.plan) && H.AsksSoon(w.right.plan))
    ensures var post := Run(st, steps);
            SocketClosed(post, left.s) && SocketClosed(post, right.s) && post.active == st.active - 2
  {
    var l, r;
    steps, l, r := RunsAreMachineRuns(st, w, moves, left, right, others);
    H.OneEndClosesBoth(w, moves);
  }
}
