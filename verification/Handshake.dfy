/**
 * The shutdown handshake between two connected plaintext sockets. Each end has a read loop, a
 * finite plan of user calls, and a FIFO of bytes from its peer whose end-of-file flag is the peer's
 * shut write half (section 3.6.1 of RFC 9293). Each move is one system call, lock region,
 * enqueue or release.
 */
module Handshake {
  import opened Records

  /** Where the read loop stands. */
  datatype Reader =
    | Reading
    | Pushing(chunk: seq<Byte>)
    | SawEof
    | QueueingEnd
    | Claiming
    | QueueingClose(hadError: bool)
    | Releasing
    | Finished

  /** What the user does with a connected socket. */
  datatype Call = Write(bytes: seq<Byte>) | EndWrites | Destroy(withError: bool) | DestroySoon

  /** Where the user's current `socket_destroy` or `socket_finish` stands. */
  datatype Caller = Idle | SetsError | QueuesError | ShutsDown | Claims | QueuesClose(hadError: bool) | Releases

  datatype Endpoint = Endpoint(
    socket: SocketState,
    reader: Reader,
    readFailed: bool,       // the read loop left on a hard error
    plan: seq<Call>,
    caller: Caller,
    writeShut: bool,        // shutdown(SHUT_WR) or SHUT_RDWR was called on this end
    readShut: bool,         // shutdown(SHUT_RDWR) was called on this end
    inbox: seq<Byte>,       // what the kernel holds for this end
    written: seq<Byte>,     // what the kernel has taken from this end, in order
    pushed: seq<seq<Byte>>) // the chunks the read loop has pushed, in order

  datatype World = World(left: Endpoint, right: Endpoint, active: int)

  datatype Act = Receive(count: nat) | SeeEof | HardError | ReaderStep | UserStep(count: nat)

  datatype Move = Move(onLeft: bool, act: Act)

  function Mine(w: World, onLeft: bool): Endpoint {
    if onLeft then w.left else w.right
  }

  function Peer(w: World, onLeft: bool): Endpoint {
    if onLeft then w.right else w.left
  }

  /** The world with its two ends and its handle count replaced. */
  function With(onLeft: bool, me: Endpoint, peer: Endpoint, active: int): World {
    if onLeft then World(me, peer, active) else World(peer, me, active)
  }

  // ----------------------------------------------------------------- moves

  /** What an end can do as far as its own state goes. */
  predicate Enabled(me: Endpoint, act: Act) {
    match act
    case Receive(n) => me.reader == Reading && 0 < n <= |me.inbox| && n <= BUFFER_SIZE
    case SeeEof => me.reader == Reading && (me.readShut || me.inbox == [])
    case HardError => me.reader == Reading
    case ReaderStep => me.reader != Reading && me.reader != Finished
    case UserStep(k) => me.caller != Idle || (me.plan != [] && (me.plan[0].Write? ==> k <= |me.plan[0].bytes|))
  }

  /** The end of the stream is seen after the peer, or this end itself, has shut it. */
  predicate Can(w: World, m: Move) {
    && Enabled(Mine(w, m.onLeft), m.act)
    && (m.act == SeeEof ==> Mine(w, m.onLeft).readShut || Peer(w, m.onLeft).writeShut)
  }

  /** The read loop past its `read` call. */
  function StepReader(me: Endpoint): (r: Endpoint)
    requires me.reader != Reading && me.reader != Finished
    ensures r.socket.allowHalfOpen == me.socket.allowHalfOpen
  {
    match me.reader
    case Pushing(chunk) => me.(reader := Reading, pushed := me.pushed + [chunk])
    case SawEof => me.(reader := QueueingEnd, writeShut := me.writeShut || !me.socket.allowHalfOpen)
    case QueueingEnd => me.(reader := Claiming)
    case Claiming =>
      if me.socket.closeEmitted then me.(reader := Finished)
      else me.(reader := QueueingClose(me.socket.hadError), socket := me.socket.Finished())
    case QueueingClose(_) => me.(reader := Releasing)
    case Releasing => me.(reader := Finished)
  }

  /** A call in progress. */
  function StepCaller(me: Endpoint): (r: Endpoint)
    requires me.caller != Idle
    ensures r.socket.allowHalfOpen == me.socket.allowHalfOpen
  {
    match me.caller
    case SetsError => me.(caller := QueuesError, socket := me.socket.Failed())
    case QueuesError => me.(caller := ShutsDown)
    case ShutsDown => me.(caller := Claims, writeShut := true, readShut := true)
    case Claims =>
      if me.socket.closeEmitted then me.(caller := Idle)
      else me.(caller := QueuesClose(me.socket.hadError), socket := me.socket.Finished())
    case QueuesClose(_) => me.(caller := Releases)
    case Releases => me.(caller := Idle)
  }

  /** The next call of the plan: a write that the kernel takes `k` bytes of, or the start of another
      call. The kernel takes nothing on a shut write half, and the write loop gives up then. */
  function StartCall(me: Endpoint, k: nat): (r: Endpoint)
    requires me.plan != [] && (me.plan[0].Write? ==> k <= |me.plan[0].bytes|)
    ensures r.socket == me.socket
  {
    var rest := me.plan[1..];
    match me.plan[0]
    case Write(bytes) =>
      if k == 0 || me.writeShut then me.(plan := rest)
      else me.(plan := [Write(bytes[k..])] + rest, written := me.written + bytes[..k])
    case EndWrites => me.(plan := rest, writeShut := true)
    case Destroy(withError) => me.(plan := rest, caller := if withError then SetsError else ShutsDown)
    case DestroySoon => me.(plan := rest, caller := Claims)
  }

  /** What the move puts on the wire. */
  function Sent(me: Endpoint, act: Act): seq<Byte>
    requires Enabled(me, act)
  {
    if act.UserStep? && me.caller == Idle && me.plan[0].Write? && !me.writeShut then me.plan[0].bytes[..act.count] else []
  }

  /** The end that moves. */
  function Step(me: Endpoint, act: Act): (r: Endpoint)
    requires Enabled(me, act)
    ensures r.socket.allowHalfOpen == me.socket.allowHalfOpen
  {
    match act
    case Receive(n) => me.(reader := Pushing(me.inbox[..n]), inbox := me.inbox[n..], socket := me.socket.Received(n))
    case SeeEof => me.(reader := SawEof)
    case HardError => me.(reader := QueueingEnd, readFailed := true)
    case ReaderStep => StepReader(me)
    case UserStep(k) => if me.caller != Idle then StepCaller(me) else StartCall(me, k)
  }

  /** Handles the move releases. */
  function Released(me: Endpoint, act: Act): nat {
    if (act.ReaderStep? && me.reader == Releasing) || (act.UserStep? && me.caller == Releases) then 1 else 0
  }

  function Do(w: World, m: Move): World
    requires Can(w, m)
  {
    var me, peer := Mine(w, m.onLeft), Peer(w, m.onLeft);
    var me' := Step(me, m.act);
    With(m.onLeft, me', peer.(inbox := peer.inbox + Sent(me, m.act)), w.active - Released(me, m.act))
  }

  predicate Legal(w: World, moves: seq<Move>)
    decreases |moves|
  {
    moves == [] || (Can(w, moves[0]) && Legal(Do(w, moves[0]), moves[1..]))
  }

  function After(w: World, moves: seq<Move>): World
    requires Legal(w, moves)
    decreases |moves|
  {
    if moves == [] then w else After(Do(w, moves[0]), moves[1..])
  }

  /** Two ends that have just connected, with any plans. */
  predicate Connected(w: World) {
    && w.active == 2
    && JustConnected(w.left) && JustConnected(w.right)
  }

  predicate JustConnected(e: Endpoint) {
    e == Endpoint(NewSocketState(e.socket.allowHalfOpen).Published(), Reading, false, e.plan, Idle, false, false, [], [], [])
  }

  /** Nothing can move any more, short of a read error out of the blue. */
  ghost predicate Quiet(w: World) {
    forall m: Move | Can(w, m) :: m.act == HardError
  }

  // ----------------------------------------------------------- termination

  function CallWork(c: Call): nat {
    match c
    case Write(bytes) => 3 * |bytes| + 1
    case EndWrites => 1
    case Destroy(_) => 7
    case DestroySoon => 4
  }

  function PlanWork(plan: seq<Call>): nat {
    if plan == [] then 0 else CallWork(plan[0]) + PlanWork(plan[1..])
  }

  function ReaderWork(r: Reader): nat {
    match r
    case Pushing(_) => 7
    case Reading => 6
    case SawEof => 5
    case QueueingEnd => 4
    case Claiming => 3
    case QueueingClose(_) => 2
    case Releasing => 1
    case Finished => 0
  }

  function CallerWork(c: Caller): nat {
    match c
    case SetsError => 6
    case QueuesError => 5
    case ShutsDown => 4
    case Claims => 3
    case QueuesClose(_) => 2
    case Releases => 1
    case Idle => 0
  }

  /** Unsent bytes, unread bytes, unseen ends of file and thread positions, weighed together. */
  function Work(e: Endpoint): nat {
    PlanWork(e.plan) + CallerWork(e.caller) + 2 * |e.inbox| + ReaderWork(e.reader)
  }

  function TotalWork(w: World): nat {
    Work(w.left) + Work(w.right)
  }

  lemma StartCallWork(me: Endpoint, k: nat)
    requires me.caller == Idle && Enabled(me, UserStep(k))
    ensures Work(StartCall(me, k)) + 2 * |Sent(me, UserStep(k))| < Work(me)
  {
    var me' := StartCall(me, k);
    assert me'.plan != me.plan[1..] ==> me'.plan[1..] == me.plan[1..];
  }

  lemma StepReaderWork(me: Endpoint)
    requires me.reader != Reading && me.reader != Finished
    ensures Work(StepReader(me)) < Work(me)
  {
  }

  lemma StepCallerWork(me: Endpoint)
    requires me.caller != Idle
    ensures Work(StepCaller(me)) < Work(me)
  {
  }

  lemma StepWork(me: Endpoint, act: Act)
    requires Enabled(me, act)
    ensures Work(Step(me, act)) + 2 * |Sent(me, act)| < Work(me)
  {
    match act {
      case ReaderStep => StepReaderWork(me);
      case UserStep(k) => if me.caller != Idle { StepCallerWork(me); } else { StartCallWork(me, k); }
      case _ =>
    }
  }

  lemma EveryMoveIsWork(w: World, m: Move)
    requires Can(w, m)
    ensures TotalWork(Do(w, m)) < TotalWork(w)
  {
    StepWork(Mine(w, m.onLeft), m.act);
  }

  /** Every run of two connected sockets is finite, with a bound known in advance. */
  lemma {:induction false} RunsAreBounded(w: World, moves: seq<Move>)
    requires Legal(w, moves)
    ensures |moves| + TotalWork(After(w, moves)) <= TotalWork(w)
    decreases |moves|
  {
    if moves == [] {
    } else {
      EveryMoveIsWork(w, moves[0]);
      RunsAreBounded(Do(w, moves[0]), moves[1..]);
    }
  }

  /** Every world can come to rest without any read error. */
  lemma ComesToRest(w: World) returns (moves: seq<Move>)
    ensures Legal(w, moves) && Quiet(After(w, moves))
    ensures forall i | 0 <= i < |moves| :: moves[i].act != HardError
    decreases TotalWork(w)
  {
    if Quiet(w) {
      moves := [];
    } else {
      var m: Move :| Can(w, m) && m.act != HardError;
      EveryMoveIsWork(w, m);
      var rest := ComesToRest(Do(w, m));
      moves := [m] + rest;
      assert moves[1..] == rest;
    }
  }

  lemma OnlyErrorsFail(me: Endpoint, act: Act)
    requires Enabled(me, act)
    ensures Step(me, act).readFailed <==> me.readFailed || act == HardError
  {
    if act.ReaderStep? {
    } else if act.UserStep? && me.caller == Idle {
    } else {
    }
  }

  lemma {:induction false} NoFailureOfItsOwn(w: World, moves: seq<Move>)
    requires Legal(w, moves) && !w.left.readFailed && !w.right.readFailed
    requires forall i | 0 <= i < |moves| :: moves[i].act != HardError
    ensures !After(w, moves).left.readFailed && !After(w, moves).right.readFailed
    decreases |moves|
  {
    if moves == [] {
    } else {
      assert moves[0].act != HardError;
      OnlyErrorsFail(Mine(w, moves[0].onLeft), moves[0].act);
      NoFailureOfItsOwn(Do(w, moves[0]), moves[1..]);
    }
  }

  // ------------------------------------------------------------- invariant

  predicate LeftItsLoop(e: Endpoint) {
    e.reader != Reading && !e.reader.Pushing? && e.reader != SawEof
  }

  /** The read loop left because the stream ended. */
  predicate HasSeenEof(e: Endpoint) {
    e.reader != Reading && !e.reader.Pushing? && !e.readFailed
  }

  function Pending(e: Endpoint): nat {
    (if e.socket.closeEmitted then 0 else 1)
    + (if e.reader.QueueingClose? || e.reader == Releasing then 1 else 0)
    + (if e.caller.QueuesClose? || e.caller == Releases then 1 else 0)
  }

  /** The chunk that has been read and not yet pushed. */
  function InHand(r: Reader): seq<Byte> {
    if r.Pushing? then r.chunk else []
  }

  /** What an end has been sent: pushed, in hand, or still in the kernel. */
  function Arrived(e: Endpoint): seq<Byte> {
    Flatten(e.pushed) + InHand(e.reader) + e.inbox
  }

  predicate FitsBuffer(chunk: seq<Byte>) {
    0 < |chunk| <= BUFFER_SIZE
  }

  /** The bytes of an end are those the kernel took from its peer, in order, cut into chunks. */
  predicate SoundBytes(me: Endpoint, peer: Endpoint) {
    && Arrived(me) == peer.written
    && me.socket.bytesRead == |Flatten(me.pushed)| + |InHand(me.reader)|
    && (forall i | 0 <= i < |me.pushed| :: FitsBuffer(me.pushed[i]))
    && (me.reader.Pushing? ==> FitsBuffer(me.reader.chunk))
  }

  predicate SoundEnd(me: Endpoint, peer: Endpoint) {
    && (LeftItsLoop(me) && !me.readFailed ==> me.writeShut || me.socket.allowHalfOpen)
    && (HasSeenEof(me) && !me.readShut ==> peer.writeShut && me.inbox == [])
    && (me.reader.QueueingClose? || me.reader == Releasing || me.reader == Finished ==> me.socket.closeEmitted)
    && (me.caller.QueuesClose? || me.caller == Releases ==> me.socket.closeEmitted)
    && (me.readShut ==> me.writeShut)
    && (me.readFailed ==> LeftItsLoop(me))
  }

  predicate Sound(w: World) {
    && SoundPair(w.left, w.right)
    && w.active == Pending(w.left) + Pending(w.right)
  }

  predicate SoundPair(me: Endpoint, peer: Endpoint) {
    SoundEnd(me, peer) && SoundEnd(peer, me) && SoundBytes(me, peer) && SoundBytes(peer, me)
  }

  // The bytes: one lemma per kind of move.

  lemma BytesReader(me: Endpoint, peer: Endpoint)
    requires SoundBytes(me, peer) && me.reader != Reading && me.reader != Finished
    ensures SoundBytes(StepReader(me), peer)
  {
    if me.reader.Pushing? {
      FlattenOfAppend(me.pushed, me.reader.chunk);
    }
  }

  lemma BytesReceive(me: Endpoint, peer: Endpoint, n: nat)
    requires SoundBytes(me, peer) && Enabled(me, Receive(n))
    ensures SoundBytes(Step(me, Receive(n)), peer)
  {
    assert me.inbox[..n] + me.inbox[n..] == me.inbox;
    assert Flatten(me.pushed) + me.inbox[..n] + me.inbox[n..] == Flatten(me.pushed) + (me.inbox[..n] + me.inbox[n..]);
  }

  /** The user's calls leave what has arrived alone. */
  lemma UserKeepsBytes(me: Endpoint, k: nat)
    requires Enabled(me, UserStep(k))
    ensures var me' := Step(me, UserStep(k));
            && me'.pushed == me.pushed && me'.reader == me.reader && me'.inbox == me.inbox
            && me'.socket.bytesRead == me.socket.bytesRead
  {
    if me.caller != Idle {
    } else if me.plan[0].Write? {
    } else {
    }
  }

  /** The mover's own bytes. */
  lemma BytesStep(me: Endpoint, peer: Endpoint, act: Act)
    requires SoundBytes(me, peer) && Enabled(me, act)
    ensures SoundBytes(Step(me, act), peer)
  {
    match act {
      case ReaderStep => BytesReader(me, peer);
      case Receive(n) => BytesReceive(me, peer, n);
      case UserStep(k) => UserKeepsBytes(me, k);
      case _ =>
    }
  }

  lemma WrittenGrows(me: Endpoint, act: Act)
    requires Enabled(me, act)
    ensures Step(me, act).written == me.written + Sent(me, act)
  {
  }

  /** The bytes of its peer, who is sent what the move writes. */
  lemma BytesSent(me: Endpoint, peer: Endpoint, act: Act)
    requires SoundBytes(peer, me) && Enabled(me, act)
    ensures SoundBytes(peer.(inbox := peer.inbox + Sent(me, act)), Step(me, act))
  {
    WrittenGrows(me, act);
    assert Arrived(peer.(inbox := peer.inbox + Sent(me, act))) == Arrived(peer) + Sent(me, act);
  }

  // The positions and flags.

  predicate SoundEnds(me: Endpoint, peer: Endpoint) {
    SoundEnd(me, peer) && SoundEnd(peer, me)
  }

  lemma SoundReader(me: Endpoint, peer: Endpoint)
    requires SoundEnds(me, peer) && me.reader != Reading && me.reader != Finished
    ensures SoundEnds(StepReader(me), peer)
    ensures Pending(StepReader(me)) == Pending(me) - if me.reader == Releasing then 1 else 0
  {
  }

  lemma SoundCaller(me: Endpoint, peer: Endpoint)
    requires SoundEnds(me, peer) && me.caller != Idle
    ensures SoundEnds(StepCaller(me), peer)
    ensures Pending(StepCaller(me)) == Pending(me) - if me.caller == Releases then 1 else 0
  {
  }

  lemma SoundStart(me: Endpoint, peer: Endpoint, k: nat)
    requires SoundEnds(me, peer) && me.caller == Idle && Enabled(me, UserStep(k))
    ensures SoundEnds(StartCall(me, k), peer.(inbox := peer.inbox + Sent(me, UserStep(k))))
    ensures Pending(StartCall(me, k)) == Pending(me)
  {
  }

  lemma SoundRead(me: Endpoint, peer: Endpoint, act: Act)
    requires SoundEnds(me, peer) && Enabled(me, act) && !act.ReaderStep? && !act.UserStep?
    requires act == SeeEof ==> me.readShut || peer.writeShut
    ensures SoundEnds(Step(me, act), peer)
    ensures Pending(Step(me, act)) == Pending(me)
  {
  }

  lemma SoundBytesStep(me: Endpoint, peer: Endpoint, act: Act)
    requires SoundBytes(me, peer) && SoundBytes(peer, me) && Enabled(me, act)
    ensures var me', peer' := Step(me, act), peer.(inbox := peer.inbox + Sent(me, act));
            SoundBytes(me', peer') && SoundBytes(peer', me')
  {
    BytesStep(me, peer, act);
    BytesSent(me, peer, act);
  }

  lemma SoundStep(me: Endpoint, peer: Endpoint, act: Act)
    requires SoundPair(me, peer) && Enabled(me, act)
    requires act == SeeEof ==> me.readShut || peer.writeShut
    ensures SoundPair(Step(me, act), peer.(inbox := peer.inbox + Sent(me, act)))
    ensures Pending(Step(me, act)) == Pending(me) - Released(me, act)
  {
    SoundBytesStep(me, peer, act);
    assert peer.inbox + [] == peer.inbox;
    match act {
      case ReaderStep => SoundReader(me, peer);
      case UserStep(k) => if me.caller != Idle { SoundCaller(me, peer); } else { SoundStart(me, peer, k); }
      case _ => SoundRead(me, peer, act);
    }
  }

  lemma PairsAreWorlds(w: World, onLeft: bool)
    ensures Sound(w) <==> SoundPair(Mine(w, onLeft), Peer(w, onLeft))
                          && w.active == Pending(Mine(w, onLeft)) + Pending(Peer(w, onLeft))
  {
  }

  lemma SoundMove(w: World, m: Move)
    requires Sound(w) && Can(w, m)
    ensures Sound(Do(w, m))
    ensures Do(w, m).left.socket.allowHalfOpen == w.left.socket.allowHalfOpen
    ensures Do(w, m).right.socket.allowHalfOpen == w.right.socket.allowHalfOpen
  {
    PairsAreWorlds(w, m.onLeft);
    SoundStep(Mine(w, m.onLeft), Peer(w, m.onLeft), m.act);
    PairsAreWorlds(Do(w, m), m.onLeft);
  }

  lemma {:induction false} SoundRun(w: World, moves: seq<Move>)
    requires Sound(w) && Legal(w, moves)
    ensures Sound(After(w, moves))
    ensures After(w, moves).left.socket.allowHalfOpen == w.left.socket.allowHalfOpen
    ensures After(w, moves).right.socket.allowHalfOpen == w.right.socket.allowHalfOpen
    decreases |moves|
  {
    if moves == [] {
    } else {
      SoundMove(w, moves[0]);
      SoundRun(Do(w, moves[0]), moves[1..]);
    }
  }

  // ------------------------------------------------------- the quiet states

  lemma QuietEnd(w: World, onLeft: bool)
    requires Quiet(w)
    ensures var me, peer := Mine(w, onLeft), Peer(w, onLeft);
            && me.plan == [] && me.caller == Idle
            && (me.reader == Finished || (me.reader == Reading && me.inbox == [] && !me.readShut && !peer.writeShut))
  {
    var me := Mine(w, onLeft);
    assert !Can(w, Move(onLeft, UserStep(0)));
    assert !Can(w, Move(onLeft, ReaderStep));
    assert !Can(w, Move(onLeft, SeeEof));
    assert !Can(w, Move(onLeft, Receive(1)));
  }

  /** A socket still open in a quiet state is explained: nobody ever shut a write half, or the
      peer may stay half open, has seen the end of the stream and has not ended its own side. */
  lemma OpenOnlyIfHalfOpen(w: World, moves: seq<Move>, onLeft: bool)
    requires Connected(w) && Legal(w, moves) && Quiet(After(w, moves))
    requires !After(w, moves).left.readFailed && !After(w, moves).right.readFailed
    requires !Mine(After(w, moves), onLeft).socket.closeEmitted
    ensures var me, peer := Mine(After(w, moves), onLeft), Peer(After(w, moves), onLeft);
            || (!me.writeShut && !peer.writeShut)
            || (peer.socket.allowHalfOpen && HasSeenEof(peer) && !peer.writeShut)
  {
    var end := After(w, moves);
    SoundRun(w, moves);
    PairsAreWorlds(end, onLeft);
    QuietEnd(end, onLeft);
    QuietEnd(end, !onLeft);
    OpenAtRest(Mine(end, onLeft), Peer(end, onLeft));
  }

  lemma OpenAtRest(me: Endpoint, peer: Endpoint)
    requires SoundEnds(me, peer) && !me.readFailed && !peer.readFailed
    requires me.reader == Finished || (me.reader == Reading && !peer.writeShut)
    requires peer.reader == Finished || (peer.reader == Reading && !me.writeShut)
    requires !me.socket.closeEmitted
    ensures || (!me.writeShut && !peer.writeShut)
            || (peer.socket.allowHalfOpen && HasSeenEof(peer) && !peer.writeShut)
  {
  }

  /** In every run what an end has pushed, followed by what it has in hand and what the kernel still
      holds for it, is byte for byte what the kernel took from its peer, and the read loop has
      counted exactly what it took over. */
  lemma BytesArriveInOrder(w: World, moves: seq<Move>, onLeft: bool)
    requires Connected(w) && Legal(w, moves)
    ensures var me, peer := Mine(After(w, moves), onLeft), Peer(After(w, moves), onLeft);
            && Flatten(me.pushed) + InHand(me.reader) + me.inbox == peer.written
            && me.socket.bytesRead == |Flatten(me.pushed)| + |InHand(me.reader)|
            && forall i | 0 <= i < |me.pushed| :: 0 < |me.pushed[i]| <= 65536
  {
    SoundRun(w, moves);
  }

  /** An end that read to the end of its peer's stream has pushed every byte the kernel took from
      the peer, in order, and counted them all. */
  lemma NothingLostBeforeEof(w: World, moves: seq<Move>, onLeft: bool)
    requires Connected(w) && Legal(w, moves)
    requires HasSeenEof(Mine(After(w, moves), onLeft)) && !Mine(After(w, moves), onLeft).readShut
    ensures var me, peer := Mine(After(w, moves), onLeft), Peer(After(w, moves), onLeft);
            Flatten(me.pushed) == peer.written && me.socket.bytesRead == |peer.written|
  {
    var me := Mine(After(w, moves), onLeft);
    BytesArriveInOrder(w, moves, onLeft);
    SoundRun(w, moves);
    assert me.inbox == [] && InHand(me.reader) == [];
    assert Flatten(me.pushed) + [] + [] == Flatten(me.pushed);
  }

  // ------------------------------------------------- who closes, by the plans

  /** The plan calls `end` or `destroy`. */
  predicate Asks(plan: seq<Call>) {
    plan != [] && (plan[0] == EndWrites || plan[0].Destroy? || Asks(plan[1..]))
  }

  /** The plan calls `destroySoon`. */
  predicate AsksSoon(plan: seq<Call>) {
    plan != [] && (plan[0] == DestroySoon || AsksSoon(plan[1..]))
  }

  /** This end has shut its write half or is going to. */
  predicate WillShut(e: Endpoint) {
    e.writeShut || e.caller == SetsError || e.caller == QueuesError || e.caller == ShutsDown || Asks(e.plan)
  }

  /** This end is closed or is going to be, by a call of its own. */
  predicate WillClose(e: Endpoint) {
    e.socket.closeEmitted || e.caller == Claims || AsksSoon(e.plan)
  }

  lemma PlanAhead(me: Endpoint, k: nat)
    requires me.caller == Idle && me.plan != [] && (me.plan[0].Write? ==> k <= |me.plan[0].bytes|)
    ensures WillShut(StartCall(me, k)) <==> WillShut(me)
    ensures WillClose(StartCall(me, k)) <==> WillClose(me)
  {
    var next := StartCall(me, k).plan;
    assert next != me.plan[1..] ==> next[1..] == me.plan[1..];
  }

  predicate SomeoneShuts(w: World) {
    WillShut(w.left) || WillShut(w.right)
  }

  lemma ShutsStep(me: Endpoint, peer: Endpoint, act: Act)
    requires SoundEnds(me, peer) && Enabled(me, act)
    ensures WillShut(Step(me, act)) || WillShut(peer) <==> WillShut(me) || WillShut(peer)
  {
    if act.UserStep? && me.caller == Idle {
      PlanAhead(me, act.count);
    } else if act.UserStep? {
    } else if act.ReaderStep? {
    } else {
    }
  }

  /** A request to shut is never lost, and without one nobody shuts. */
  lemma ShutsMove(w: World, m: Move)
    requires Sound(w) && Can(w, m)
    ensures SomeoneShuts(Do(w, m)) <==> SomeoneShuts(w)
  {
    ShutsStep(Mine(w, m.onLeft), Peer(w, m.onLeft), m.act);
  }

  /** While nobody shuts, an end is closed by its own calls only. */
  lemma ClosesMove(w: World, m: Move)
    requires Sound(w) && Can(w, m) && !SomeoneShuts(w) && m.act != HardError
    requires !w.left.readFailed && !w.right.readFailed
    ensures WillClose(Do(w, m).left) <==> WillClose(w.left)
    ensures WillClose(Do(w, m).right) <==> WillClose(w.right)
  {
    var me := Mine(w, m.onLeft);
    if m.act.UserStep? && me.caller == Idle {
      PlanAhead(me, m.act.count);
    }
  }

  lemma FailureStays(w: World, m: Move)
    requires Can(w, m) && !Do(w, m).left.readFailed && !Do(w, m).right.readFailed
    ensures !w.left.readFailed && !w.right.readFailed && m.act != HardError
  {
    OnlyErrorsFail(Mine(w, m.onLeft), m.act);
  }

  lemma {:induction false} ShutsRun(w: World, moves: seq<Move>)
    requires Sound(w) && Legal(w, moves)
    ensures SomeoneShuts(After(w, moves)) <==> SomeoneShuts(w)
    decreases |moves|
  {
    if moves == [] {
    } else {
      SoundMove(w, moves[0]);
      ShutsMove(w, moves[0]);
      ShutsRun(Do(w, moves[0]), moves[1..]);
    }
  }

  lemma {:induction false} ClosesRun(w: World, moves: seq<Move>)
    requires Sound(w) && Legal(w, moves) && !SomeoneShuts(w)
    requires !After(w, moves).left.readFailed && !After(w, moves).right.readFailed
    ensures !w.left.readFailed && !w.right.readFailed
    ensures WillClose(After(w, moves).left) <==> WillClose(w.left)
    ensures WillClose(After(w, moves).right) <==> WillClose(w.right)
    decreases |moves|
  {
    if moves == [] {
    } else {
      SoundMove(w, moves[0]);
      ShutsMove(w, moves[0]);
      ClosesRun(Do(w, moves[0]), moves[1..]);
      FailureStays(w, moves[0]);
      ClosesMove(w, moves[0]);
    }
  }

  predicate BothClosedAndReleased(w: World) {
    w.left.socket.closeEmitted && w.right.socket.closeEmitted && w.active == 0
  }

  /**
   * With `allowHalfOpen` false on both ends and no hard read error, every run comes to rest with
   * both sockets closed and both handles released exactly when some plan calls `end` or
   * `destroy`, or both plans call `destroySoon`.
   */
  lemma OneEndClosesBoth(w: World, moves: seq<Move>)
    requires Connected(w) && Legal(w, moves) && Quiet(After(w, moves))
    requires !w.left.socket.allowHalfOpen && !w.right.socket.allowHalfOpen
    requires !After(w, moves).left.readFailed && !After(w, moves).right.readFailed
    ensures BothClosedAndReleased(After(w, moves))
            <==> Asks(w.left.plan) || Asks(w.right.plan) || (AsksSoon(w.left.plan) && AsksSoon(w.right.plan))
  {
    var end := After(w, moves);
    SoundRun(w, moves);
    ShutsRun(w, moves);
    if !SomeoneShuts(w) {
      ClosesRun(w, moves);
    }
    QuietEnd(end, true);
    QuietEnd(end, false);
  }
}
