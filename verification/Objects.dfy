/**
 * The records as the program holds them: objects updated in place. Each method is one of the
 * source's functions run without interruption; its contract ties the new state of the object,
 * the queue and the handle count to the lock regions of Records.dfy.
 */
module Objects {
  import opened Base
  import opened Records

  /** The main thread's queue, ACTIVE_HANDLES and PUMP_STARTED. */
  class EventLoop {
    var log: seq<Job>
    var active: int
    var pumpStarted: bool

    constructor ()
      ensures log == [] && active == 0 && !pumpStarted
    {
      log, active, pumpStarted := [], 0, false;
    }

    method Deliver(job: Job)
      modifies this`log
      ensures log == old(log) + [job]
    {
      log := log + [job];
    }

    /** `handle_open` and `ensure_pump`, as every new socket and server runs them. */
    method OpenHandle()
      modifies this
      ensures active == old(active) + 1 && pumpStarted
      ensures log == old(log) + if old(pumpStarted) then [] else [Pump]
    {
      active := active + 1;
      if !pumpStarted {
        pumpStarted := true;
        Deliver(Pump);
      }
    }

    method CloseHandle()
      modifies this`active
      ensures active == old(active) - 1
    {
      active := active - 1;
    }
  }

  /** What finishing a socket adds to the queue. */
  function CloseJobs(id: nat, x: SocketState): seq<Job> {
    if x.closeEmitted then [] else [Close(id, x.hadError)]
  }

  /** The open handles a record stands for. */
  function HandlesOf(x: SocketState): int {
    if x.closeEmitted then 0 else 1
  }

  /** What one `read` call can return. */
  datatype ReadResult = Chunk(bytes: seq<Byte>) | WouldBlock | EndOfStream | HardError

  predicate Stops(r: ReadResult) {
    r == EndOfStream || r == HardError
  }

  /** The bytes a reader hands out before it stops, however the chunks are cut and whatever retries intervene. */
  function Consumed(results: seq<ReadResult>): seq<Byte> {
    if results == [] || Stops(results[0]) then []
    else (if results[0].Chunk? then results[0].bytes else []) + Consumed(results[1..])
  }

  /** The result that ends the loop, if there is one. */
  function Stopper(results: seq<ReadResult>): Option<ReadResult> {
    if results == [] then None else if Stops(results[0]) then Some(results[0]) else Stopper(results[1..])
  }

  /** The chunks a reader hands out before it stops. */
  function Chunks(results: seq<ReadResult>): seq<seq<Byte>> {
    if results == [] then []
    else match results[0]
         case Chunk(bytes) => [bytes] + Chunks(results[1..])
         case WouldBlock => Chunks(results[1..])
         case _ => []
  }

  // What these mean, without naming what stops the loop.

  /** A retry changes nothing, wherever it falls. */
  lemma {:induction false} RetriesDoNotMatter(before: seq<ReadResult>, after: seq<ReadResult>)
    ensures Consumed(before + [WouldBlock] + after) == Consumed(before + after)
    ensures Stopper(before + [WouldBlock] + after) == Stopper(before + after)
  {
    var retried := before + [WouldBlock] + after;
    if before == [] {
      assert retried[0] == WouldBlock && retried[1..] == after && before + after == after;
    } else {
      assert retried[0] == before[0] && (before + after)[0] == before[0];
      assert retried[1..] == before[1..] + [WouldBlock] + after && (before + after)[1..] == before[1..] + after;
      RetriesDoNotMatter(before[1..], after);
    }
  }

  /** The bytes of all chunks. */
  function AllBytes(results: seq<ReadResult>): seq<Byte> {
    if results == [] then [] else (if results[0].Chunk? then results[0].bytes else []) + AllBytes(results[1..])
  }

  predicate GoesOn(results: seq<ReadResult>) {
    forall i | 0 <= i < |results| :: results[i].Chunk? || results[i].WouldBlock?
  }

  /** The loop consumes every chunk up to the first end of stream or hard error, which stops it, and
      nothing after that; chunks and retries never stop it. */
  lemma {:induction false} ConsumedUpToTheEnd(before: seq<ReadResult>, last: ReadResult, after: seq<ReadResult>)
    requires GoesOn(before) && (last == EndOfStream || last == HardError)
    ensures Consumed(before) == AllBytes(before) && Stopper(before) == None
    ensures Consumed(before + [last] + after) == AllBytes(before) && Stopper(before + [last] + after) == Some(last)
  {
    var all := before + [last] + after;
    if before == [] {
      assert all[0] == last;
    } else {
      assert before[0].Chunk? || before[0].WouldBlock?;
      assert all[0] == before[0] && all[1..] == before[1..] + [last] + after;
      ConsumedUpToTheEnd(before[1..], last, after);
    }
  }

  function DataJobs(id: nat, chunks: seq<seq<Byte>>): seq<Job> {
    if chunks == [] then []
    else DataJobs(id, chunks[..|chunks| - 1]) + [Data(id, |chunks[|chunks| - 1]|)]
  }

  lemma OneMoreChunk(id: nat, chunks: seq<seq<Byte>>, chunk: seq<Byte>)
    ensures Flatten(chunks + [chunk]) == Flatten(chunks) + chunk
    ensures DataJobs(id, chunks + [chunk]) == DataJobs(id, chunks) + [Data(id, |chunk|)]
  {
    FlattenOfAppend(chunks, chunk);
    assert (chunks + [chunk])[..|chunks|] == chunks;
  }

  /** A kernel never returns an empty chunk as data, nor more than the buffer of 65536 bytes holds. */
  predicate FitBuffer(results: seq<ReadResult>) {
    forall i | 0 <= i < |results| && results[i].Chunk? :: 0 < |results[i].bytes| <= 65536
  }

  /** After `i` results `pushed` holds what they brought, and nothing has stopped the loop. */
  predicate ReadSoFar(results: seq<ReadResult>, i: nat, pushed: seq<seq<Byte>>) {
    && i <= |results|
    && Consumed(results) == Flatten(pushed) + Consumed(results[i..])
    && Chunks(results) == pushed + Chunks(results[i..])
    && Stopper(results) == Stopper(results[i..])
    && forall k | 0 <= k < |pushed| :: 0 < |pushed[k]| <= BUFFER_SIZE
  }

  lemma ReadOneMore(results: seq<ReadResult>, i: nat, pushed: seq<seq<Byte>>)
    requires FitBuffer(results) && ReadSoFar(results, i, pushed) && i < |results| && !Stops(results[i])
    ensures ReadSoFar(results, i + 1, if results[i].Chunk? then pushed + [results[i].bytes] else pushed)
  {
    assert results[i..][1..] == results[i + 1..];
    if results[i].Chunk? {
      OneMoreChunk(0, pushed, results[i].bytes);
    }
  }

  lemma ReadToTheEnd(results: seq<ReadResult>, i: nat, pushed: seq<seq<Byte>>)
    requires ReadSoFar(results, i, pushed) && (i < |results| ==> Stops(results[i]))
    ensures Flatten(pushed) == Consumed(results) && pushed == Chunks(results)
    ensures Stopper(results) == if i < |results| then Some(results[i]) else None
  {
    assert Consumed(results[i..]) == [] && Chunks(results[i..]) == [];
  }

  class Socket {
    const id: nat
    var readyState: ReadyState
    var connecting: bool
    var pending: bool
    var destroyed: bool
    var hadError: bool
    var closeEmitted: bool
    var bytesRead: nat
    var timeoutMs: Option<int>
    const allowHalfOpen: bool
    var hasFd: bool     // a descriptor of the connection is attached
    var writeShut: bool // SHUT_WR or SHUT_RDWR was called on it
    var readShut: bool  // SHUT_RDWR was called on it

    function View(): SocketState
      reads this
    {
      SocketState(readyState, connecting, pending, destroyed, hadError, closeEmitted, bytesRead, timeoutMs, allowHalfOpen)
    }

    /** The flags hang together, and only a descriptor can be shut. */
    ghost predicate Valid()
      reads this
    {
      && SocketCoherent(View())
      && (writeShut ==> hasFd)
      && (readShut ==> writeShut)
    }

    /** The descriptor and its halves. */
    function Wire(): (bool, bool, bool)
      reads this
    {
      (hasFd, writeShut, readShut)
    }

    /** `socket_new_value`. */
    constructor (id: nat, allowHalfOpen: bool, loop: EventLoop)
      modifies loop
      ensures Valid()
      ensures View() == NewSocketState(allowHalfOpen) && this.id == id && Wire() == (false, false, false)
      ensures loop.active == old(loop.active) + HandlesOf(View()) && loop.pumpStarted
      ensures loop.log == old(loop.log) + if old(loop.pumpStarted) then [] else [Pump]
    {
      this.id := id;
      readyState := Opening;
      connecting := false;
      pending := true;
      destroyed := false;
      hadError := false;
      closeEmitted := false;
      bytesRead := 0;
      timeoutMs := None;
      this.allowHalfOpen := allowHalfOpen;
      hasFd, writeShut, readShut := false, false, false;
      new;
      loop.OpenHandle();
    }

    /** `socket_attached_fd`; `duplicated` is the outcome of dup. */
    method Attach(duplicated: bool)
      requires Valid()
      modifies this`hasFd
      ensures Valid()
      ensures hasFd == (old(hasFd) || duplicated)
    {
      if duplicated {
        hasFd := true;
      }
    }

    /** The hook that runs when the user ends the writable side, and `socket_shutdown_write`: without
        a descriptor nothing is shut. */
    method ShutdownWrite()
      requires Valid()
      modifies this`writeShut
      ensures Valid()
      ensures writeShut <==> hasFd
    {
      if hasFd {
        writeShut := true;
      }
    }

    /** The region of `socket_connect` on the calling thread. */
    method BeginConnect()
      requires Valid()
      modifies this
      ensures Valid()
      ensures View() == old(View()).Connecting() && Wire() == old(Wire())
    {
      connecting := true;
      pending := true;
      readyState := Opening;
    }

    /** The region in which a connection becomes visible. */
    method Publish()
      requires Valid()
      modifies this
      ensures Valid()
      ensures View() == old(View()).Published() && Wire() == old(Wire())
    {
      connecting := false;
      pending := false;
      readyState := Open;
    }

    /** `socket_finish`. The handle given back is the one the record stood for. */
    method Finish(loop: EventLoop)
      requires Valid()
      modifies this, loop
      ensures Valid() && closeEmitted && destroyed
      ensures View() == old(View()).Finished() && Wire() == old(Wire())
      ensures loop.log == old(loop.log) + CloseJobs(id, old(View()))
      ensures loop.active - HandlesOf(View()) == old(loop.active) - HandlesOf(old(View()))
      ensures loop.pumpStarted == old(loop.pumpStarted)
    {
      if closeEmitted {
        return;
      }
      closeEmitted := true;
      destroyed := true;
      readyState := Closed;
      pending := false;
      loop.Deliver(Close(id, hadError));
      loop.CloseHandle();
    }

    /** `socket_destroy`; the error's message is not modelled. Both halves are shut if there is a
        descriptor, and none otherwise. */
    method Destroy(withError: bool, loop: EventLoop)
      requires Valid()
      modifies this, loop
      ensures Valid() && closeEmitted && destroyed
      ensures View() == (if withError then old(View()).Failed() else old(View())).Finished()
      ensures loop.log == old(loop.log) + (if withError then [Error(id)] else [])
                          + CloseJobs(id, if withError then old(View()).Failed() else old(View()))
      ensures loop.active - HandlesOf(View()) == old(loop.active) - HandlesOf(old(View()))
      ensures loop.pumpStarted == old(loop.pumpStarted)
      ensures hasFd == old(hasFd)
      ensures if hasFd then writeShut && readShut else !writeShut && !readShut
    {
      if withError {
        hadError := true;
        loop.Deliver(Error(id));
      }
      if hasFd {
        writeShut, readShut := true, true;
      }
      Finish(loop);
    }

    /** `connectIpcImpl`: an error is reported, but the flag that the close carries is not set. */
    method ConnectIpc(loop: EventLoop)
      requires Valid()
      modifies this, loop
      ensures Valid() && closeEmitted && destroyed
      ensures View() == old(View()).Finished() && Wire() == old(Wire())
      ensures loop.log == old(loop.log) + [Error(id)] + CloseJobs(id, old(View()))
      ensures loop.active - HandlesOf(View()) == old(loop.active) - HandlesOf(old(View()))
      ensures loop.pumpStarted == old(loop.pumpStarted)
    {
      loop.Deliver(Error(id));
      Finish(loop);
    }

    /** The region of `start_timeout_timer`; true when a timer thread is started. */
    method StartTimer(ms: int) returns (started: bool)
      requires Valid()
      modifies this
      ensures Valid()
      ensures View() == old(View()).Timed(ms) && Wire() == old(Wire())
      ensures started <==> ms > 0
    {
      timeoutMs := Some(ms);
      started := ms > 0;
    }

    /** The timer thread wakes up: it reports a timeout iff the socket is not destroyed and the
        stored period is still its own, hence never once the socket is closed. */
    method WakeTimer(ms: int, loop: EventLoop)
      requires Valid()
      modifies loop`log
      ensures Valid()
      ensures loop.log == old(loop.log) + if View().TimerDue(ms) then [Timeout(id)] else []
      ensures closeEmitted ==> loop.log == old(loop.log)
    {
      if !destroyed && timeoutMs == Some(ms) {
        loop.Deliver(Timeout(id));
      }
    }

    /** The read loop counts a chunk and delivers it. */
    method DeliverChunk(count: nat, loop: EventLoop)
      requires Valid()
      modifies this`bytesRead, loop`log
      ensures Valid()
      ensures bytesRead == old(bytesRead) + count
      ensures loop.log == old(loop.log) + [Data(id, count)]
    {
      bytesRead := bytesRead + count;
      loop.Deliver(Data(id, count));
    }

    /** What follows the loop of `start_read_loop`: the half-close after an end of stream, the end
        of the readable side, and the finish. */
    method LeaveLoop(endOfStream: bool, loop: EventLoop)
      requires Valid()
      modifies this, loop
      ensures Valid() && closeEmitted && destroyed
      ensures View() == old(View()).Finished()
      ensures loop.log == old(loop.log) + [End(id)] + CloseJobs(id, old(View()))
      ensures loop.active - HandlesOf(View()) == old(loop.active) - HandlesOf(old(View()))
      ensures loop.pumpStarted == old(loop.pumpStarted)
      ensures hasFd == old(hasFd) && readShut == old(readShut)
      ensures writeShut == (old(writeShut) || (hasFd && endOfStream && !allowHalfOpen))
    {
      if endOfStream && !allowHalfOpen {
        ShutdownWrite();
      }
      loop.Deliver(End(id));
      Finish(loop);
    }

    /** The loop itself: it handles `i` results and leaves at the first that stops it. */
    method ReadChunks(results: seq<ReadResult>, loop: EventLoop) returns (pushed: seq<seq<Byte>>, i: nat)
      requires Valid() && FitBuffer(results)
      modifies this`bytesRead, loop`log
      ensures Valid()
      ensures ReadSoFar(results, i, pushed) && (i < |results| ==> Stops(results[i]))
      ensures bytesRead == old(bytesRead) + |Flatten(pushed)|
      ensures loop.log == old(loop.log) + DataJobs(id, pushed)
    {
      pushed, i := [], 0;
      while i < |results| && !Stops(results[i])
        invariant Valid() && ReadSoFar(results, i, pushed)
        invariant bytesRead == old(bytesRead) + |Flatten(pushed)|
        invariant loop.log == old(loop.log) + DataJobs(id, pushed)
      {
        ReadOneMore(results, i, pushed);
        if results[i].Chunk? {
          OneMoreChunk(id, pushed, results[i].bytes);
          DeliverChunk(|results[i].bytes|, loop);
          pushed := pushed + [results[i].bytes];
        }
        i := i + 1;
      }
    }

    /** `start_read_loop` over the given results of `read`; `pushed` are the chunks it delivers. */
    method ReadLoop(results: seq<ReadResult>, loop: EventLoop) returns (pushed: seq<seq<Byte>>)
      requires Valid() && FitBuffer(results)
      modifies this, loop
      ensures Valid()
      ensures Flatten(pushed) == Consumed(results) && pushed == Chunks(results)
      ensures forall i | 0 <= i < |pushed| :: 0 < |pushed[i]| <= BUFFER_SIZE
      ensures var read := old(View()).Received(|Consumed(results)|);
              View() == if Stopper(results).Some? then read.Finished() else read
      ensures loop.log == old(loop.log) + DataJobs(id, pushed)
                          + if Stopper(results).Some? then [End(id)] + CloseJobs(id, old(View())) else []
      ensures loop.active - HandlesOf(View()) == old(loop.active) - HandlesOf(old(View()))
      ensures loop.pumpStarted == old(loop.pumpStarted)
      ensures hasFd == old(hasFd) && readShut == old(readShut)
      ensures writeShut == (old(writeShut) || (hasFd && Stopper(results) == Some(EndOfStream) && !allowHalfOpen))
    {
      var i;
      pushed, i := ReadChunks(results, loop);
      ReadToTheEnd(results, i, pushed);
      if i < |results| {
        LeaveLoop(results[i] == EndOfStream, loop);
      }
    }
  }

  class Server {
    const id: nat
    var hasListener: bool
    var listening: bool
    var closed: bool
    var closeEmitted: bool
    var connections: nat
    const allowHalfOpen: bool

    function View(): ServerState
      reads this
    {
      ServerState(hasListener, listening, closed, closeEmitted, connections, allowHalfOpen)
    }

    ghost predicate Valid()
      reads this
    {
      ServerCoherent(View())
    }

    /** `server_new_value` with the option that the caller stores right after it. */
    constructor (id: nat, allowHalfOpen: bool, loop: EventLoop)
      modifies loop
      ensures Valid()
      ensures View() == NewServerState(allowHalfOpen) && this.id == id
      ensures loop.active == old(loop.active) + 1 && loop.pumpStarted
      ensures loop.log == old(loop.log) + if old(loop.pumpStarted) then [] else [Pump]
    {
      this.id := id;
      hasListener, listening, closed, closeEmitted := false, false, false, false;
      connections := 0;
      this.allowHalfOpen := allowHalfOpen;
      new;
      loop.OpenHandle();
    }

    /** `server_listen` up to the spawn of the accept thread; `bound` is the outcome of bind. A
        closed server that listens again accepts nothing. */
    method Listen(bound: bool, loop: EventLoop)
      requires Valid()
      modifies this, loop`log
      ensures Valid()
      ensures old(closeEmitted) ==> View().StopsAccepting()
      ensures View() == if bound then old(View()).Listening() else old(View())
      ensures loop.log == old(loop.log) + [if bound then Job.Listening(id) else ServerError(id)]
    {
      if bound {
        hasListener := true;
        listening := true;
        loop.Deliver(Job.Listening(id));
      } else {
        loop.Deliver(ServerError(id));
      }
    }

    /** The accept thread counts an accepted socket and announces it. */
    method Announce(socket: Socket, loop: EventLoop)
      requires Valid()
      modifies this, loop`log
      ensures Valid()
      ensures View() == old(View()).Counted()
      ensures loop.log == old(loop.log) + [Connection(id, socket.id)]
    {
      connections := connections + 1;
      loop.Deliver(Connection(id, socket.id));
    }

    /** `server_close`. */
    method Close(loop: EventLoop)
      requires Valid()
      modifies this, loop
      ensures Valid() && closed && View().StopsAccepting()
      ensures View() == old(View()).Finished()
      ensures loop.log == old(loop.log) + if old(closeEmitted) then [] else [ServerClose(id)]
      ensures loop.active == old(loop.active) - if old(closeEmitted) then 0 else 1
      ensures loop.pumpStarted == old(loop.pumpStarted)
    {
      if closeEmitted {
        return;
      }
      listening := false;
      closed := true;
      closeEmitted := true;
      hasListener := false;
      loop.Deliver(ServerClose(id));
      loop.CloseHandle();
    }
  }

  // ---------------------------------------------------------- write_all_fd

  /** The answers of `write`: how many of `n` offered bytes call number `i` takes; zero or less refuses. */
  type Kernel = (nat, nat) -> int

  ghost predicate TakesNoMoreThanOffered(kernel: Kernel) {
    forall i: nat, n: nat :: kernel(i, n) <= n
  }

  /** Some call, from number `i` on, refuses before `n` bytes are through. */
  predicate Refuses(kernel: Kernel, i: nat, n: nat)
    decreases n
  {
    n > 0 && (kernel(i, n) <= 0 || (kernel(i, n) <= n && Refuses(kernel, i + 1, n - kernel(i, n))))
  }

  /** How the loop gets through `n` bytes: `counts` are the answers of its calls in turn, each taking
      something of what the ones before it left. */
  predicate Through(kernel: Kernel, n: nat, counts: seq<nat>) {
    counts == []
    || (Through(kernel, n, counts[..|counts| - 1])
        && Total(counts[..|counts| - 1]) <= n
        && kernel(|counts| - 1, n - Total(counts[..|counts| - 1])) == counts[|counts| - 1] > 0)
  }

  function Total(counts: seq<nat>): nat {
    if counts == [] then 0 else Total(counts[..|counts| - 1]) + counts[|counts| - 1]
  }

  /** `write_all_fd`; `taken` are the bytes handed to the descriptor and `counts` what its calls took.
      The bytes are a prefix of the input, in order, without gap or repeat, as long as the calls took
      together; the loop stops only when all is written or the next call refuses, so all is written
      iff no call refuses. */
  method WriteAllFd(kernel: Kernel, bytes: seq<Byte>) returns (taken: seq<Byte>, counts: seq<nat>)
    requires TakesNoMoreThanOffered(kernel)
    ensures Through(kernel, |bytes|, counts)
    ensures taken <= bytes && |taken| == Total(counts)
    ensures taken == bytes || kernel(|counts|, |bytes| - |taken|) <= 0
    ensures taken == bytes <==> !Refuses(kernel, 0, |bytes|)
  {
    taken, counts := [], [];
    while |taken| < |bytes|
      invariant taken <= bytes && |taken| == Total(counts)
      invariant Through(kernel, |bytes|, counts)
      invariant Refuses(kernel, 0, |bytes|) <==> Refuses(kernel, |counts|, |bytes| - |taken|)
      decreases |bytes| - |taken|
    {
      var written := |taken|;
      var count := kernel(|counts|, |bytes| - written);
      if count <= 0 {
        break;
      }
      assert (counts + [count])[..|counts|] == counts;
      taken := taken + bytes[written..written + count];
      counts := counts + [count];
    }
  }
}
