/**
 * The mutex-guarded records of `SocketState` and `ServerState`, and what each
 * lock region does to them. A region is one atomic step: the concurrent machine
 * (Machine.dfy) and the record classes (Objects.dfy) both use these functions.
 */
module Records {
  import opened Base

  datatype ReadyState = Opening | Open | Closed

  datatype SocketState = SocketState(
    readyState: ReadyState,
    connecting: bool,
    pending: bool,
    destroyed: bool,
    hadError: bool,
    closeEmitted: bool,
    bytesRead: nat,
    timeoutMs: Option<int>,
    allowHalfOpen: bool)
  {
    /** `socket_connect`, on the calling thread. */
    function Connecting(): SocketState {
      this.(connecting := true, pending := true, readyState := Opening)
    }

    /** The connect thread, or `accepted_socket`, reports the connection. There is no `destroyed` test. */
    function Published(): SocketState {
      this.(connecting := false, pending := false, readyState := Open)
    }

    /** `socket_destroy` with an error. */
    function Failed(): SocketState {
      this.(hadError := true)
    }

    /** `socket_finish`: the first caller closes the record, later callers leave it alone. */
    function Finished(): SocketState {
      if closeEmitted then this
      else this.(closeEmitted := true, destroyed := true, readyState := Closed, pending := false)
    }

    /** The read loop counts a chunk. */
    function Received(count: nat): SocketState {
      this.(bytesRead := bytesRead + count)
    }

    /** `start_timeout_timer` stores the period. */
    function Timed(ms: int): SocketState {
      this.(timeoutMs := Some(ms))
    }

    /** What a timer that slept for `ms` asks when it wakes. */
    predicate TimerDue(ms: int) {
      !destroyed && timeoutMs == Some(ms)
    }
  }

  function NewSocketState(allowHalfOpen: bool): SocketState {
    SocketState(Opening, false, true, false, false, false, 0, None, allowHalfOpen)
  }

  datatype ServerState = ServerState(
    hasListener: bool,
    listening: bool,
    closed: bool,
    closeEmitted: bool,
    connections: nat,
    allowHalfOpen: bool)
  {
    /** `server_listen` after a successful bind. */
    function Listening(): ServerState {
      this.(hasListener := true, listening := true)
    }

    /** The accept thread counts a connection. */
    function Counted(): ServerState {
      this.(connections := connections + 1)
    }

    /** `server_close`: the first caller closes the record, later callers leave it alone. */
    function Finished(): ServerState {
      if closeEmitted then this
      else this.(listening := false, closed := true, closeEmitted := true, hasListener := false)
    }

    /** The accept thread leaves its loop. */
    predicate StopsAccepting() {
      !listening || closed
    }
  }

  function NewServerState(allowHalfOpen: bool): ServerState {
    ServerState(false, false, false, false, 0, allowHalfOpen)
  }

  /** How the flags of a socket hang together; every lock region keeps it so. */
  predicate SocketCoherent(x: SocketState) {
    && (x.pending <==> x.readyState == Opening)
    && (x.readyState == Open ==> !x.connecting)
    && (x.destroyed <==> x.closeEmitted)
    && (x.readyState == Closed ==> x.closeEmitted)
  }

  /** The same for a server. */
  predicate ServerCoherent(x: ServerState) {
    && (x.closed <==> x.closeEmitted)
    && (x.listening ==> x.hasListener)
  }

  /**
   * A job on the main-thread queue. Sockets and servers are named by number.
   * `ConnectReady` is the one job that emits `connect` and then `ready`.
   */
  datatype Job =
    | Pump
    | Lookup(s: nat, found: bool)
    | ConnectReady(s: nat)
    | Data(s: nat, count: nat)
    | End(s: nat)
    | Error(s: nat)
    | Close(s: nat, hadError: bool)
    | Timeout(s: nat)
    | Listening(v: nat)
    | Connection(v: nat, s: nat)
    | ServerError(v: nat)
    | ServerClose(v: nat)

  type Byte = bv8

  /** The chunks, joined in order. */
  function Flatten(chunks: seq<seq<Byte>>): seq<Byte> {
    if chunks == [] then [] else Flatten(chunks[..|chunks| - 1]) + chunks[|chunks| - 1]
  }

  lemma FlattenOfAppend(chunks: seq<seq<Byte>>, chunk: seq<Byte>)
    ensures Flatten(chunks + [chunk]) == Flatten(chunks) + chunk
  {
    assert (chunks + [chunk])[..|chunks|] == chunks;
  }

  /** The read loop's buffer. */
  const BUFFER_SIZE: nat := 65536
}
