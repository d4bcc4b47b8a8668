/**
 * A run of the machine, from its start, in which a server listens, a client connects, the server
 * accepts, and the accepted socket's connection event is taken from the queue: the client's and
 * the accepted socket then stand as the two connected ends of Handshake.dfy. So what the plans of
 * two connected ends decide is decided in runs of the machine.
 */
module Meeting {
  import opened Base
  import opened Records
  import opened Machine
  import H = Handshake
  import Acts = HandshakeActs
  import Ending

  // ------------------------------------------------- two steps of one thread

  /** Two steps of thread `t` through `mid` to `pc`. */
  lemma MovedTwice(st: State, t: nat, mid: Pc, pc: Pc)
    requires t < |st.threads|
    ensures Moved(Moved(st, t, mid), t, pc) == Moved(st, t, pc)
  {
  }

  /** `server_listen` from the bind to the accept thread's first test. */
  lemma Listens(st: State, t: nat, v: nat, x: ServerState)
    requires t < |st.threads| && st.threads[t].pc == Bind(v) && v < |st.servers| && st.servers[v] == x
    ensures Leads(st, Moved(st, t, Pc.Check(v, x.allowHalfOpen)).(
                        servers := st.servers[v := x.Listening()], log := st.log + [Entry(Job.Listening(v), By(t))]))
  {
    var allow := x.allowHalfOpen;
    var mid := Moved(st, t, QueueListening(v, allow)).(servers := st.servers[v := x.Listening()]);
    var post := Moved(mid, t, Pc.Check(v, allow)).(log := st.log + [Entry(Job.Listening(v), By(t))]);
    LeadsByTake(st, t, QueueListening(v, allow), SetServer(v, x.Listening()), mid);
    LeadsByTake(mid, t, Pc.Check(v, allow), Enqueue(Job.Listening(v)), post);
    LeadsOnward(st, mid, post);
    MovedTwice(st, t, QueueListening(v, allow), Pc.Check(v, allow));
  }

  /** `accepted_socket` from its publish region to its read loop. */
  lemma Publishes(st: State, t: nat, v: nat, s: nat, allow: bool)
    requires t < |st.threads| && st.threads[t].pc == PublishAccepted(v, s, allow) && v < |st.servers| && s < |st.sockets|
    ensures var moved := Moved(st, t, CountConnection(v, s, allow));
            Leads(st, moved.(sockets := st.sockets[s := st.sockets[s].Published()],
                             threads := moved.threads + [Thread(Pc.Read(s), AcceptedReader(s))]))
  {
    var x, reader := st.sockets[s].Published(), Thread(Pc.Read(s), AcceptedReader(s));
    var mid := Moved(st, t, SpawnReader(v, s, allow)).(sockets := st.sockets[s := x]);
    var moved := Moved(mid, t, CountConnection(v, s, allow));
    var post := moved.(threads := moved.threads + [reader]);
    LeadsByTake(st, t, SpawnReader(v, s, allow), SetSocket(s, x), mid);
    LeadsByTake(mid, t, CountConnection(v, s, allow), Spawn(reader), post);
    LeadsOnward(st, mid, post);
    MovedTwice(st, t, SpawnReader(v, s, allow), CountConnection(v, s, allow));
  }

  /** The accept thread counts and announces. */
  lemma Announces(st: State, t: nat, v: nat, s: nat, allow: bool)
    requires t < |st.threads| && st.threads[t].pc == CountConnection(v, s, allow) && v < |st.servers| && s < |st.sockets|
    ensures Leads(st, Moved(st, t, Pc.Check(v, allow)).(
                        servers := st.servers[v := st.servers[v].Counted()],
                        log := st.log + [Entry(Connection(v, s), By(t))]))
  {
    var x := st.servers[v].Counted();
    var mid := Moved(st, t, QueueConnection(v, s, allow)).(servers := st.servers[v := x]);
    var post := Moved(mid, t, Pc.Check(v, allow)).(log := st.log + [Entry(Connection(v, s), By(t))]);
    LeadsByTake(st, t, QueueConnection(v, s, allow), SetServer(v, x), mid);
    LeadsByTake(mid, t, Pc.Check(v, allow), Enqueue(Connection(v, s)), post);
    LeadsOnward(st, mid, post);
    MovedTwice(st, t, QueueConnection(v, s, allow), Pc.Check(v, allow));
  }

  // ---------------------------------------------------------- the server is up

  function ServerMade(pc: Pc, b: bool): State {
    State([], [NewServerState(b)], [Thread(pc, Caller(NewServer(b)))], 1, false, false, Ready, [], 0)
  }

  function ServerUp(b: bool): State {
    ServerMade(Done, b).(pumpStarted := true, log := [Entry(Job.Pump, By(0))])
  }

  lemma ServerIsMade(b: bool)
    ensures Leads(Init(), ServerMade(StartPump(ReturnServer(0)), b))
  {
    var a := Init().(threads := [Thread(OpenServer(b), Caller(NewServer(b)))]);
    var post := ServerMade(StartPump(ReturnServer(0)), b);
    LeadsByOneStep(Init(), Invoke(NewServer(b)));
    assert Next(Init(), Invoke(NewServer(b))) == a;
    LeadsByTake(a, 0, StartPump(ReturnServer(0)), AddServer(NewServerState(b)), post);
    LeadsOnward(Init(), a, post);
  }

  lemma ServerComesUp(b: bool)
    ensures Leads(Init(), ServerUp(b))
  {
    var next := ReturnServer(0);
    var c := ServerMade(QueuePump(next), b).(pumpStarted := true);
    ServerIsMade(b);
    LeadsByTake(ServerMade(StartPump(next), b), 0, QueuePump(next), ClaimPump, c);
    LeadsByTake(c, 0, Done, Enqueue(Job.Pump), ServerUp(b));
    LeadsOnward(Init(), ServerMade(StartPump(next), b), c);
    LeadsOnward(Init(), c, ServerUp(b));
  }

  // ----------------------------------------------------------------- it listens

  /** The accept thread, number 1, stands at `pc`. */
  function Listener(pc: Pc, b: bool): State {
    ServerUp(b).(
      servers := [NewServerState(b).Listening()],
      threads := [Thread(Done, Caller(NewServer(b))), Thread(pc, Caller(Listen(0)))],
      log := [Entry(Job.Pump, By(0)), Entry(Job.Listening(0), By(1))])
  }

  lemma ListenIsCalled(b: bool)
    ensures Leads(ServerUp(b), Listener(Bind(0), b).(servers := ServerUp(b).servers, log := ServerUp(b).log))
  {
    LeadsByOneStep(ServerUp(b), Invoke(Listen(0)));
    assert Next(ServerUp(b), Invoke(Listen(0)))
        == Listener(Bind(0), b).(servers := ServerUp(b).servers, log := ServerUp(b).log);
  }

  lemma ListenIsBound(b: bool)
    ensures Leads(Listener(Bind(0), b).(servers := ServerUp(b).servers, log := ServerUp(b).log),
                  Listener(Pc.Check(0, b), b))
  {
    var st := Listener(Bind(0), b).(servers := ServerUp(b).servers, log := ServerUp(b).log);
    Listens(st, 1, 0, NewServerState(b));
    assert st.threads[1 := st.threads[1].(pc := Pc.Check(0, b))] == Listener(Pc.Check(0, b), b).threads;
  }

  lemma ServerAccepts(b: bool)
    ensures Leads(Listener(Pc.Check(0, b), b), Listener(Pc.Accept(0, b), b))
  {
    LeadsByTake(Listener(Pc.Check(0, b), b), 1, Pc.Accept(0, b), Skip, Listener(Pc.Accept(0, b), b));
  }

  lemma ServerListens(b: bool)
    ensures Leads(ServerUp(b), Listener(Pc.Accept(0, b), b))
  {
    ListenIsCalled(b);
    ListenIsBound(b);
    ServerAccepts(b);
    LeadsOnward(ServerUp(b), Listener(Bind(0), b).(servers := ServerUp(b).servers, log := ServerUp(b).log),
                Listener(Pc.Check(0, b), b));
    LeadsOnward(ServerUp(b), Listener(Pc.Check(0, b), b), Listener(Pc.Accept(0, b), b));
  }

  // --------------------------------------------------------- a client connects

  /** The client's call, number 2, stands at `pc`, its socket holds `x`. */
  function Client(pc: Pc, x: SocketState, a: bool, b: bool): State {
    Listener(Pc.Accept(0, b), b).(
      sockets := [x],
      active := 2,
      threads := Listener(Pc.Accept(0, b), b).threads + [Thread(pc, Caller(CreateConnection(a)))])
  }

  /** Its connect thread, number 3, stands at `pc`, and `jobs` more are enqueued. */
  function Dialling(pc: Pc, x: SocketState, jobs: seq<Job>, a: bool, b: bool): State {
    var st := Client(Done, x, a, b);
    st.(threads := st.threads + [Thread(pc, Connector(0))], log := st.log + EntriesOf(jobs, 3))
  }

  function EntriesOf(jobs: seq<Job>, t: nat): seq<Entry> {
    if jobs == [] then [] else EntriesOf(jobs[..|jobs| - 1], t) + [Entry(jobs[|jobs| - 1], By(t))]
  }

  lemma ClientIsMade(a: bool, b: bool)
    ensures Leads(Listener(Pc.Accept(0, b), b), Client(StartPump(ThenConnect(0)), NewSocketState(a), a, b))
  {
    var st := Listener(Pc.Accept(0, b), b);
    var mid := st.(threads := st.threads + [Thread(OpenSocket(a, true), Caller(CreateConnection(a)))]);
    var post := Client(StartPump(ThenConnect(0)), NewSocketState(a), a, b);
    LeadsByOneStep(st, Invoke(CreateConnection(a)));
    assert Next(st, Invoke(CreateConnection(a))) == mid;
    LeadsByTake(mid, 2, StartPump(ThenConnect(0)), AddSocket(NewSocketState(a)), post);
    LeadsOnward(st, mid, post);
  }

  lemma ClientBegins(a: bool, b: bool)
    ensures Leads(Client(StartPump(ThenConnect(0)), NewSocketState(a), a, b),
                  Client(SpawnConnector(0), NewSocketState(a).Connecting(), a, b))
  {
    var st := Client(StartPump(ThenConnect(0)), NewSocketState(a), a, b);
    var mid := Client(BeginConnect(0), NewSocketState(a), a, b);
    var post := Client(SpawnConnector(0), NewSocketState(a).Connecting(), a, b);
    LeadsByTake(st, 2, BeginConnect(0), Skip, mid);
    LeadsByTake(mid, 2, SpawnConnector(0), SetSocket(0, NewSocketState(a).Connecting()), post);
    LeadsOnward(st, mid, post);
  }

  lemma ClientSpawns(x: SocketState, a: bool, b: bool)
    ensures Leads(Client(SpawnConnector(0), x, a, b), Dialling(Resolve(0), x, [], a, b))
  {
    LeadsByTake(Client(SpawnConnector(0), x, a, b), 2, Done, Spawn(Thread(Resolve(0), Connector(0))),
                Dialling(Resolve(0), x, [], a, b));
  }

  lemma ClientLooksUp(x: SocketState, a: bool, b: bool)
    ensures Leads(Client(SpawnConnector(0), x, a, b), Dialling(Dial(0), x, [Lookup(0, true)], a, b))
  {
    var mid, post := Dialling(Resolve(0), x, [], a, b), Dialling(Dial(0), x, [Lookup(0, true)], a, b);
    ClientSpawns(x, a, b);
    LeadsByTake(mid, 3, Dial(0), Enqueue(Lookup(0, true)), post);
    LeadsOnward(Client(SpawnConnector(0), x, a, b), mid, post);
  }

  lemma ClientPublishes(a: bool, b: bool)
    ensures Leads(Dialling(Dial(0), NewSocketState(a).Connecting(), [Lookup(0, true)], a, b),
                  Dialling(Pc.Announce(0), NewSocketState(a).Published(), [Lookup(0, true)], a, b))
  {
    var x := NewSocketState(a).Connecting();
    var st := Dialling(Dial(0), x, [Lookup(0, true)], a, b);
    var mid := Dialling(Pc.Publish(0), x, [Lookup(0, true)], a, b);
    var post := Dialling(Pc.Announce(0), NewSocketState(a).Published(), [Lookup(0, true)], a, b);
    LeadsByTake(st, 3, Pc.Publish(0), Skip, mid);
    LeadsByTake(mid, 3, Pc.Announce(0), SetSocket(0, NewSocketState(a).Published()), post);
    LeadsOnward(st, mid, post);
  }

  /** The client is connected. */
  function ClientUp(a: bool, b: bool): State {
    Dialling(Pc.Read(0), NewSocketState(a).Published(), [Lookup(0, true), ConnectReady(0)], a, b)
  }

  lemma ClientComesUp(a: bool, b: bool)
    ensures Leads(Dialling(Pc.Announce(0), NewSocketState(a).Published(), [Lookup(0, true)], a, b), ClientUp(a, b))
  {
    var st := Dialling(Pc.Announce(0), NewSocketState(a).Published(), [Lookup(0, true)], a, b);
    assert [Lookup(0, true), ConnectReady(0)][..1] == [Lookup(0, true)];
    LeadsByTake(st, 3, Pc.Read(0), Enqueue(ConnectReady(0)), ClientUp(a, b));
  }

  lemma ClientIsReached(a: bool, b: bool)
    ensures Leads(Init(), ClientUp(a, b))
  {
    var x := NewSocketState(a);
    ServerComesUp(b);
    ServerListens(b);
    ClientIsMade(a, b);
    ClientBegins(a, b);
    ClientLooksUp(x.Connecting(), a, b);
    ClientPublishes(a, b);
    ClientComesUp(a, b);
    LeadsOnward(Init(), ServerUp(b), Listener(Pc.Accept(0, b), b));
    LeadsOnward(Init(), Listener(Pc.Accept(0, b), b), Client(StartPump(ThenConnect(0)), x, a, b));
    LeadsOnward(Init(), Client(StartPump(ThenConnect(0)), x, a, b), Client(SpawnConnector(0), x.Connecting(), a, b));
    LeadsOnward(Init(), Client(SpawnConnector(0), x.Connecting(), a, b),
                Dialling(Dial(0), x.Connecting(), [Lookup(0, true)], a, b));
    LeadsOnward(Init(), Dialling(Dial(0), x.Connecting(), [Lookup(0, true)], a, b),
                Dialling(Pc.Announce(0), x.Published(), [Lookup(0, true)], a, b));
    LeadsOnward(Init(), Dialling(Pc.Announce(0), x.Published(), [Lookup(0, true)], a, b), ClientUp(a, b));
  }

  // --------------------------------------------------------- the server accepts

  /** The accept thread stands at `pc` with its new socket, which holds `y`. */
  function Accepting(pc: Pc, y: SocketState, a: bool, b: bool): State {
    var st := ClientUp(a, b);
    st.(sockets := [NewSocketState(a).Published(), y], active := 3, threads := st.threads[1 := st.threads[1].(pc := pc)])
  }

  /** And its read loop, number 4, has been started. */
  function Reading(pc: Pc, a: bool, b: bool): State {
    var st := Accepting(pc, NewSocketState(b).Published(), a, b);
    st.(threads := st.threads + [Thread(Pc.Read(1), AcceptedReader(1))])
  }

  lemma ServerMakesSocket(a: bool, b: bool)
    ensures Leads(ClientUp(a, b), Accepting(StartPump(ThenAccept(0, 1, b)), NewSocketState(b), a, b))
  {
    LeadsByTake(ClientUp(a, b), 1, StartPump(ThenAccept(0, 1, b)), AddSocket(NewSocketState(b)),
                Accepting(StartPump(ThenAccept(0, 1, b)), NewSocketState(b), a, b));
  }

  lemma ServerPassesPump(a: bool, b: bool)
    ensures Leads(Accepting(StartPump(ThenAccept(0, 1, b)), NewSocketState(b), a, b),
                  Accepting(PublishAccepted(0, 1, b), NewSocketState(b), a, b))
  {
    LeadsByTake(Accepting(StartPump(ThenAccept(0, 1, b)), NewSocketState(b), a, b), 1, PublishAccepted(0, 1, b), Skip,
                Accepting(PublishAccepted(0, 1, b), NewSocketState(b), a, b));
  }

  lemma ServerTakesIt(a: bool, b: bool)
    ensures Leads(ClientUp(a, b), Accepting(PublishAccepted(0, 1, b), NewSocketState(b), a, b))
  {
    var mid := Accepting(StartPump(ThenAccept(0, 1, b)), NewSocketState(b), a, b);
    ServerMakesSocket(a, b);
    ServerPassesPump(a, b);
    LeadsOnward(ClientUp(a, b), mid, Accepting(PublishAccepted(0, 1, b), NewSocketState(b), a, b));
  }

  lemma ServerPublishes(a: bool, b: bool)
    ensures Leads(Accepting(PublishAccepted(0, 1, b), NewSocketState(b), a, b), Reading(CountConnection(0, 1, b), a, b))
  {
    var st := Accepting(PublishAccepted(0, 1, b), NewSocketState(b), a, b);
    Publishes(st, 1, 0, 1, b);
    assert st.sockets[1 := NewSocketState(b).Published()] == Reading(CountConnection(0, 1, b), a, b).sockets;
  }

  /** Both sockets are connected, and the connection event is in the queue. */
  function Met(a: bool, b: bool): State {
    var st := Reading(CountConnection(0, 1, b), a, b);
    Moved(st, 1, Pc.Check(0, b)).(
      servers := st.servers[0 := st.servers[0].Counted()], log := st.log + [Entry(Connection(0, 1), By(1))])
  }

  lemma ServerAnnounces(a: bool, b: bool)
    ensures Leads(Reading(CountConnection(0, 1, b), a, b), Met(a, b))
  {
    Announces(Reading(CountConnection(0, 1, b), a, b), 1, 0, 1, b);
  }

  lemma MeetingIsReached(a: bool, b: bool) returns (steps: seq<Step>)
    ensures Reached(steps) == Met(a, b)
  {
    ClientIsReached(a, b);
    ServerTakesIt(a, b);
    ServerPublishes(a, b);
    ServerAnnounces(a, b);
    LeadsOnward(Init(), ClientUp(a, b), Accepting(PublishAccepted(0, 1, b), NewSocketState(b), a, b));
    LeadsOnward(Init(), Accepting(PublishAccepted(0, 1, b), NewSocketState(b), a, b),
                Reading(CountConnection(0, 1, b), a, b));
    LeadsOnward(Init(), Reading(CountConnection(0, 1, b), a, b), Met(a, b));
    steps :| Run(Init(), steps) == Met(a, b);
  }

  // --------------------------------------------------------- the two ends stand

  function FreshEnd(allow: bool, plan: seq<H.Call>): H.Endpoint {
    H.Endpoint(NewSocketState(allow).Published(), H.Reading, false, plan, H.Idle, false, false, [], [], [])
  }

  /** The client and the accepted socket, with any plans. */
  function Ends(a: bool, b: bool, p: seq<H.Call>, q: seq<H.Call>): H.World {
    H.World(FreshEnd(a, p), FreshEnd(b, q), 2)
  }

  const CLIENT := Acts.Place(0, 3, None)
  const ACCEPTED := Acts.Place(1, 4, None)

  lemma MetIsHandedOut(a: bool, b: bool, st: State, s: nat)
    requires Ending.SameWorld(Met(a, b), st) && Ending.OnlyPumped(Met(a, b), st) && |Met(a, b).log| <= st.ran
    ensures HandedOut(st, s)
  {
    assert st.threads == Met(a, b).threads && |st.threads| == 5;
  }

  lemma MetStands(a: bool, b: bool, p: seq<H.Call>, q: seq<H.Call>, st: State)
    requires Ending.SameWorld(Met(a, b), st) && Ending.OnlyPumped(Met(a, b), st) && |Met(a, b).log| <= st.ran
    ensures Acts.Stands(st, Ends(a, b, p, q), CLIENT, ACCEPTED, 1)
  {
    MetIsHandedOut(a, b, st, 0);
    MetIsHandedOut(a, b, st, 1);
  }

  /** From its start the machine reaches a state that stands at two ends that have just connected,
      whatever their plans and their `allowHalfOpen`. */
  lemma ConnectedEndsAreReached(a: bool, b: bool, p: seq<H.Call>, q: seq<H.Call>) returns (steps: seq<Step>)
    ensures H.Connected(Ends(a, b, p, q)) && Acts.Stands(Reached(steps), Ends(a, b, p, q), CLIENT, ACCEPTED, 1)
  {
    var meeting := MeetingIsReached(a, b);
    var running := Ending.CatchesUp(Met(a, b), |Met(a, b).log|);
    Ending.MainRunKeepsWorld(Met(a, b), running);
    Ending.MainRunOnlyPumps(Met(a, b), running);
    RunOfConcat(Init(), meeting, running);
    steps := meeting + running;
    MetStands(a, b, p, q, Reached(steps));
  }

  /** With `allowHalfOpen` off on both ends, whatever they write: if one end calls `end` or `destroy`,
      or both call `destroySoon`, a run of the machine from its start closes both sockets and
      leaves one handle counted, that of the listening server. */
  lemma OneEndClosesBothFromTheStart(p: seq<H.Call>, q: seq<H.Call>) returns (steps: seq<Step>)
    requires H.Asks(p) || H.Asks(q) || (H.AsksSoon(p) && H.AsksSoon(q))
    ensures var st := Reached(steps); SocketClosed(st, 0) && SocketClosed(st, 1) && st.active == 1
  {
    var w := Ends(false, false, p, q);
    var meeting := ConnectedEndsAreReached(false, false, p, q);
    var moves := H.ComesToRest(w);
    H.NoFailureOfItsOwn(w, moves);
    var more := Acts.OneEndClosesBothInTheMachine(Reached(meeting), w, moves, CLIENT, ACCEPTED, 1);
    RunOfConcat(Init(), meeting, more);
    steps := meeting + more;
  }
}
