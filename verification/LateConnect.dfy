/** A run in which a connect overtakes the close of its own socket. */
module LateConnect {
  import opened Records
  import opened Machine
  import Finality

  const CREATED := [Invoke(CreateConnection(false)), Advance(0, Ok), Advance(0, Ok), Advance(0, Ok)]
  const DIALLED := [Advance(0, Ok), Advance(0, Ok), Advance(1, Ok), Advance(1, Ok)]
  const DESTROYED := [Invoke(DestroySoon(0)), Advance(2, Ok), Advance(2, Ok), Advance(2, Ok)]
  const PUBLISHED := [Advance(1, Ok), Advance(1, Ok), RunJob, RunJob]

  /** A destroy that overtakes the connect thread between its dial and its publish. */
  function DestroyRacesConnect(): seq<Step> {
    CREATED + DIALLED + DESTROYED + PUBLISHED
  }

  function Created(): State {
    State([NewSocketState(false)], [], [Thread(BeginConnect(0), Caller(CreateConnection(false)))],
          1, true, false, Ready, [Entry(Pump, By(0))], 0)
  }

  function Dialled(): State {
    State([NewSocketState(false).Connecting()], [],
          [Thread(Done, Caller(CreateConnection(false))), Thread(Publish(0), Connector(0))],
          1, true, false, Ready, [Entry(Pump, By(0)), Entry(Lookup(0, true), By(1))], 0)
  }

  function Destroyed(): State {
    State([NewSocketState(false).Connecting().Finished()], [],
          [Thread(Done, Caller(CreateConnection(false))), Thread(Publish(0), Connector(0)),
           Thread(Done, Caller(DestroySoon(0)))],
          0, true, false, Ready, [Entry(Pump, By(0)), Entry(Lookup(0, true), By(1)), Entry(Close(0, false), By(2))], 0)
  }

  /** Four steps that lead from state to state. */
  lemma FourSteps(st: State, steps: seq<Step>, a: State, b: State, c: State, d: State)
    requires |steps| == 4
    requires Next(st, steps[0]) == a && Next(a, steps[1]) == b && Next(b, steps[2]) == c && Next(c, steps[3]) == d
    ensures Run(st, steps) == d
  {
    assert steps[..3][..2] == steps[..2] && steps[..2][..1] == steps[..1] && steps[..1][..0] == [];
    assert Run(st, steps[..1]) == a;
    assert Run(st, steps[..2]) == b;
    assert Run(st, steps[..3]) == c;
  }

  lemma CreatedIsReached()
    ensures Run(Init(), CREATED) == Created()
  {
    var role, next := Caller(CreateConnection(false)), ThenConnect(0);
    var a := State([], [], [Thread(OpenSocket(false, true), role)], 0, false, false, Ready, [], 0);
    var b := State([NewSocketState(false)], [], [Thread(StartPump(next), role)], 1, false, false, Ready, [], 0);
    var c := b.(threads := [Thread(QueuePump(next), role)], pumpStarted := true);
    assert Next(Init(), Invoke(CreateConnection(false))) == a;
    assert Next(a, Advance(0, Ok)) == b by { Takes(a, 0, Ok, StartPump(next), AddSocket(NewSocketState(false)), b); }
    assert Next(b, Advance(0, Ok)) == c by { Takes(b, 0, Ok, QueuePump(next), ClaimPump, c); }
    assert Next(c, Advance(0, Ok)) == Created() by { Takes(c, 0, Ok, BeginConnect(0), Enqueue(Pump), Created()); }
    FourSteps(Init(), CREATED, a, b, c, Created());
  }

  function Connecting(): State {
    Created().(sockets := [NewSocketState(false).Connecting()],
               threads := [Thread(SpawnConnector(0), Caller(CreateConnection(false)))])
  }

  function Spawned(): State {
    Connecting().(threads := [Thread(Done, Caller(CreateConnection(false))), Thread(Resolve(0), Connector(0))])
  }

  function LookedUp(): State {
    Spawned().(threads := [Thread(Done, Caller(CreateConnection(false))), Thread(Dial(0), Connector(0))],
               log := Dialled().log)
  }

  lemma ConnectorIsSpawned()
    ensures Next(Created(), Advance(0, Ok)) == Connecting() && Next(Connecting(), Advance(0, Ok)) == Spawned()
  {
    Takes(Created(), 0, Ok, SpawnConnector(0), SetSocket(0, Connecting().sockets[0]), Connecting());
    Takes(Connecting(), 0, Ok, Done, Spawn(Thread(Resolve(0), Connector(0))), Spawned());
  }

  lemma ConnectorDials()
    ensures Next(Spawned(), Advance(1, Ok)) == LookedUp() && Next(LookedUp(), Advance(1, Ok)) == Dialled()
  {
    Takes(Spawned(), 1, Ok, Dial(0), Enqueue(Lookup(0, true)), LookedUp());
    Takes(LookedUp(), 1, Ok, Publish(0), Skip, Dialled());
  }

  lemma DialledIsReached()
    ensures Run(Created(), DIALLED) == Dialled()
  {
    ConnectorIsSpawned();
    ConnectorDials();
    FourSteps(Created(), DIALLED, Connecting(), Spawned(), LookedUp(), Dialled());
  }

  function Destroying(pc: Pc, base: State): State {
    base.(threads := Dialled().threads + [Thread(pc, Caller(DestroySoon(0)))])
  }

  function Claimed(): State {
    Dialled().(sockets := [NewSocketState(false).Connecting().Finished()])
  }

  function CloseQueued(): State {
    Claimed().(log := Dialled().log + [Entry(Close(0, false), By(2))])
  }

  lemma DestroyerCalls()
    ensures Next(Dialled(), Invoke(DestroySoon(0))) == Destroying(Claim(0), Dialled())
  {
  }

  lemma DestroyerClaims()
    ensures Next(Destroying(Claim(0), Dialled()), Advance(2, Ok)) == Destroying(QueueClose(0, false), Claimed())
  {
    Takes(Destroying(Claim(0), Dialled()), 2, Ok, QueueClose(0, false), SetSocket(0, Claimed().sockets[0]),
          Destroying(QueueClose(0, false), Claimed()));
  }

  lemma DestroyerQueues()
    ensures Next(Destroying(QueueClose(0, false), Claimed()), Advance(2, Ok)) == Destroying(Release, CloseQueued())
  {
    Takes(Destroying(QueueClose(0, false), Claimed()), 2, Ok, Release, Enqueue(Close(0, false)),
          Destroying(Release, CloseQueued()));
  }

  lemma DestroyerReleases()
    ensures Next(Destroying(Release, CloseQueued()), Advance(2, Ok)) == Destroyed()
  {
    Takes(Destroying(Release, CloseQueued()), 2, Ok, Done, CloseHandle, Destroyed());
  }

  lemma DestroyedIsReached()
    ensures Run(Dialled(), DESTROYED) == Destroyed()
  {
    DestroyerCalls();
    DestroyerClaims();
    DestroyerQueues();
    DestroyerReleases();
    FourSteps(Dialled(), DESTROYED, Destroying(Claim(0), Dialled()), Destroying(QueueClose(0, false), Claimed()),
              Destroying(Release, CloseQueued()), Destroyed());
  }

  function Published(): State {
    Moved(Destroyed(), 1, Announce(0)).(sockets := [Destroyed().sockets[0].Published()])
  }

  function Announced(): State {
    Moved(Published(), 1, Read(0)).(log := Destroyed().log + [Entry(ConnectReady(0), By(1))])
  }

  lemma ConnectorPublishes()
    ensures Next(Destroyed(), Advance(1, Ok)) == Published() && Next(Published(), Advance(1, Ok)) == Announced()
  {
    Takes(Destroyed(), 1, Ok, Announce(0), SetSocket(0, Published().sockets[0]), Published());
    Takes(Published(), 1, Ok, Read(0), Enqueue(ConnectReady(0)), Announced());
  }

  lemma PublishedIsReached()
    ensures var st := Run(Destroyed(), PUBLISHED);
            && st.sockets == [NewSocketState(false).Connecting().Finished().Published()]
            && st.log == Destroyed().log + [Entry(ConnectReady(0), By(1))]
  {
    var pumping := Announced().(ran := 1, main := PumpTest);
    ConnectorPublishes();
    FourSteps(Destroyed(), PUBLISHED, Published(), Announced(), pumping, pumping);
  }

  /** The code does reach a closed socket that says it is open, with `connect` enqueued after `close`. */
  lemma ClosedIsNotAlwaysFinal()
    ensures var st := Reached(DestroyRacesConnect());
            && !Finality.Final(st, 0) && SocketClosed(st, 0) && st.sockets[0].readyState == Open
            && |st.log| == 4 && st.log[2].job == Close(0, false) && st.log[3].job == ConnectReady(0)
  {
    RunOfConcat(Init(), CREATED + DIALLED + DESTROYED, PUBLISHED);
    RunOfConcat(Init(), CREATED + DIALLED, DESTROYED);
    RunOfConcat(Init(), CREATED, DIALLED);
    CreatedIsReached();
    DialledIsReached();
    DestroyedIsReached();
    PublishedIsReached();
  }
}
