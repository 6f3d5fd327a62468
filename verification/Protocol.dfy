/**
 * The joint protocol: a server and a client controller, their control connection, the data
 * connections, the server's accept loop as far as it serves this test, and every stream worker.
 * A run is any interleaving of the steps below.
 */
module Protocol {
  import opened Messages
  import opened Control
  import opened Framing
  import B = Broadcast
  import W = Worker

  /** What is fixed for a test; the three frames are those of the data-connection handshake. */
  datatype Config = Config(
    params: Parameters,
    cookie: string,
    codec: Codec,
    hello: seq<byte>,
    welcome: seq<byte>,
    refusal: seq<byte>)
  {
    function Total(): nat { TotalStreams(params) }
  }

  ghost predicate IsFrame(frame: seq<byte>, payload: seq<byte>) {
    |payload| <= MAX_CONTROL_MESSAGE_SIZE && frame == Frame(payload)
  }

  ghost predicate ValidConfig(c: Config) {
    && c.params.parallel >= 1 && c.Total() < U16_LIMIT
    && Faithful(c.codec)
    && IsFrame(c.hello, c.codec.encodeClient(ClientEnvelope(Hello(c.cookie))))
    && IsFrame(c.welcome, c.codec.encodeServer(ServerEnvelope.ServerMessage(Welcome)))
    && IsFrame(c.refusal, c.codec.encodeServer(ServerFailure(PerfTestAlreadyInFlight)))
  }

  /** One direction of a data connection: everything written to it, and how much has been read. */
  datatype Pipe = Pipe(written: seq<byte>, read: nat) {
    function Unread(): seq<byte> {
      if read <= |written| then written[read..] else []
    }
  }

  /** `up` carries the client's bytes, `down` the server's; `taken` once the accept loop has it. */
  datatype Conn = Conn(up: Pipe, down: Pipe, taken: bool)

  /**
   * What the accept loop is doing with a connection of this test. It holds the lock on the server's
   * state from the moment it has seen CreateStreams until it has tried to enqueue the stream.
   */
  datatype Gate = Open | Checking(conn: nat) | Welcoming(conn: nat)

  datatype Net = Net(
    server: Side,
    client: Side,
    toClient: seq<ServerMessage>,
    toServer: seq<ClientMessage>,
    conns: seq<Conn>,
    gate: Gate,
    script: seq<State>, // history: Start, then every state the server has announced
    stopped: bool)      // history: the client has terminated on its own account

  function Init(): Net {
    Net(InitialSide(Server), InitialSide(Client), [], [], [], Open, [Start], false)
  }

  function SideOf(n: Net, role: Role): Side {
    if role.Server? then n.server else n.client
  }

  function WithSide(n: Net, role: Role, s: Side): Net {
    if role.Server? then n.(server := s) else n.(client := s)
  }

  /** The server's new side, with the state it has just written to its client, if it has written one. */
  function Announce(n: Net, s: Side): Net {
    if s.pc.Announced?
    then n.(server := s, toClient := n.toClient + [SetState(s.pc.next)], script := n.script + [s.pc.next])
    else n.(server := s)
  }

  function SetTask(s: Side, id: nat, task: Task): Side
    requires id < |s.streams|
  {
    s.(streams := s.streams[id := s.streams[id].(task := task)])
  }

  function SetConn(n: Net, k: nat, conn: Conn): Net
    requires k < |n.conns|
  {
    n.(conns := n.conns[k := conn])
  }

  function Append(p: Pipe, bytes: seq<byte>): Pipe { p.(written := p.written + bytes) }

  function Advance(p: Pipe, count: nat): Pipe { p.(read := p.read + count) }

  datatype Step =
    // the server's controller
    | AnnounceStart
    | CommitState
    | Reply
    // the client's controller
    | Connect
    | ReadWelcome
    | Follow
    // either controller
    | WakeUp(role: Role, shutdown: bool)
    | WindUp(role: Role)
    | TakeMessage(role: Role)
    | ShutDown(role: Role)
    | Drain(role: Role, id: nat)
    | DrainEnds(role: Role)
    | TakeResults(role: Role)
    | Abort(role: Role)
    // the server's accept loop
    | Admit(conn: nat)
    | TurnAway(conn: nat)
    | CheckCookie
    | Enqueue
    | GateFails
    | Stray
    | NewTestInstead(conn: nat)
    // a stream worker
    | StartWorker(role: Role, id: nat, startTime: nat, gap: nat)
    | Measure(role: Role, id: nat, tick: W.Tick, ending: W.Ending)
    | WorkerDies(role: Role, id: nat)
  {
    predicate ByWorker() { StartWorker? || Measure? || WorkerDies? }

    predicate ByAcceptLoop() {
      Admit? || TurnAway? || CheckCookie? || Enqueue? || GateFails? || Stray? || NewTestInstead?
    }

    predicate ByController() { !ByWorker() && !ByAcceptLoop() }
  }

  /** The lock on a side's state is free unless the accept loop holds it. */
  predicate Free(n: Net, role: Role) { role.Client? || n.gate.Open? }

  function EndpointOf(c: Config, s: Side, id: nat): W.Endpoint
    requires id < |s.streams|
  {
    W.Endpoint(id, s.streams[id].isSending, c.params)
  }

  /** What a running worker's non-blocking receive yields. */
  function SignalOf(s: Side, cursor: nat): W.Signal {
    if cursor > |s.published| then W.ReceiveFailed else
    match B.Receive(s.published, cursor)
    case Empty => if s.Alive() then W.Quiet else W.ReceiveFailed
    case Next(message, _) => W.Got(message)
    case Lagged(_) => W.ReceiveFailed
  }

  function CursorAfter(s: Side, cursor: nat): nat {
    if cursor < |s.published| then cursor + 1 else cursor
  }

  /** The pipe stream `id` of a side reads from. */
  function InPipe(role: Role, conn: Conn): Pipe {
    if role.Server? then conn.up else conn.down
  }

  /** A worker is waiting and there is a message for it. */
  predicate CanStart(s: Side, id: nat) {
    id < |s.streams| && s.streams[id].task.Waiting? && s.streams[id].task.cursor < |s.published|
  }

  predicate CanMeasure(c: Config, n: Net, role: Role, id: nat, t: W.Tick) {
    var s := SideOf(n, role);
    && id < |s.streams| && s.streams[id].task.Loading? && s.streams[id].conn < |n.conns|
    && W.ValidTick(c.params, t)
    && t.signal == SignalOf(s, s.streams[id].task.cursor)
    && (t.io.Moved? && !s.streams[id].isSending ==> t.io.count <= |InPipe(role, n.conns[s.streams[id].conn]).Unread()|)
  }

  predicate Enabled(c: Config, n: Net, step: Step) {
    match step
    case AnnounceStart => n.server.pc.Top? && n.server.state.Start? && n.gate.Open?
    case CommitState => n.server.pc.Announced? && n.gate.Open?
    case Reply => n.server.pc.Replying?
    case Connect => n.client.pc.Top? && n.client.state.CreateStreams? && |n.client.streams| < c.Total()
    case ReadWelcome =>
      && n.client.pc.AwaitWelcome? && n.client.pc.conn < |n.conns|
      && !ClientReads(c.codec, n.conns[n.client.pc.conn].down.Unread()).Unreadable?
    case Follow => n.client.pc.Select? && n.toClient != []
    case WakeUp(role, _) =>
      var s := SideOf(n, role);
      && s.pc.Top? && Free(n, role)
      && (match s.state
          case Start => role.Client?
          case CreateStreams(_) => role.Server? || |s.streams| >= c.Total()
          case Running => true
          case _ => false)
    case WindUp(role) =>
      var s := SideOf(n, role);
      s.pc.Top? && Free(n, role) && (s.state.ExchangeResults? || s.state.Terminate?)
    case TakeMessage(role) =>
      var s := SideOf(n, role);
      && s.pc.Select? && s.queue != []
      && (s.queue[0].StreamTerminated? && s.queue[0].id in s.workers ==> TaskOf(s, s.queue[0].id).Over())
    case ShutDown(role) => SideOf(n, role).pc.Select?
    case Drain(role, id) => SideOf(n, role).pc.Draining? && id in SideOf(n, role).workers
    case DrainEnds(role) => SideOf(n, role).pc.Draining? && SideOf(n, role).workers == {}
    case TakeResults(role) =>
      SideOf(n, role).pc.AwaitResults? && (if role.Server? then n.toServer != [] else n.toClient != [])
    case Abort(role) => SideOf(n, role).Alive()
    case Admit(k) =>
      n.gate.Open? && k < |n.conns| && !n.conns[k].taken && n.server.Alive() && n.server.state.CreateStreams?
    case TurnAway(k) => // by a stranger's test, if the test's own server is gone
      n.gate.Open? && k < |n.conns| && !n.conns[k].taken && !(n.server.Alive() && n.server.state.CreateStreams?)
    case CheckCookie =>
      && n.gate.Checking? && n.gate.conn < |n.conns| && n.server.state.CreateStreams?
      && var r := ServerReads(c.codec, n.conns[n.gate.conn].up.Unread()); r.Message? && r.message.Hello?
    case Enqueue => n.gate.Welcoming?
    case GateFails => n.gate.Checking?
    case Stray => n.gate.Open? && n.server.Alive() && n.server.state.CreateStreams?
    case NewTestInstead(k) => n.gate.Open? && k < |n.conns| && !n.conns[k].taken && !n.server.Alive()
    case StartWorker(role, id, _, _) => CanStart(SideOf(n, role), id)
    case Measure(role, id, tick, _) => CanMeasure(c, n, role, id, tick)
    case WorkerDies(role, id) =>
      var s := SideOf(n, role);
      id < |s.streams| && !s.streams[id].task.Over()
  }

  function ApplyConnect(c: Config, n: Net): Net {
    var conn := Conn(Pipe(c.hello, 0), Pipe([], 0), false);
    n.(conns := n.conns + [conn], client := n.client.(pc := AwaitWelcome(|n.conns|)))
  }

  function ApplyReadWelcome(c: Config, n: Net): Net
    requires Enabled(c, n, ReadWelcome)
  {
    var k := n.client.pc.conn;
    var r := ClientReads(c.codec, n.conns[k].down.Unread());
    var m := SetConn(n, k, n.conns[k].(down := Advance(n.conns[k].down, r.used)));
    m.(client := if r.Message? then Register(c.params, n.client, k).(pc := Top) else n.client.(pc := Aborted))
  }

  function ApplyCheckCookie(c: Config, n: Net): Net
    requires Enabled(c, n, CheckCookie)
  {
    var k := n.gate.conn;
    var r := ServerReads(c.codec, n.conns[k].up.Unread());
    var good := r.message.cookie == n.server.state.cookie;
    SetConn(n, k, n.conns[k].(up := Advance(n.conns[k].up, r.used),
                              down := Append(n.conns[k].down, if good then c.welcome else c.refusal)))
      .(gate := if good then Welcoming(k) else Open)
  }

  function ApplyDrainEnds(n: Net, role: Role): Net {
    var s := SideOf(n, role);
    if !s.state.ExchangeResults? then WithSide(n, role, s.(pc := Done))
    else if role.Server? then n.(server := s.(pc := AwaitResults))
    else n.(client := s.(pc := AwaitResults), toServer := n.toServer + [ClientResults(s.results)])
  }

  function ApplyTakeResults(c: Config, n: Net, role: Role): Net
    requires Enabled(c, n, TakeResults(role))
  {
    match role
    case Server =>
      var s := if n.toServer[0].ClientResults? then n.server.(pc := Replying,
          remote := Some(AsPeer(n.toServer[0].results)))
               else n.server.(pc := Aborted);
      n.(server := s, toServer := n.toServer[1..])
    case Client =>
      var s := if n.toClient[0].ServerResults? then n.client.(pc := Done, remote := Some(AsPeer(n.toClient[0].results)))
               else n.client.(pc := Aborted);
      n.(client := s, toClient := n.toClient[1..])
  }

  /** What its first message makes of a waiting worker: anything but StartLoad ends it. */
  function Started(s: Side, id: nat, startTime: nat, gap: nat): Task
    requires CanStart(s, id)
  {
    var poll := B.Receive(s.published, s.streams[id].task.cursor);
    if poll.Next? && poll.message.StartLoad? then Loading(poll.cursor, W.NewMeter(startTime, gap)) else Failed
  }

  function ApplyStartWorker(n: Net, role: Role, id: nat, startTime: nat, gap: nat): Net
    requires CanStart(SideOf(n, role), id)
  {
    WithSide(n, role, SetTask(SideOf(n, role), id, Started(SideOf(n, role), id, startTime, gap)))
  }

  /** The bytes a worker's call moves, taken from or added to its data connection. */
  function Move(role: Role, isSending: bool, conn: Conn, count: nat): Conn {
    var bytes := seq(count, _ => 0);
    match (role, isSending)
    case (Client, true) => conn.(up := Append(conn.up, bytes))
    case (Client, false) => conn.(down := Advance(conn.down, count))
    case (Server, true) => conn.(down := Append(conn.down, bytes))
    case (Server, false) => conn.(up := Advance(conn.up, count))
  }

  /** The worker's side after one run of its loop body: a worker that returns announces itself. */
  function Measured(c: Config, s: Side, id: nat, t: W.Tick, e: W.Ending): Side
    requires id < |s.streams| && s.streams[id].task.Loading?
  {
    var ep, task := EndpointOf(c, s, id), s.streams[id].task;
    match W.Iterate(ep, task.meter, t)
    case Continue(next) => SetTask(s, id, Loading(CursorAfter(s, task.cursor), next))
    case Leave(left, _) =>
      if e.accepted then TrySend(SetTask(s, id, Returned(W.Summary(ep, left, e))), StreamTerminated(id))
      else SetTask(s, id, Failed)
    case Abandon(_) => SetTask(s, id, Failed)
  }

  function ApplyMeasure(c: Config, n: Net, role: Role, id: nat, t: W.Tick, e: W.Ending): Net
    requires CanMeasure(c, n, role, id, t)
  {
    var s := SideOf(n, role);
    var stream := s.streams[id];
    var count := W.Transferred(EndpointOf(c, s, id), stream.task.meter, t);
    var m := SetConn(n, stream.conn, Move(role, stream.isSending, n.conns[stream.conn], count));
    WithSide(m, role, Measured(c, s, id, t, e))
  }

  function Apply(c: Config, n: Net, step: Step): Net
    requires Enabled(c, n, step)
  {
    match step
    case AnnounceStart => Announce(n, RequestState(n.server, CreateStreams(c.cookie)))
    case CommitState => n.(server := Commit(n.server, n.server.pc.next))
    case Reply => n.(server := n.server.(pc := Done), toClient := n.toClient + [ServerResults(n.server.results)])
    case Connect => ApplyConnect(c, n)
    case ReadWelcome => ApplyReadWelcome(c, n)
    case Follow => n.(client := FollowServer(n.client, n.toClient[0]), toClient := n.toClient[1..])
    case WakeUp(role, shutdown) => WithSide(n, role, Wake(SideOf(n, role), shutdown))
    case WindUp(role) => WithSide(n, role, Finish(SideOf(n, role)))
    case TakeMessage(role) =>
      var s := HandleInternal(c.params, SideOf(n, role));
      if role.Server? then Announce(n, s) else n.(client := s, stopped := n.stopped || n.client.queue[0].Stop?)
    case ShutDown(role) =>
      var s := RequestState(SideOf(n, role), Terminate);
      if role.Server? then Announce(n, s) else n.(client := s, stopped := true)
    case Drain(role, id) => WithSide(n, role, DrainOne(SideOf(n, role), id))
    case DrainEnds(role) => ApplyDrainEnds(n, role)
    case TakeResults(role) => ApplyTakeResults(c, n, role)
    case Abort(role) => WithSide(n, role, SideOf(n, role).(pc := Aborted))
    case Admit(k) => SetConn(n, k, n.conns[k].(taken := true)).(gate := Checking(k))
    case TurnAway(k) => SetConn(n, k, n.conns[k].(taken := true, down := Append(n.conns[k].down, c.refusal)))
    case CheckCookie => ApplyCheckCookie(c, n)
    case Enqueue => n.(server := TrySend(n.server, CreateStream(n.gate.conn)), gate := Open)
    case GateFails => n.(server := TrySend(n.server, Stop), gate := Open)
    case Stray => n.(server := TrySend(n.server, Stop))
    case NewTestInstead(k) => SetConn(n, k, n.conns[k].(taken := true, up := Advance(n.conns[k].up, |c.hello|),
                                                        down := Append(n.conns[k].down, c.welcome)))
    case StartWorker(role, id, startTime, gap) => ApplyStartWorker(n, role, id, startTime, gap)
    case Measure(role, id, tick, ending) => ApplyMeasure(c, n, role, id, tick, ending)
    case WorkerDies(role, id) => WithSide(n, role, SetTask(SideOf(n, role), id, Failed))
  }

  /** `steps` can be taken one after the other from `n`; where they lead. */
  ghost predicate CanRun(c: Config, n: Net, steps: seq<Step>)
    decreases |steps|
  {
    steps == [] || (Enabled(c, n, steps[0]) && CanRun(c, Apply(c, n, steps[0]), steps[1..]))
  }

  ghost function After(c: Config, n: Net, steps: seq<Step>): Net
    requires CanRun(c, n, steps)
    decreases |steps|
  {
    if steps == [] then n else After(c, Apply(c, n, steps[0]), steps[1..])
  }

  ghost predicate Reachable(c: Config, n: Net) {
    exists steps :: CanRun(c, Init(), steps) && After(c, Init(), steps) == n
  }
}
