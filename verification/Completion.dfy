/** A healthy run cannot go on for ever and cannot get stuck, so it completes the exchange. */
module Completion {
  import opened Messages
  import opened Control
  import opened Framing
  import opened Protocol
  import opened Invariant
  import opened HistorySafety
  import opened ConnSafety
  import opened BytesSafety
  import opened Safety
  import opened Theorems
  import opened Progress
  import opened Ranking
  import opened Queues
  import W = Worker
  import WorkerLaws

  // ---- Every healthy step makes the rank smaller ----

  /** Steps that leave the data connections, the queues and the streams of both sides alone. */
  lemma ControlRank(c: Config, n: Net, m: Net)
    requires m.conns == n.conns && m.gate == n.gate
    requires m.server == n.server.(pc := m.server.pc, state := m.server.state, oldState := m.server.oldState,
                                   history := m.server.history, remote := m.server.remote,
                                   published := m.server.published)
    requires m.client == n.client.(pc := m.client.pc, state := m.client.state, oldState := m.client.oldState,
                                   history := m.client.history, remote := m.client.remote,
                                   published := m.client.published)
    requires PcRank(m.server.pc) + PcRank(m.client.pc) + ScriptRank(m)
             < PcRank(n.server.pc) + PcRank(n.client.pc) + ScriptRank(n)
    ensures Rank(c, m) < Rank(c, n)
  {
  }

  lemma ControlDecreases(c: Config, n: Net, step: Step)
    requires Enabled(c, n, step) && n.server.role.Server? && n.client.role.Client? && |n.script| <= 4
    requires PcFits(n.server) && PcFits(n.client)
    requires step.CommitState? || step.Reply? || step.WindUp? || step.DrainEnds? || step == TakeResults(Server)
    ensures Rank(c, Apply(c, n, step)) < Rank(c, n)
  {
    ControlRank(c, n, Apply(c, n, step));
  }

  lemma WakeUpDecreases(c: Config, n: Net, role: Role)
    requires Enabled(c, n, WakeUp(role, false)) && n.server.role.Server? && n.client.role.Client?
    ensures Rank(c, Apply(c, n, WakeUp(role, false))) < Rank(c, n)
  {
    ControlRank(c, n, Apply(c, n, WakeUp(role, false)));
  }

  lemma AnnounceStartDecreases(c: Config, n: Net)
    requires Enabled(c, n, AnnounceStart) && n.server.role.Server? && |n.script| == 1
    ensures Rank(c, Apply(c, n, AnnounceStart)) < Rank(c, n)
  {
    ControlRank(c, n, Apply(c, n, AnnounceStart));
  }

  lemma ReadingDecreases(c: Config, n: Net, step: Step)
    requires Enabled(c, n, step) && (step.Follow? || step == TakeResults(Client))
    requires n.server.role.Server? && n.client.role.Client?
    ensures Rank(c, Apply(c, n, step)) < Rank(c, n)
  {
    ControlRank(c, n, Apply(c, n, step));
  }

  lemma ConnectDecreases(c: Config, n: Net)
    requires Enabled(c, n, Connect) && |n.conns| == |n.client.streams|
    requires n.conns != [] ==> n.conns[|n.conns| - 1].taken
    ensures Rank(c, Apply(c, n, Connect)) < Rank(c, n)
  {
    OneFewer(c.Total() - |n.conns|, Cap(c) + 14);
  }

  lemma JoinDecreases(c: Config, n: Net, k: nat, conns: seq<Conn>)
    requires |n.client.streams| < c.Total() && n.client.pc.AwaitWelcome?
    requires |conns| == |n.conns| && forall j :: 0 <= j < |conns| ==> conns[j].taken == n.conns[j].taken
    ensures Rank(c, n.(client := Register(c.params, n.client, k).(pc := Top), conns := conns)) < Rank(c, n)
  {
    var s := Register(c.params, n.client, k);
    OneFewer(c.Total() - |n.client.streams|, Cap(c) + 10);
    StreamsRankAppend(c, n.client.streams, s.streams[|n.client.streams|]);
    assert |s.workers| <= |n.client.workers| + 1;
  }

  lemma WelcomedDecreases(c: Config, n: Net)
    requires Enabled(c, n, ReadWelcome) && |n.client.streams| < c.Total()
    requires ClientReads(c.codec, n.conns[n.client.pc.conn].down.Unread()).Message?
    ensures Rank(c, Apply(c, n, ReadWelcome)) < Rank(c, n)
  {
    JoinDecreases(c, n, n.client.pc.conn, Apply(c, n, ReadWelcome).conns);
  }

  lemma StillJoining(c: Config, n: Net)
    requires ConnsInv(c, n) && n.client.pc.AwaitWelcome?
    ensures |n.client.streams| < c.Total()
  {
  }

  lemma ReadWelcomeDecreases(c: Config, n: Net)
    requires ValidConfig(c) && Fine(c, n) && Enabled(c, n, ReadWelcome)
    ensures Rank(c, Apply(c, n, ReadWelcome)) < Rank(c, n)
  {
    WelcomeArrives(c, n);
    StillJoining(c, n);
    WelcomedDecreases(c, n);
  }

  lemma GateDecreases(c: Config, n: Net, step: Step)
    requires Enabled(c, n, step) && (step.Admit? || step.CheckCookie?)
    requires step.Admit? ==> step.conn == |n.conns| - 1
    ensures Rank(c, Apply(c, n, step)) < Rank(c, n)
  {
  }

  lemma EnqueueDecreases(c: Config, n: Net)
    requires n.gate.Welcoming?
    ensures Rank(c, n.(server := TrySend(n.server, CreateStream(n.gate.conn)), gate := Open)) < Rank(c, n)
  {
    QueueRankAppend(c, n.server.queue, CreateStream(n.gate.conn));
  }

  /** What a side's books still hold. */
  function BooksRank(c: Config, s: Side): nat {
    StreamsRank(c, s.streams) + QueueRank(c, s.queue) + |s.workers|
  }

  lemma AcceptBooks(c: Config, s: Side)
    requires s.queue != [] && s.queue[0].CreateStream?
    ensures BooksRank(c, Register(c.params, s.(queue := s.queue[1..]), s.queue[0].conn)) + 3 <= BooksRank(c, s)
  {
    var r := Register(c.params, s.(queue := s.queue[1..]), s.queue[0].conn);
    StreamsRankAppend(c, s.streams, r.streams[|s.streams|]);
    assert |r.workers| <= |s.workers| + 1;
  }

  lemma AcceptDecreases(c: Config, n: Net)
    requires n.server.role.Server? && Enabled(c, n, TakeMessage(Server)) && n.server.queue[0].CreateStream?
             && |n.script| < 4
    ensures Rank(c, Apply(c, n, TakeMessage(Server))) < Rank(c, n)
  {
    var m := Apply(c, n, TakeMessage(Server));
    AcceptBooks(c, n.server);
    MessageRankDrops(c, n, m);
  }

  /** The books lose three, and a state may be announced. */
  lemma MessageRankDrops(c: Config, n: Net, m: Net)
    requires m.client == n.client && m.conns == n.conns && m.gate == n.gate && |n.script| < 4 && n.server.pc.Select?
    requires BooksRank(c, m.server) + 3 <= BooksRank(c, n.server)
    requires (m.server.pc.Top? && m.script == n.script && m.toClient == n.toClient)
             || (m.server.pc.Announced? && |m.script| == |n.script| + 1 && |m.toClient| == |n.toClient| + 1)
    ensures Rank(c, m) < Rank(c, n)
  {
  }

  lemma EndedBooks(c: Config, s: Side, task: Task)
    requires s.queue != [] && s.queue[0].StreamTerminated?
    ensures BooksRank(c, Reap(s.(queue := s.queue[1..]), s.queue[0].id, task)) + 3 <= BooksRank(c, s)
  {
    SubsetSize(s.workers - {s.queue[0].id}, s.workers);
  }

  lemma EndedDecreases(c: Config, n: Net)
    requires n.server.role.Server? && Enabled(c, n, TakeMessage(Server)) && n.server.queue[0].StreamTerminated?
             && |n.script| < 4
    ensures Rank(c, Apply(c, n, TakeMessage(Server))) < Rank(c, n)
  {
    EndedBooks(c, n.server, TaskOf(n.server, n.server.queue[0].id));
    MessageRankDrops(c, n, Apply(c, n, TakeMessage(Server)));
  }

  lemma ClientRankDrops(c: Config, n: Net, s: Side, stopped: bool)
    requires BooksRank(c, s) + 3 <= BooksRank(c, n.client) && PcRank(s.pc) <= PcRank(n.client.pc) + 1
    requires |s.streams| == |n.client.streams|
    ensures Rank(c, n.(client := s, stopped := stopped)) < Rank(c, n)
  {
    assert OpeningRank(c, n.(client := s, stopped := stopped)) == OpeningRank(c, n);
  }

  lemma ClientEndedDecreases(c: Config, n: Net)
    requires n.client.role.Client? && Enabled(c, n, TakeMessage(Client)) && n.client.queue[0].StreamTerminated?
    ensures Rank(c, Apply(c, n, TakeMessage(Client))) < Rank(c, n)
  {
    EndedBooks(c, n.client, TaskOf(n.client, n.client.queue[0].id));
    ClientRankDrops(c, n, HandleInternal(c.params, n.client), n.stopped);
  }

  /** A worker's step makes its own task rank smaller, and its announcement costs less than that. */
  lemma SettledBooks(c: Config, s: Side, id: nat, task: Task)
    requires id < |s.streams|
    requires TaskRank(c, id, s.streams[id].(task := task)) + (if task.Returned? then 3 else 0)
             < TaskRank(c, id, s.streams[id])
    ensures BooksRank(c, Settled(s, id, task)) < BooksRank(c, s)
    ensures |Settled(s, id, task).streams| == |s.streams| && Settled(s, id, task).pc == s.pc
  {
    StreamsRankUpdate(c, s.streams, id, s.streams[id].(task := task));
    QueueRankAppend(c, s.queue, StreamTerminated(id));
  }

  /** Only one side's books change, and no connection is taken or opened. */
  lemma SideRankDrops(c: Config, n: Net, role: Role, s: Side, conns: seq<Conn>)
    requires BooksRank(c, s) < BooksRank(c, SideOf(n, role))
    requires |s.streams| == |SideOf(n, role).streams| && s.pc == SideOf(n, role).pc
    requires |conns| == |n.conns| && forall j :: 0 <= j < |conns| ==> conns[j].taken == n.conns[j].taken
    ensures Rank(c, WithSide(n.(conns := conns), role, s)) < Rank(c, n)
  {
    assert OpeningRank(c, WithSide(n.(conns := conns), role, s)) == OpeningRank(c, n);
  }

  lemma DrainBooks(c: Config, s: Side, id: nat)
    requires id in s.workers
    ensures BooksRank(c, DrainOne(s, id)) < BooksRank(c, s)
    ensures DrainOne(s, id).streams == s.streams && DrainOne(s, id).pc == s.pc
  {
    assert DrainOne(s, id).workers == s.workers - {id};
  }

  lemma DrainDecreases(c: Config, n: Net, id: nat)
    requires Enabled(c, n, Drain(Client, id))
    ensures Rank(c, Apply(c, n, Drain(Client, id))) < Rank(c, n)
  {
    DrainBooks(c, n.client, id);
    SideRankDrops(c, n, Client, DrainOne(n.client, id), n.conns);
    assert n.(conns := n.conns) == n;
  }

  lemma SettledDecreases(c: Config, n: Net, role: Role, id: nat, task: Task, conns: seq<Conn>)
    requires id < |SideOf(n, role).streams|
    requires var stream := SideOf(n, role).streams[id];
             TaskRank(c, id, stream.(task := task)) + (if task.Returned? then 3 else 0) < TaskRank(c, id, stream)
    requires |conns| == |n.conns| && forall j :: 0 <= j < |conns| ==> conns[j].taken == n.conns[j].taken
    ensures Rank(c, WithSide(n.(conns := conns), role, Settled(SideOf(n, role), id, task))) < Rank(c, n)
  {
    SettledBooks(c, SideOf(n, role), id, task);
    SideRankDrops(c, n, role, Settled(SideOf(n, role), id, task), conns);
  }

  lemma StartWorkerDecreases(c: Config, n: Net, role: Role, id: nat, startTime: nat, gap: nat)
    requires CanStart(SideOf(n, role), id)
    ensures Rank(c, ApplyStartWorker(n, role, id, startTime, gap)) < Rank(c, n)
  {
    var s := SideOf(n, role);
    NewMeterWithinCap(c, id, s.streams[id].isSending, startTime, gap);
    SettledDecreases(c, n, role, id, Started(s, id, startTime, gap), n.conns);
    assert n.(conns := n.conns) == n;
  }

  lemma LoadingAccounts(c: Config, s: Side, id: nat)
    requires SideInv(c, s) && id < |s.streams| && s.streams[id].task.Loading?
    ensures WorkerLaws.Accounts(EndpointOf(c, s, id), s.streams[id].task.meter)
  {
    assert TaskFits(c, s.role, s.oldState.Running?, |s.published|, id, s.streams[id]);
  }

  lemma MeasuredDecreases(c: Config, s: Side, id: nat, t: W.Tick, task: Task)
    requires id < |s.streams| && s.streams[id].task.Loading? && !task.Waiting?
    requires WorkerLaws.Accounts(EndpointOf(c, s, id), s.streams[id].task.meter)
    requires W.ValidTick(c.params, t) && Advances(c, t)
    requires task.Loading? ==> W.Iterate(EndpointOf(c, s, id), s.streams[id].task.meter, t) == W.Continue(task.meter)
    ensures TaskRank(c, id, s.streams[id].(task := task)) + (if task.Returned? then 3 else 0)
            < TaskRank(c, id, s.streams[id])
  {
    WorkerLaws.IterateBurnsFuel(EndpointOf(c, s, id), s.streams[id].task.meter, t);
  }

  lemma MeasureDecreases(c: Config, n: Net, role: Role, id: nat, t: W.Tick, e: W.Ending)
    requires Fine(c, n) && CanMeasure(c, n, role, id, t) && Healthy(c, n, Measure(role, id, t, e))
    ensures Rank(c, ApplyMeasure(c, n, role, id, t, e)) < Rank(c, n)
  {
    var task, conns := HealthyMeasure(c, n, role, id, t, e);
    LoadingAccounts(c, SideOf(n, role), id);
    MeasuredDecreases(c, SideOf(n, role), id, t, task);
    SettledDecreases(c, n, role, id, task, conns);
  }

  lemma WorkerDiesDecreases(c: Config, n: Net, role: Role, id: nat)
    requires Enabled(c, n, WorkerDies(role, id))
    ensures Rank(c, Apply(c, n, WorkerDies(role, id))) < Rank(c, n)
  {
    SettledDecreases(c, n, role, id, Failed, n.conns);
    assert n.(conns := n.conns) == n;
  }

  lemma WorkerStepDecreases(c: Config, n: Net, step: Step)
    requires Fine(c, n) && Enabled(c, n, step) && Healthy(c, n, step)
    requires step.ByWorker()
    ensures Rank(c, Apply(c, n, step)) < Rank(c, n)
  {
    match step
    case StartWorker(role, id, startTime, gap) => StartWorkerDecreases(c, n, role, id, startTime, gap);
    case Measure(role, id, t, e) => MeasureDecreases(c, n, role, id, t, e);
    case WorkerDies(role, id) => WorkerDiesDecreases(c, n, role, id);
  }

  /** The connection the accept loop takes is the one the client has just opened. */
  lemma AdmitDecreases(c: Config, n: Net, k: nat)
    requires ConnsInv(c, n) && Enabled(c, n, Admit(k))
    ensures Rank(c, Apply(c, n, Admit(k))) < Rank(c, n)
  {
    assert k == |n.conns| - 1;
    GateDecreases(c, n, Admit(k));
  }

  lemma AcceptLoopDecreases(c: Config, n: Net, step: Step)
    requires Fine(c, n) && Enabled(c, n, step) && Healthy(c, n, step) && step.ByAcceptLoop()
    ensures Rank(c, Apply(c, n, step)) < Rank(c, n)
  {
    match step
    case Admit(k) => AdmitDecreases(c, n, k);
    case CheckCookie => GateDecreases(c, n, CheckCookie);
    case Enqueue => EnqueueDecreases(c, n);
    case TurnAway(k) => NobodyTurnedAway(c, n, k);
    case NewTestInstead(k) => NobodyTurnedAway(c, n, k);
  }

  lemma FineConnectDecreases(c: Config, n: Net)
    requires ConnsInv(c, n) && Enabled(c, n, Connect)
    ensures Rank(c, Apply(c, n, Connect)) < Rank(c, n)
  {
    ConnectDecreases(c, n);
  }

  /** What a healthy run may have at the head of a queue. */
  lemma HeadFine(s: Side)
    requires QueueFits(s) && QueueFine(s.queue) && s.queue != []
    ensures s.queue[0].StreamTerminated? || (s.role.Server? && s.queue[0].CreateStream?)
    ensures s.queue[0].StreamTerminated? ==> TaskOf(s, s.queue[0].id).Returned?
  {
    assert s.queue[0] in s.queue;
  }

  lemma ScriptOpen(c: Config, n: Net)
    requires Fine(c, n) && n.server.pc.Select?
    ensures |n.script| < 4 && n.server.role.Server?
  {
    AnnouncedMeans(c, n);
    ChainShape(c, n.script);
  }

  lemma MessageDecreases(c: Config, n: Net, role: Role)
    requires Enabled(c, n, TakeMessage(role)) && n.server.role.Server? && n.client.role.Client?
    requires role.Server? ==> |n.script| < 4
    requires SideOf(n, role).queue[0].StreamTerminated? || (role.Server? && SideOf(n, role).queue[0].CreateStream?)
    ensures Rank(c, Apply(c, n, TakeMessage(role))) < Rank(c, n)
  {
    if role.Client? {
      ClientEndedDecreases(c, n);
    } else if n.server.queue[0].CreateStream? {
      AcceptDecreases(c, n);
    } else {
      EndedDecreases(c, n);
    }
  }

  lemma FineMessageDecreases(c: Config, n: Net, role: Role)
    requires Fine(c, n) && Enabled(c, n, TakeMessage(role))
    ensures Rank(c, Apply(c, n, TakeMessage(role))) < Rank(c, n)
  {
    HeadFine(SideOf(n, role));
    if role.Server? {
      ScriptOpen(c, n);
    }
    MessageDecreases(c, n, role);
  }

  /** What the steps of the controllers need of a run to bring it closer to its end. */
  predicate Handled(n: Net) {
    && n.server.role.Server? && n.client.role.Client? && |n.script| <= 4 && PcFits(n.server) && PcFits(n.client)
    && (n.server.pc.Top? && n.server.state.Start? ==> |n.script| == 1)
  }

  lemma ControllerFacts(c: Config, n: Net)
    requires HistoryInv(c, n) && PcFits(n.server) && PcFits(n.client)
    ensures Handled(n)
  {
    ChainShape(c, n.script);
  }

  lemma ControllerDecreases(c: Config, n: Net, step: Step)
    requires Enabled(c, n, step) && Healthy(c, n, step) && Handled(n)
    requires step.ByController() && !step.Connect? && !step.ReadWelcome? && !step.TakeMessage?
    requires step.Drain? ==> step.role.Client?
    ensures Rank(c, Apply(c, n, step)) < Rank(c, n)
  {
    match step
    case AnnounceStart => AnnounceStartDecreases(c, n);
    case Follow => ReadingDecreases(c, n, step);
    case TakeResults(Client) => ReadingDecreases(c, n, step);
    case Drain(_, id) => DrainDecreases(c, n, id);
    case WakeUp(role, _) => WakeUpDecreases(c, n, role);
    case _ => ControlDecreases(c, n, step);
  }

  lemma FineControllerDecreases(c: Config, n: Net, step: Step)
    requires Fine(c, n) && Enabled(c, n, step) && Healthy(c, n, step)
    requires step.ByController() && !step.Connect? && !step.ReadWelcome? && !step.TakeMessage?
    ensures Rank(c, Apply(c, n, step)) < Rank(c, n)
  {
    ControllerFacts(c, n);
    if step.Drain? {
      DrainStaysFine(c, n, step.role, step.id);
    }
    ControllerDecreases(c, n, step);
  }

  lemma StepDecreases(c: Config, n: Net, step: Step)
    requires ValidConfig(c) && Fine(c, n) && Enabled(c, n, step) && Healthy(c, n, step)
    ensures Rank(c, Apply(c, n, step)) < Rank(c, n)
  {
    if step.ByWorker() {
      WorkerStepDecreases(c, n, step);
    } else if step.TakeMessage? {
      FineMessageDecreases(c, n, step.role);
    } else if step.ByAcceptLoop() {
      AcceptLoopDecreases(c, n, step);
    } else if step.Connect? {
      FineConnectDecreases(c, n);
    } else if step.ReadWelcome? {
      ReadWelcomeDecreases(c, n);
    } else {
      FineControllerDecreases(c, n, step);
    }
  }

  // ---- Some healthy step can always be taken ----

  /** Both sides have completed the exchange. */
  predicate Complete(n: Net) {
    && n.server.pc.Done? && n.server.state.ExchangeResults? && n.server.remote.Some?
    && n.client.pc.Done? && n.client.state.ExchangeResults? && n.client.remote.Some?
  }

  ghost predicate Possible(c: Config, n: Net, step: Step) { Enabled(c, n, step) && Healthy(c, n, step) }

  /** The accept loop can always finish with the connection it has taken. */
  lemma CheckPossible(c: Config, n: Net)
    requires ValidConfig(c) && n.gate.Checking? && n.gate.conn < |n.conns| && n.server.state.CreateStreams?
    requires ConnFits(c, n.conns[n.gate.conn]) && n.conns[n.gate.conn].up.read == 0
    ensures Possible(c, n, CheckCookie)
  {
    HelloReads(c, n.conns[n.gate.conn]);
  }

  lemma GateFacts(c: Config, n: Net)
    requires Fine(c, n) && n.gate.Checking?
    ensures n.gate.conn < |n.conns| && n.server.state.CreateStreams?
    ensures ConnFits(c, n.conns[n.gate.conn]) && n.conns[n.gate.conn].up.read == 0
  {
  }

  lemma GateMoves(c: Config, n: Net) returns (step: Step)
    requires ValidConfig(c) && !n.gate.Open?
    requires n.gate.Checking? ==>
               && n.gate.conn < |n.conns| && n.server.state.CreateStreams?
               && ConnFits(c, n.conns[n.gate.conn]) && n.conns[n.gate.conn].up.read == 0
    ensures Possible(c, n, step)
  {
    if n.gate.Welcoming? {
      step := Enqueue;
    } else {
      step := CheckCookie;
      CheckPossible(c, n);
    }
  }

  /** A connection waiting for its welcome has it, or has not been taken by the accept loop. */
  lemma WelcomeWritten(c: Config, n: Net)
    requires Fine(c, n) && n.gate.Open? && n.client.pc.AwaitWelcome?
    ensures var k := n.client.pc.conn;
            && k < |n.conns| && n.conns[k].down.read == 0
            && (n.conns[k].taken ==> c.welcome <= n.conns[k].down.written)
            && (!n.conns[k].taken ==> n.server.Alive() && (n.server.pc.Announced? || n.server.state.CreateStreams?))
  {
    var k := n.client.pc.conn;
    AwaitedReply(c, n);
    if n.conns[k].taken {
      ArrivalWelcomed(c, n, k);
    } else {
      NobodyTurnedAway(c, n, k);
    }
  }

  lemma AwaitingMoves(c: Config, n: Net) returns (step: Step)
    requires ValidConfig(c) && n.gate.Open? && n.client.pc.AwaitWelcome? && !n.server.pc.Announced?
    requires var k := n.client.pc.conn;
             && k < |n.conns| && n.conns[k].down.read == 0
             && (n.conns[k].taken ==> c.welcome <= n.conns[k].down.written)
             && (!n.conns[k].taken ==> n.server.Alive() && n.server.state.CreateStreams?)
    ensures Possible(c, n, step)
  {
    var k := n.client.pc.conn;
    if n.conns[k].taken {
      step := ReadWelcome;
      WelcomeReads(c, n.conns[k]);
    } else {
      step := Admit(k);
    }
  }

  /** A tick on which the network stays silent for the whole timeout. */
  function SilentTick(s: Side, cursor: nat): W.Tick {
    W.Tick(0, SignalOf(s, cursor), W.TimedOut, W.IO_TIMEOUT, W.TcpSample(None, None), true)
  }

  const SILENT_END: W.Ending := W.Ending(0, W.TcpSample(None, None), true, 0, W.TcpSample(None, None))

  lemma WorkerStepPossible(c: Config, n: Net, id: nat) returns (step: Step)
    requires id < |n.server.streams| && n.server.streams[id].conn < |n.conns|
    requires n.server.streams[id].task.Waiting? ==> n.server.streams[id].task.cursor < |n.server.published|
    requires n.server.streams[id].task.Waiting? || n.server.streams[id].task.Loading?
    ensures Possible(c, n, step)
  {
    var task := n.server.streams[id].task;
    step := if task.Waiting? then StartWorker(Server, id, 0, 0)
        else Measure(Server, id, SilentTick(n.server, task.cursor), SILENT_END);
  }

  /** A server in Running with nothing in its queue has a worker that can go on. */
  lemma BusyWorker(c: Config, n: Net) returns (id: nat)
    requires Fine(c, n) && n.server.pc.Select? && n.server.state.Running? && n.server.queue == []
    ensures id < |n.server.streams| && n.server.streams[id].conn < |n.conns|
    ensures n.server.streams[id].task.Waiting? ==> n.server.streams[id].task.cursor < |n.server.published|
    ensures n.server.streams[id].task.Waiting? || n.server.streams[id].task.Loading?
  {
    AnnouncedMeans(c, n);
    NumberingAgrees(c, n);
    id :| id in n.server.workers;
    assert id < |n.server.streams|;
  }

  /** What a fine state says of one side alone. */
  ghost predicate SideReady(s: Side, role: Role) {
    && s.role == role && PcFits(s) && QueueFits(s) && QueueFine(s.queue) && !s.pc.Aborted?
    && (s.pc.Draining? && role.Server? ==> s.workers == {})
  }

  lemma SideFacts(c: Config, n: Net, role: Role)
    requires Fine(c, n)
    ensures SideReady(SideOf(n, role), role)
  {
    if n.server.pc.Draining? {
      NothingToDrain(c, n);
    }
  }

  /** The server can go on by itself unless it waits for a message or for the client's results, or is done. */
  lemma ServerMoves(c: Config, n: Net) returns (step: Step)
    requires SideReady(n.server, Server) && n.gate.Open?
    requires !(n.server.pc.Select? && n.server.queue == []) && !(n.server.pc.AwaitResults? && n.toServer == [])
             && !n.server.pc.Done?
    ensures Possible(c, n, step)
  {
    match n.server.pc
    case Announced(_) => step := CommitState;
    case Top =>
      step := match n.server.state
        case Start => AnnounceStart
        case CreateStreams(_) => WakeUp(Server, false)
        case Running => WakeUp(Server, false)
        case _ => WindUp(Server);
    case Select =>
      step := TakeMessage(Server);
      HeadFine(n.server);
    case Draining => step := DrainEnds(Server);
    case AwaitResults => step := TakeResults(Server);
    case Replying => step := Reply;
    case AwaitWelcome(_) =>
    case Aborted =>
    case Done =>
  }

  /** So can the client. */
  lemma ClientMoves(c: Config, n: Net) returns (step: Step)
    requires SideReady(n.client, Client)
    requires !(n.client.pc.Select? && n.client.queue == [] && n.toClient == []) && !n.client.pc.AwaitWelcome?
    requires !(n.client.pc.AwaitResults? && n.toClient == []) && !n.client.pc.Done?
    ensures Possible(c, n, step)
  {
    match n.client.pc
    case Top =>
      step := match n.client.state
        case Start => WakeUp(Client, false)
        case CreateStreams(_) => if |n.client.streams| < c.Total() then Connect else WakeUp(Client, false)
        case Running => WakeUp(Client, false)
        case _ => WindUp(Client);
    case Select =>
      if n.client.queue != [] {
        step := TakeMessage(Client);
        HeadFine(n.client);
      } else {
        step := Follow;
      }
    case Draining =>
      if n.client.workers == {} {
        step := DrainEnds(Client);
      } else {
        var id :| id in n.client.workers;
        step := Drain(Client, id);
      }
    case AwaitResults => step := TakeResults(Client);
    case AwaitWelcome(_) =>
    case Announced(_) =>
    case Replying =>
    case Aborted =>
    case Done =>
  }

  /** A client with nothing to read has followed the server all the way. */
  lemma IdleClient(c: Config, n: Net)
    requires HistoryInv(c, n) && PcFits(n.client) && !n.stopped && n.client.pc.Select? && n.toClient == []
    ensures n.script == n.client.history && n.client.state == n.script[|n.script| - 1] && |n.script| < 4
  {
    assert |SetStates(n.script[|n.client.history|..])| == |n.script| - |n.client.history|;
    ChainShape(c, n.script);
  }

  /** When every stream has been opened and nothing is on its way, the server has them all. */
  lemma AllOpened(c: Config, n: Net)
    requires Fine(c, n) && n.client.pc.Select? && n.client.state.CreateStreams? && n.gate.Open? && n.server.queue == []
    ensures Ran(n)
  {
    forall k: nat | k < c.Total() ensures k in Arrivals(n) {
      assert n.client.streams[k].conn == k && n.conns[k].taken;
    }
    assert Arrivals(n) == StreamConns(n.server.streams);
    ManyElements(Arrivals(n), c.Total());
    ArrivalsFit(c, n);
  }

  /** A client that waits for a message, with none there, waits for the server's workers. */
  lemma IdleClientWaits(c: Config, n: Net)
    requires Fine(c, n) && n.gate.Open? && n.client.pc.Select? && n.toClient == []
    requires (n.server.pc.Select? && n.server.queue == []) || n.server.pc.AwaitResults? || n.server.pc.Done?
    ensures n.server.pc.Select? && n.server.state.Running?
  {
    IdleClient(c, n);
    if !n.server.pc.Select? {
      NothingToDrain(c, n);
    } else {
      AnnouncedMeans(c, n);
      if n.client.state.CreateStreams? {
        AllOpened(c, n);
      }
    }
  }

  /** A client that is done has exchanged its results, and so has the server. */
  lemma DoneMeansComplete(c: Config, n: Net)
    requires Fine(c, n) && n.client.pc.Done?
    ensures Complete(n)
  {
    assert n.client.state.Terminate? ==> Terminate in n.client.history;
  }

  /** Neither side can go on by itself: then a worker of the server can, or all is done. */
  lemma WaitingMoves(c: Config, n: Net) returns (step: Step)
    requires ValidConfig(c) && Fine(c, n) && n.gate.Open? && !Complete(n)
    requires (n.server.pc.Select? && n.server.queue == [])
             || (n.server.pc.AwaitResults? && n.toServer == []) || n.server.pc.Done?
    requires (n.client.pc.Select? && n.client.queue == [] && n.toClient == [])
             || (n.client.pc.AwaitResults? && n.toClient == []) || n.client.pc.Done?
    ensures Possible(c, n, step)
  {
    if n.client.pc.Done? {
      DoneMeansComplete(c, n);
    } else if n.client.pc.AwaitResults? {
      AwaitingClient(c, n);
      if n.server.pc.Select? {
        AnnouncedMeans(c, n);
      }
    } else {
      IdleClientWaits(c, n);
      var id := BusyWorker(c, n);
      step := WorkerStepPossible(c, n, id);
    }
  }

  /** As long as the exchange is not complete, a healthy run can go on. */
  lemma SomeStepPossible(c: Config, n: Net) returns (step: Step)
    requires ValidConfig(c) && Fine(c, n) && !Complete(n)
    ensures Possible(c, n, step)
  {
    SideFacts(c, n, Server);
    SideFacts(c, n, Client);
    if !n.gate.Open? {
      if n.gate.Checking? {
        GateFacts(c, n);
      }
      step := GateMoves(c, n);
    } else if !(n.server.pc.Select? && n.server.queue == []) && !(n.server.pc.AwaitResults? && n.toServer == [])
              && !n.server.pc.Done? {
      step := ServerMoves(c, n);
    } else if n.client.pc.AwaitWelcome? {
      WelcomeWritten(c, n);
      step := AwaitingMoves(c, n);
    } else if !(n.client.pc.Select? && n.client.queue == [] && n.toClient == [])
              && !(n.client.pc.AwaitResults? && n.toClient == []) && !n.client.pc.Done? {
      step := ClientMoves(c, n);
    } else {
      step := WaitingMoves(c, n);
    }
  }

  // ---- The whole run ----

  ghost predicate HealthyRun(c: Config, n: Net, steps: seq<Step>)
    decreases |steps|
  {
    steps == [] || (Possible(c, n, steps[0]) && HealthyRun(c, Apply(c, n, steps[0]), steps[1..]))
  }

  /** A healthy run can go no further. */
  ghost predicate Stuck(c: Config, n: Net) {
    forall step :: !Possible(c, n, step)
  }

  /** Each side holds the other's results, and the server has one for every stream. */
  ghost predicate CompletedTest(c: Config, n: Net) {
    && Complete(n)
    && n.server.remote == Some(AsPeer(n.client.results)) && n.client.remote == Some(AsPeer(n.server.results))
    && n.server.results.Keys == Ids(c.Total())
  }

  lemma {:induction false} HealthyRunEnds(c: Config, n: Net, steps: seq<Step>)
    requires ValidConfig(c) && Fine(c, n) && HealthyRun(c, n, steps)
    ensures CanRun(c, n, steps) && Fine(c, After(c, n, steps))
    ensures |steps| + Rank(c, After(c, n, steps)) <= Rank(c, n)
    decreases |steps|
  {
    if steps != [] {
      StepStaysFine(c, n, steps[0]);
      StepDecreases(c, n, steps[0]);
      HealthyRunEnds(c, Apply(c, n, steps[0]), steps[1..]);
    }
  }

  /**
   * A healthy run of a test with at most as many streams as the queue has places takes a bounded
   * number of steps, whatever it does, and can stop only where both sides have completed the
   * exchange: then each holds the other's results, and every stream has its summary on the server.
   */
  lemma HealthyRunsComplete(c: Config, steps: seq<Step>)
    requires ValidConfig(c) && c.Total() <= INTERNAL_PORT_BUFFER && HealthyRun(c, Init(), steps)
    ensures |steps| <= Rank(c, Init()) && CanRun(c, Init(), steps)
    ensures var n := After(c, Init(), steps);
            Stuck(c, n) ==> CompletedTest(c, n)
  {
    InitFine(c);
    HealthyRunEnds(c, Init(), steps);
    StuckMeansComplete(c, After(c, Init(), steps));
  }

  lemma StuckMeansComplete(c: Config, n: Net)
    requires ValidConfig(c) && Fine(c, n)
    ensures Stuck(c, n) ==> CompletedTest(c, n)
  {
    if !Complete(n) {
      var step := SomeStepPossible(c, n);
    } else {
      CompleteHolds(c, n);
    }
  }

  lemma CompleteHolds(c: Config, n: Net)
    requires Fine(c, n) && Complete(n)
    ensures CompletedTest(c, n)
  {
    NothingToDrain(c, n);
    RunningMeansRan(c, n);
    ExchangingIsComplete(c, n);
  }

  /** In a healthy run no message for a controller is ever refused. */
  lemma NothingRefused(c: Config, n: Net)
    requires ValidConfig(c) && Fine(c, n)
    ensures n.gate.Welcoming? ==> |n.server.queue| < INTERNAL_PORT_BUFFER
    ensures forall role, id :: 0 <= id < |SideOf(n, role).streams| && SideOf(n, role).streams[id].task.Loading? ==>
              |SideOf(n, role).queue| < INTERNAL_PORT_BUFFER
  {
    if n.gate.Welcoming? {
      RoomForStream(c, n);
    }
    forall role, id | 0 <= id < |SideOf(n, role).streams| && SideOf(n, role).streams[id].task.Loading?
      ensures |SideOf(n, role).queue| < INTERNAL_PORT_BUFFER
    {
      RoomForAnnouncement(c, n, role, id);
    }
  }

  /** So at every point of a healthy run the queue has room for whatever is sent next. */
  lemma HealthyRunsRefuseNothing(c: Config, steps: seq<Step>)
    requires ValidConfig(c) && c.Total() <= INTERNAL_PORT_BUFFER && HealthyRun(c, Init(), steps)
    ensures CanRun(c, Init(), steps)
    ensures var n := After(c, Init(), steps);
            && (n.gate.Welcoming? ==> |n.server.queue| < INTERNAL_PORT_BUFFER)
            && (forall role, id :: 0 <= id < |SideOf(n, role).streams| && SideOf(n, role).streams[id].task.Loading? ==>
                  |SideOf(n, role).queue| < INTERNAL_PORT_BUFFER)
  {
    InitFine(c);
    HealthyRunEnds(c, Init(), steps);
    NothingRefused(c, After(c, Init(), steps));
  }
}
