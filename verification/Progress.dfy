/**
 * Progress of a healthy run: one without shutdowns, strangers, lost control connections or failing
 * server workers, in which the server commits a state before the accept loop looks at it.
 */
module Progress {
  import opened Messages
  import opened Control
  import opened Framing
  import opened Protocol
  import opened Invariant
  import opened HistorySafety
  import opened ConnSafety
  import opened BytesSafety
  import opened Safety
  import opened Theorems
  import W = Worker
  import opened Queues

  /** Without a byte limit only the clock ends a worker's loop, so it has to move. */
  predicate Advances(c: Config, t: W.Tick) { c.params.maxLength.Some? || t.wait + t.took > 0 }

  /** Stream `id` is not the last that the load can be started on. */
  predicate Spared(s: Side, id: nat)
    requires id < |s.streams|
  {
    s.published != [] || HasReceiver(SetTask(s, id, Failed).streams)
  }

  predicate Healthy(c: Config, n: Net, step: Step) {
    match step
    case ShutDown(_) => false
    case Stray => false
    case GateFails => false
    case Abort(_) => false
    case WakeUp(_, shutdown) => !shutdown
    case Admit(_) => !n.server.pc.Announced?
    case TurnAway(_) => !n.server.pc.Announced?
    case WorkerDies(role, id) => role.Client? && id < |n.client.streams| && Spared(n.client, id)
    case Measure(role, _, t, e) => Advances(c, t) && (role.Server? ==> !t.io.Broken? && t.accepted && e.accepted)
    case _ => true
  }

  predicate QueueFine(queue: seq<ControllerMessage>) { NoRepeats(queue) && Stop !in queue }

  ghost predicate Undisturbed(n: Net) {
    && Terminate !in n.script && !n.stopped && !n.server.pc.Aborted? && !n.client.pc.Aborted?
    && QueueFine(n.server.queue) && QueueFine(n.client.queue)
  }

  /** Every connection the accept loop has taken is on its way to a stream, or is one. */
  ghost predicate NothingDropped(n: Net) {
    forall k :: 0 <= k < |n.conns| && n.conns[k].taken ==> k in Arrivals(n)
  }

  /** Every returned worker the server still holds has announced itself. */
  ghost predicate AllAnnounced(s: Side) {
    forall id :: 0 <= id < |s.streams| ==>
      && !s.streams[id].task.Failed?
      && (s.streams[id].task.Returned? && id in s.workers ==> StreamTerminated(id) in s.queue)
  }

  /** The part of Fine that is not the invariant of every run. */
  ghost predicate StillFine(n: Net) {
    && Undisturbed(n) && NothingDropped(n) && AllAnnounced(n.server)
    && (Ran(n) && !Exchanging(n) ==> n.server.workers != {})
  }

  /** As long as the load has not started, a side that has streams has one to start it on. */
  predicate Startable(s: Side) {
    s.published == [] && s.streams != [] ==> HasReceiver(s.streams)
  }

  ghost predicate Fine(c: Config, n: Net) {
    Inv(c, n) && c.Total() <= INTERNAL_PORT_BUFFER && StillFine(n) && Startable(n.client)
  }

  // ---- No message is ever refused ----

  lemma {:induction false} OnlyStreams(queue: seq<ControllerMessage>)
    requires forall m :: m in queue ==> m.CreateStream?
    ensures |QueueConns(queue)| == |queue|
  {
    if queue != [] {
      assert forall m :: m in queue[1..] ==> m in queue;
      OnlyStreams(queue[1..]);
    }
  }

  /** Nothing of a server that has not announced Running has returned. */
  lemma NothingReturned(c: Config, n: Net)
    requires Inv(c, n) && !Ran(n)
    ensures forall m :: m in n.server.queue ==> !m.StreamTerminated?
  {
  }

  lemma RoomForStream(c: Config, n: Net)
    requires Fine(c, n) && n.gate.Welcoming?
    ensures |n.server.queue| < INTERNAL_PORT_BUFFER && CreateStream(n.gate.conn) !in n.server.queue
  {
    if Ran(n) {
      NumberingAgrees(c, n);
    } else {
      NothingReturned(c, n);
      OnlyStreams(n.server.queue);
      ArrivalsFit(c, n);
      var k, front := n.gate.conn, |n.server.streams|;
      assert Arrivals(n)[|Arrivals(n)| - 1] == k;
      forall i | 0 <= i < |QueueConns(n.server.queue)| ensures QueueConns(n.server.queue)[i] != k {
        assert Arrivals(n)[front + i] == QueueConns(n.server.queue)[i];
      }
      QueueConnsMember(n.server.queue, k);
    }
  }

  /** Once a side has all its streams, its queue holds nothing but announcements. */
  lemma OnlyAnnouncements(c: Config, n: Net, role: Role)
    requires Wired(c, n) && SideInv(c, SideOf(n, role)) && n.client.role.Client? && Undisturbed(n)
    requires |SideOf(n, role).streams| == c.Total()
    ensures forall m :: m in SideOf(n, role).queue ==> m.StreamTerminated?
  {
    var s := SideOf(n, role);
    if role.Server? {
      NumberingAgrees(c, n);
    }
    forall m | m in s.queue ensures m.StreamTerminated? {
      if m.CreateStream? {
        QueueConnsMember(s.queue, m.conn);
      }
    }
  }

  lemma RoomForAnnouncement(c: Config, n: Net, role: Role, id: nat)
    requires Fine(c, n) && id < |SideOf(n, role).streams| && SideOf(n, role).streams[id].task.Loading?
    ensures var s := SideOf(n, role); |s.queue| < INTERNAL_PORT_BUFFER && StreamTerminated(id) !in s.queue
  {
    var s := SideOf(n, role);
    assert |s.streams| == c.Total();
    OnlyAnnouncements(c, n, role);
    FewAnnouncements(s.queue, c.Total(), id);
  }

  // ---- A healthy step keeps a run fine ----

  /** Steps that leave the queues, the streams, the accept loop and the connections alone. */
  lemma QuietStaysFine(n: Net, m: Net)
    requires StillFine(n)
    requires m.server.queue == n.server.queue && m.client.queue == n.client.queue
    requires m.server.streams == n.server.streams && m.gate == n.gate && m.stopped == n.stopped
    requires forall k :: 0 <= k < |m.conns| && m.conns[k].taken ==> k < |n.conns| && n.conns[k].taken
    requires n.script <= m.script && Terminate !in m.script && (Ran(m) ==> Ran(n)) && (Exchanging(n) ==> Exchanging(m))
    requires m.server.workers == n.server.workers && !m.server.pc.Aborted? && !m.client.pc.Aborted?
    ensures StillFine(m)
  {
    assert Arrivals(m) == Arrivals(n);
  }

  lemma AnnounceStartStaysFine(c: Config, n: Net)
    requires StillFine(n) && HistoryInv(c, n) && Enabled(c, n, AnnounceStart)
    ensures StillFine(Apply(c, n, AnnounceStart))
  {
    ChainShape(c, n.script);
    QuietStaysFine(n, Apply(c, n, AnnounceStart));
  }

  lemma ConnectStaysFine(c: Config, n: Net)
    requires StillFine(n) && Enabled(c, n, Connect)
    ensures StillFine(Apply(c, n, Connect))
  {
    QuietStaysFine(n, Apply(c, n, Connect));
  }

  /** The reply the client reads is a welcome: its connection is on its way to a stream. */
  lemma WelcomeArrives(c: Config, n: Net)
    requires ValidConfig(c) && Fine(c, n) && Enabled(c, n, ReadWelcome)
    ensures var r := ClientReads(c.codec, n.conns[n.client.pc.conn].down.Unread()); r == Message(Welcome, |c.welcome|)
    ensures n.conns[n.client.pc.conn].taken
  {
    var k := n.client.pc.conn;
    AwaitedReply(c, n);
    ReplyReads(c, n.conns[k]);
    ArrivalWelcomed(c, n, k);
    WelcomeReads(c, n.conns[k]);
  }

  lemma AwaitedReply(c: Config, n: Net)
    requires Fine(c, n) && n.client.pc.AwaitWelcome?
    ensures var k := n.client.pc.conn;
            && k < |n.conns| && ConnFits(c, n.conns[k]) && n.conns[k].down.read == 0
            && (n.conns[k].taken ==> k in Arrivals(n))
            && (n.gate == Checking(k) || !n.conns[k].taken ==> n.conns[k].down.written == [])
  {
    assert ConnFits(c, n.conns[n.client.pc.conn]);
  }

  /** A connection that has been let in has its welcome, unless the accept loop is about to write it. */
  lemma ArrivalWelcomed(c: Config, n: Net, k: nat)
    requires BytesInv(c, n) && k in Arrivals(n)
    ensures k < |n.conns| && (n.gate == Checking(k) || c.welcome <= n.conns[k].down.written)
  {
    if k in StreamConns(n.server.streams) {
      var j :| 0 <= j < |n.server.streams| && StreamConns(n.server.streams)[j] == k;
      assert ServerEnd(c, n.server.streams[j], n.conns[k]);
    }
  }

  lemma ReadWelcomeStaysFine(c: Config, n: Net)
    requires ValidConfig(c) && Fine(c, n) && Enabled(c, n, ReadWelcome)
    ensures StillFine(Apply(c, n, ReadWelcome))
  {
    WelcomeArrives(c, n);
    WelcomedFine(c, n);
  }

  lemma WelcomedFine(c: Config, n: Net)
    requires StillFine(n) && Enabled(c, n, ReadWelcome) && n.conns[n.client.pc.conn].taken
    requires ClientReads(c.codec, n.conns[n.client.pc.conn].down.Unread()).Message?
    ensures StillFine(Apply(c, n, ReadWelcome))
  {
    QuietStaysFine(n, Apply(c, n, ReadWelcome));
  }

  /** Steps of the controllers that leave queues and streams alone. */
  lemma ControlStaysFine(c: Config, n: Net, step: Step)
    requires StillFine(n) && Enabled(c, n, step)
    requires step.CommitState? || step.Reply?
    ensures StillFine(Apply(c, n, step))
  {
    QuietStaysFine(n, Apply(c, n, step));
  }

  /** A side that wakes up to start the load has somebody to start it on. */
  lemma WakeSucceeds(c: Config, n: Net, role: Role)
    requires ValidConfig(c) && Fine(c, n) && SideOf(n, role).pc.Top?
    ensures var s := SideOf(n, role); s.state.Running? && !s.oldState.Running? ==> HasReceiver(s.streams)
  {
    var s := SideOf(n, role);
    if s.state.Running? && !s.oldState.Running? {
      AboutToLoad(c, n, role);
      if role.Server? {
        assert !s.streams[0].task.Over();
      }
    }
  }

  lemma WokenFine(c: Config, n: Net, role: Role)
    requires StillFine(n) && Enabled(c, n, WakeUp(role, false)) && !Wake(SideOf(n, role), false).pc.Aborted?
    ensures StillFine(Apply(c, n, WakeUp(role, false)))
  {
    QuietStaysFine(n, Apply(c, n, WakeUp(role, false)));
  }

  lemma WakeUpStaysFine(c: Config, n: Net, role: Role)
    requires ValidConfig(c) && Fine(c, n) && Enabled(c, n, WakeUp(role, false))
    ensures StillFine(Apply(c, n, WakeUp(role, false)))
  {
    WakeSucceeds(c, n, role);
    WokenFine(c, n, role);
  }

  lemma EndingStaysFine(c: Config, n: Net, step: Step)
    requires StillFine(n) && Enabled(c, n, step)
    requires step.WindUp? || step.DrainEnds? || (step.Drain? && step.role.Client?)
    ensures StillFine(Apply(c, n, step))
  {
    QuietStaysFine(n, Apply(c, n, step));
  }

  lemma FollowStaysFine(c: Config, n: Net)
    requires StillFine(n) && HistoryInv(c, n) && PcFits(n.client) && ExchangeInv(n) && Enabled(c, n, Follow)
    ensures StillFine(Apply(c, n, Follow))
  {
    FollowsNext(c, n);
    QuietStaysFine(n, Apply(c, n, Follow));
  }

  lemma TakeResultsStaysFine(c: Config, n: Net, role: Role)
    requires Fine(c, n) && Enabled(c, n, TakeResults(role))
    ensures StillFine(Apply(c, n, TakeResults(role)))
  {
    if role.Client? {
      TakeReplyKeepsHistory(c, n);
    }
    TakenFine(c, n, role);
  }

  lemma TakenFine(c: Config, n: Net, role: Role)
    requires StillFine(n) && ExchangeInv(n) && Enabled(c, n, TakeResults(role))
    requires role.Client? ==> n.toClient[0].ServerResults?
    ensures StillFine(Apply(c, n, TakeResults(role)))
  {
    QuietStaysFine(n, Apply(c, n, TakeResults(role)));
  }

  /** A server that is past Running has every result, so it has nothing to drain and no worker at work. */
  lemma NothingToDrain(c: Config, n: Net)
    requires Fine(c, n) && (Late(n.server.pc) || Exchanging(n))
    ensures Exchanging(n) && n.server.workers == {}
    ensures forall id :: 0 <= id < |n.server.streams| ==> n.server.streams[id].task.Returned?
  {
    ChainShape(c, n.script);
    PrefixShape(c, n.script, n.server.history);
    ChainShape(c, n.server.history);
    forall id | 0 <= id < |n.server.streams| ensures n.server.streams[id].task.Returned? {
      assert id in n.server.results;
    }
  }

  lemma DrainStaysFine(c: Config, n: Net, role: Role, id: nat)
    requires Fine(c, n) && Enabled(c, n, Drain(role, id))
    ensures role.Client? && StillFine(Apply(c, n, Drain(role, id)))
  {
    if role.Server? {
      NothingToDrain(c, n);
    } else {
      EndingStaysFine(c, n, Drain(role, id));
    }
  }

  lemma TailFine(queue: seq<ControllerMessage>)
    requires QueueFine(queue) && queue != []
    ensures QueueFine(queue[1..]) && queue[0] !in queue[1..]
    ensures forall m :: m in queue <==> m == queue[0] || m in queue[1..]
  {
    assert queue == [queue[0]] + queue[1..];
  }

  /** Taking the head of the server's queue, whatever it is, drops no connection. */
  lemma HeadTaken(n: Net, m: Net)
    requires NothingDropped(n) && n.server.queue != [] && m.server.queue == n.server.queue[1..]
    requires m.conns == n.conns && m.gate == n.gate
    requires StreamConns(m.server.streams) == StreamConns(n.server.streams)
               + (if n.server.queue[0].CreateStream? then [n.server.queue[0].conn] else [])
    ensures NothingDropped(m)
  {
    assert Arrivals(m) == Arrivals(n);
  }

  /** What a message to the server has to leave in order. */
  ghost predicate LeftHealthy(m: Net) {
    && AllAnnounced(m.server) && !m.server.pc.Aborted? && Terminate !in m.script
    && (m.server.workers == {} ==> Exchanging(m))
  }

  lemma HandledFine(n: Net, m: Net)
    requires StillFine(n) && LeftHealthy(m)
    requires n.server.queue != [] && m.server.queue == n.server.queue[1..]
    requires m.conns == n.conns && m.gate == n.gate && m.client == n.client && m.stopped == n.stopped
    requires StreamConns(m.server.streams) == StreamConns(n.server.streams)
               + (if n.server.queue[0].CreateStream? then [n.server.queue[0].conn] else [])
    ensures StillFine(m)
  {
    TailFine(n.server.queue);
    HeadTaken(n, m);
  }

  lemma AcceptStaysFine(c: Config, n: Net)
    requires StillFine(n) && n.server.role.Server?
    requires Enabled(c, n, TakeMessage(Server)) && n.server.queue[0].CreateStream?
    requires LeftHealthy(Apply(c, n, TakeMessage(Server)))
    ensures StillFine(Apply(c, n, TakeMessage(Server)))
  {
    AcceptShape(c, n);
    HandledFine(n, Apply(c, n, TakeMessage(Server)));
  }

  lemma EndedStaysFine(c: Config, n: Net)
    requires n.server.queue != [] && n.server.queue[0].StreamTerminated? && Enabled(c, n, TakeMessage(Server))
             && StillFine(n)
    requires LeftHealthy(Apply(c, n, TakeMessage(Server)))
    ensures StillFine(Apply(c, n, TakeMessage(Server)))
  {
    EndedResult(c, n);
    HandledFine(n, Apply(c, n, TakeMessage(Server)));
  }

  /** While no stream has ended, accepting one more leaves a server that holds a waiting worker. */
  lemma AcceptedHealthy(c: Config, n: Net)
    requires n.server.queue != [] && n.server.queue[0].CreateStream? && Enabled(c, n, TakeMessage(Server))
             && StillFine(n) && n.server.role.Server?
    requires forall id :: 0 <= id < |n.server.streams| ==> !n.server.streams[id].task.Returned?
    ensures LeftHealthy(Apply(c, n, TakeMessage(Server)))
  {
    AcceptShape(c, n);
    assert |n.server.streams| in Apply(c, n, TakeMessage(Server)).server.workers;
  }

  lemma AcceptLeavesHealthy(c: Config, n: Net)
    requires n.server.queue != [] && n.server.queue[0].CreateStream? && Enabled(c, n, TakeMessage(Server)) && Fine(c, n)
    ensures LeftHealthy(Apply(c, n, TakeMessage(Server)))
  {
    if Ran(n) {
      QueuedInTime(c, n);
    }
    NoneReturned(c, n);
    AcceptedHealthy(c, n);
  }

  lemma NoneReturned(c: Config, n: Net)
    requires Inv(c, n) && !Ran(n)
    ensures forall id :: 0 <= id < |n.server.streams| ==> !n.server.streams[id].task.Returned?
  {
  }

  /** The server reaps one stream; with the last it moves on. */
  lemma EndedHealthy(c: Config, n: Net)
    requires n.server.queue != [] && n.server.queue[0].StreamTerminated? && Enabled(c, n, TakeMessage(Server))
             && StillFine(n) && n.server.role.Server?
    requires n.server.queue[0].id < |n.server.streams| && n.server.streams[n.server.queue[0].id].task.Returned?
    requires |n.script| == 3 && !n.server.pc.Aborted?
    ensures LeftHealthy(Apply(c, n, TakeMessage(Server)))
  {
    var m, id := Apply(c, n, TakeMessage(Server)), n.server.queue[0].id;
    TailFine(n.server.queue);
    assert m.server.queue == n.server.queue[1..] && m.server.workers == n.server.workers - {id};
    assert m.server.streams == n.server.streams;
  }

  lemma EndedLeavesHealthy(c: Config, n: Net)
    requires n.server.queue != [] && n.server.queue[0].StreamTerminated? && Enabled(c, n, TakeMessage(Server))
             && Fine(c, n)
    ensures LeftHealthy(Apply(c, n, TakeMessage(Server)))
  {
    assert n.server.queue[0] in n.server.queue;
    AnnouncedMeans(c, n);
    assert n.server.streams[n.server.queue[0].id].task.Returned?;
    EndedHealthy(c, n);
  }

  lemma ClientHandled(n: Net, s: Side)
    requires StillFine(n) && n.client.queue != [] && s.queue == n.client.queue[1..] && !s.pc.Aborted?
    ensures StillFine(n.(client := s))
  {
    TailFine(n.client.queue);
    assert Arrivals(n.(client := s)) == Arrivals(n);
  }

  lemma ClientMessageStaysFine(c: Config, n: Net)
    requires Fine(c, n) && Enabled(c, n, TakeMessage(Client))
    ensures StillFine(Apply(c, n, TakeMessage(Client)))
  {
    assert n.client.queue[0] in n.client.queue;
    ClientHandled(n, HandleInternal(c.params, n.client));
  }

  /** The accept loop takes a connection in hand, or answers on the one it has. */
  lemma AdmittedFine(n: Net, k: nat, conns: seq<Conn>)
    requires StillFine(n) && n.gate.Open? && k < |n.conns| == |conns|
    requires forall j :: 0 <= j < |conns| && j != k ==> conns[j].taken == n.conns[j].taken
    ensures StillFine(n.(conns := conns, gate := Checking(k)))
  {
    assert Arrivals(n.(conns := conns, gate := Checking(k))) == Arrivals(n) + [k];
  }

  lemma CheckedFine(n: Net, conns: seq<Conn>)
    requires StillFine(n) && n.gate.Checking? && |n.conns| == |conns|
    requires forall j :: 0 <= j < |conns| ==> conns[j].taken == n.conns[j].taken
    ensures StillFine(n.(conns := conns, gate := Welcoming(n.gate.conn)))
  {
    assert Arrivals(n.(conns := conns, gate := Welcoming(n.gate.conn))) == Arrivals(n);
  }

  lemma AdmitStaysFine(c: Config, n: Net, k: nat)
    requires Fine(c, n) && Enabled(c, n, Admit(k))
    ensures StillFine(Apply(c, n, Admit(k)))
  {
    AdmittedFine(n, k, Apply(c, n, Admit(k)).conns);
  }

  /** The test's own client presents the test's cookie. */
  lemma CookieMatches(c: Config, n: Net)
    requires ValidConfig(c) && Fine(c, n) && Enabled(c, n, CheckCookie)
    ensures Apply(c, n, CheckCookie).gate == Welcoming(n.gate.conn)
  {
    GateHasServer(c, n);
    assert ConnFits(c, n.conns[n.gate.conn]);
    HelloReads(c, n.conns[n.gate.conn]);
  }

  lemma CheckShape(c: Config, n: Net)
    requires Enabled(c, n, CheckCookie) && Apply(c, n, CheckCookie).gate.Welcoming?
    ensures var m := Apply(c, n, CheckCookie);
            && m == n.(conns := m.conns, gate := Welcoming(n.gate.conn)) && |m.conns| == |n.conns|
            && forall j :: 0 <= j < |n.conns| ==> m.conns[j].taken == n.conns[j].taken
  {
  }

  lemma CheckStaysFine(c: Config, n: Net)
    requires ValidConfig(c) && Fine(c, n) && Enabled(c, n, CheckCookie)
    ensures StillFine(Apply(c, n, CheckCookie))
  {
    CookieMatches(c, n);
    CheckShape(c, n);
    CheckedFine(n, Apply(c, n, CheckCookie).conns);
  }

  /** With room in the queue, the connection passes from the accept loop to the queue. */
  lemma EnqueuedFine(n: Net)
    requires StillFine(n) && n.gate.Welcoming? && n.server.Alive()
    requires |n.server.queue| < INTERNAL_PORT_BUFFER && CreateStream(n.gate.conn) !in n.server.queue
    ensures StillFine(n.(server := TrySend(n.server, CreateStream(n.gate.conn)), gate := Open))
  {
    var m := n.(server := TrySend(n.server, CreateStream(n.gate.conn)), gate := Open);
    QueueConnsAppend(n.server.queue, CreateStream(n.gate.conn));
    assert Arrivals(m) == Arrivals(n);
  }

  lemma EnqueueStaysFine(c: Config, n: Net)
    requires Fine(c, n) && Enabled(c, n, Enqueue)
    ensures StillFine(Apply(c, n, Enqueue))
  {
    RoomForStream(c, n);
    GateHasServer(c, n);
    EnqueuedFine(n);
  }

  /** The accept loop works for a test only while its server is creating streams. */
  lemma GateHasServer(c: Config, n: Net)
    requires Fine(c, n) && !n.gate.Open?
    ensures n.server.Alive() && n.server.state == CreateStreams(c.cookie)
  {
    PrefixShape(c, n.script, n.server.history);
    ChainShape(c, n.server.history);
  }

  /** In a healthy run no connection is turned away, or taken for a new test. */
  lemma NobodyTurnedAway(c: Config, n: Net, k: nat)
    requires Fine(c, n) && k < |n.conns| && !n.conns[k].taken
    ensures n.server.Alive() && (n.server.pc.Announced? || n.server.state.CreateStreams?)
  {
    UntakenWhileCreating(c, n, k);
    PrefixShape(c, n.script, n.server.history);
    ChainShape(c, n.server.history);
  }

  // ---- The workers of a healthy run ----

  /** While a worker of the server is at work, the server has published StartLoad and nothing else. */
  lemma ServerAtWork(c: Config, n: Net, id: nat)
    requires Fine(c, n) && id < |n.server.streams| && !n.server.streams[id].task.Returned?
    ensures n.server.Alive() && Early(n.server.pc) && !Exchanging(n)
    ensures n.server.streams[id].task.Loading? ==>
              n.server.published == [StartLoad] && n.server.streams[id].task.cursor == 1
    ensures n.server.streams[id].task.Waiting? && n.server.published != [] ==> n.server.published == [StartLoad]
  {
    if Late(n.server.pc) || Exchanging(n) {
      NothingToDrain(c, n);
    }
  }

  /** A new task for one stream of a side, announced if the worker has returned. */
  function Settled(s: Side, id: nat, task: Task): Side
    requires id < |s.streams|
  {
    if task.Returned? then TrySend(SetTask(s, id, task), StreamTerminated(id)) else SetTask(s, id, task)
  }

  /** Whether the announcement of stream `id` fits into a side's queue, if its worker has returned. */
  predicate Room(s: Side, id: nat, task: Task) {
    task.Returned? ==> s.Alive() && |s.queue| < INTERNAL_PORT_BUFFER && StreamTerminated(id) !in s.queue
  }

  lemma ServerSettledFine(n: Net, id: nat, task: Task, conns: seq<Conn>)
    requires StillFine(n) && id < |n.server.streams| && !n.server.streams[id].task.Returned? && !task.Failed?
    requires Room(n.server, id, task)
    requires |conns| == |n.conns| && forall k :: 0 <= k < |conns| ==> conns[k].taken == n.conns[k].taken
    ensures StillFine(n.(server := Settled(n.server, id, task), conns := conns))
    ensures task.Returned? ==> Settled(n.server, id, task).queue == n.server.queue + [StreamTerminated(id)]
  {
    var s := Settled(n.server, id, task);
    var m := n.(server := s, conns := conns);
    QueueConnsAppend(n.server.queue, StreamTerminated(id));
    assert StreamConns(s.streams) == StreamConns(n.server.streams);
    assert Arrivals(m) == Arrivals(n);
  }

  lemma ClientSettledFine(n: Net, id: nat, task: Task, conns: seq<Conn>)
    requires StillFine(n) && id < |n.client.streams|
    requires n.client.Alive() ==> Room(n.client, id, task)
    requires |conns| == |n.conns| && forall k :: 0 <= k < |conns| ==> conns[k].taken == n.conns[k].taken
    ensures StillFine(n.(client := Settled(n.client, id, task), conns := conns))
    ensures task.Returned? && n.client.Alive() ==>
              Settled(n.client, id, task).queue == n.client.queue + [StreamTerminated(id)]
  {
    assert Arrivals(n.(client := Settled(n.client, id, task), conns := conns)) == Arrivals(n);
  }

  lemma SettledFine(c: Config, n: Net, role: Role, id: nat, task: Task, conns: seq<Conn>)
    requires Fine(c, n) && id < |SideOf(n, role).streams| && !SideOf(n, role).streams[id].task.Returned?
    requires task.Returned? ==> SideOf(n, role).streams[id].task.Loading?
    requires role.Server? ==> !task.Failed?
    requires |conns| == |n.conns| && forall k :: 0 <= k < |conns| ==> conns[k].taken == n.conns[k].taken
    ensures StillFine(WithSide(n.(conns := conns), role, Settled(SideOf(n, role), id, task)))
    ensures task.Returned? && SideOf(n, role).Alive() ==>
              Settled(SideOf(n, role), id, task).queue == SideOf(n, role).queue + [StreamTerminated(id)]
  {
    if task.Returned? {
      RoomForAnnouncement(c, n, role, id);
    }
    if role.Server? {
      ServerAtWork(c, n, id);
      ServerSettledFine(n, id, task, conns);
    } else {
      ClientSettledFine(n, id, task, conns);
    }
  }

  lemma ServerStarts(c: Config, n: Net, id: nat, startTime: nat, gap: nat)
    requires Fine(c, n) && CanStart(n.server, id)
    ensures !Started(n.server, id, startTime, gap).Failed?
  {
    ServerAtWork(c, n, id);
  }

  lemma StartWorkerStaysFine(c: Config, n: Net, role: Role, id: nat, startTime: nat, gap: nat)
    requires Fine(c, n) && CanStart(SideOf(n, role), id)
    ensures StillFine(ApplyStartWorker(n, role, id, startTime, gap))
  {
    var task := Started(SideOf(n, role), id, startTime, gap);
    if role.Server? {
      ServerStarts(c, n, id, startTime, gap);
    }
    SettledFine(c, n, role, id, task, n.conns);
    assert n.(conns := n.conns) == n;
  }

  /** Told nothing, and with its socket and its reports in order, a worker does not fail. */
  lemma QuietNeverFails(ep: W.Endpoint, m: W.Meter, t: W.Tick)
    requires t.signal == W.Quiet && !t.io.Broken? && t.accepted
    ensures !W.Iterate(ep, m, t).Abandon?
  {
  }

  lemma ServerHearsNothing(c: Config, n: Net, id: nat)
    requires Fine(c, n) && id < |n.server.streams| && n.server.streams[id].task.Loading?
    ensures SignalOf(n.server, n.server.streams[id].task.cursor) == W.Quiet
  {
    ServerAtWork(c, n, id);
  }

  /** What a run of a loop body comes to, if it does not fail a worker of the server. */
  lemma MeasureSettles(c: Config, n: Net, role: Role, id: nat, t: W.Tick, e: W.Ending)
    returns (task: Task, conns: seq<Conn>)
    requires SideInv(c, SideOf(n, role)) && CanMeasure(c, n, role, id, t)
    requires var s := SideOf(n, role);
             role.Server? ==> e.accepted && !W.Iterate(EndpointOf(c, s, id), s.streams[id].task.meter, t).Abandon?
    ensures ApplyMeasure(c, n, role, id, t, e) == WithSide(n.(conns := conns), role, Settled(SideOf(n, role), id, task))
    ensures !task.Waiting? && (role.Server? ==> !task.Failed?)
    ensures |conns| == |n.conns| && forall k :: 0 <= k < |conns| ==> conns[k].taken == n.conns[k].taken
    ensures task.Loading? ==> W.Iterate(EndpointOf(c, SideOf(n, role), id), SideOf(n, role).streams[id].task.meter, t)
                              == W.Continue(task.meter)
  {
    task := MeasuredShape(c, SideOf(n, role), id, t, e);
    conns := ApplyMeasure(c, n, role, id, t, e).conns;
  }

  lemma HealthyMeasure(c: Config, n: Net, role: Role, id: nat, t: W.Tick, e: W.Ending)
    returns (task: Task, conns: seq<Conn>)
    requires Fine(c, n) && CanMeasure(c, n, role, id, t) && Healthy(c, n, Measure(role, id, t, e))
    ensures ApplyMeasure(c, n, role, id, t, e) == WithSide(n.(conns := conns), role, Settled(SideOf(n, role), id, task))
    ensures !task.Waiting? && (role.Server? ==> !task.Failed?)
    ensures |conns| == |n.conns| && forall k :: 0 <= k < |conns| ==> conns[k].taken == n.conns[k].taken
    ensures task.Loading? ==> W.Iterate(EndpointOf(c, SideOf(n, role), id), SideOf(n, role).streams[id].task.meter, t)
                              == W.Continue(task.meter)
  {
    if role.Server? {
      ServerHearsNothing(c, n, id);
      QuietNeverFails(EndpointOf(c, n.server, id), n.server.streams[id].task.meter, t);
    }
    task, conns := MeasureSettles(c, n, role, id, t, e);
  }

  lemma MeasureStaysFine(c: Config, n: Net, role: Role, id: nat, t: W.Tick, e: W.Ending)
    requires Fine(c, n) && CanMeasure(c, n, role, id, t) && Healthy(c, n, Measure(role, id, t, e))
    ensures StillFine(ApplyMeasure(c, n, role, id, t, e))
  {
    var task, conns := HealthyMeasure(c, n, role, id, t, e);
    SettledFine(c, n, role, id, task, conns);
  }

  lemma WorkerStepStaysFine(c: Config, n: Net, step: Step)
    requires Fine(c, n) && Enabled(c, n, step) && Healthy(c, n, step)
    requires step.ByWorker()
    ensures StillFine(Apply(c, n, step))
  {
    match step
    case StartWorker(role, id, startTime, gap) => StartWorkerStaysFine(c, n, role, id, startTime, gap);
    case Measure(role, id, t, e) => MeasureStaysFine(c, n, role, id, t, e);
    case WorkerDies(role, id) => SettledFine(c, n, Client, id, Failed, n.conns);
  }

  lemma AcceptLoopStaysFine(c: Config, n: Net, step: Step)
    requires ValidConfig(c) && Fine(c, n) && Enabled(c, n, step) && Healthy(c, n, step)
    requires step.ByAcceptLoop()
    ensures StillFine(Apply(c, n, step)) && !step.TurnAway? && !step.NewTestInstead?
  {
    match step
    case Admit(k) => AdmitStaysFine(c, n, k);
    case CheckCookie => CheckStaysFine(c, n);
    case Enqueue => EnqueueStaysFine(c, n);
    case TurnAway(k) => NobodyTurnedAway(c, n, k);
    case NewTestInstead(k) => NobodyTurnedAway(c, n, k);
  }

  lemma AcceptedStaysFine(c: Config, n: Net)
    requires n.server.queue != [] && n.server.queue[0].CreateStream? && Enabled(c, n, TakeMessage(Server)) && Fine(c, n)
    ensures StillFine(Apply(c, n, TakeMessage(Server)))
  {
    AcceptLeavesHealthy(c, n);
    AcceptStaysFine(c, n);
  }

  lemma ReapedStaysFine(c: Config, n: Net)
    requires n.server.queue != [] && n.server.queue[0].StreamTerminated? && Enabled(c, n, TakeMessage(Server))
             && Fine(c, n)
    ensures StillFine(Apply(c, n, TakeMessage(Server)))
  {
    EndedLeavesHealthy(c, n);
    EndedStaysFine(c, n);
  }

  lemma ServerMessageStaysFine(c: Config, n: Net)
    requires Fine(c, n) && Enabled(c, n, TakeMessage(Server))
    ensures StillFine(Apply(c, n, TakeMessage(Server)))
  {
    assert n.server.queue[0] in n.server.queue;
    match n.server.queue[0]
    case CreateStream(_) => AcceptedStaysFine(c, n);
    case StreamTerminated(_) => ReapedStaysFine(c, n);
    case Stop =>
  }

  lemma OpeningStaysFine(c: Config, n: Net, step: Step)
    requires ValidConfig(c) && Fine(c, n) && Enabled(c, n, step)
    requires step.AnnounceStart? || step.Connect? || step.ReadWelcome? || step.Follow?
    ensures StillFine(Apply(c, n, step))
  {
    match step
    case AnnounceStart => AnnounceStartStaysFine(c, n);
    case Connect => ConnectStaysFine(c, n);
    case ReadWelcome => ReadWelcomeStaysFine(c, n);
    case Follow => FollowStaysFine(c, n);
  }

  lemma ClosingStaysFine(c: Config, n: Net, step: Step)
    requires Fine(c, n) && Enabled(c, n, step)
    requires step.CommitState? || step.Reply? || step.WindUp? || step.DrainEnds? || step.TakeResults? || step.Drain?
    ensures StillFine(Apply(c, n, step))
  {
    match step
    case TakeResults(role) => TakeResultsStaysFine(c, n, role);
    case Drain(role, id) => DrainStaysFine(c, n, role, id);
    case WindUp(_) => EndingStaysFine(c, n, step);
    case DrainEnds(_) => EndingStaysFine(c, n, step);
    case _ => ControlStaysFine(c, n, step);
  }

  lemma ControllerStaysFine(c: Config, n: Net, step: Step)
    requires ValidConfig(c) && Fine(c, n) && Enabled(c, n, step) && Healthy(c, n, step) && step.ByController()
    ensures StillFine(Apply(c, n, step))
  {
    if step == TakeMessage(Server) {
      ServerMessageStaysFine(c, n);
    } else if step == TakeMessage(Client) {
      ClientMessageStaysFine(c, n);
    } else if step.WakeUp? {
      WakeUpStaysFine(c, n, step.role);
    } else if step.AnnounceStart? || step.Connect? || step.ReadWelcome? || step.Follow? {
      OpeningStaysFine(c, n, step);
    } else {
      ClosingStaysFine(c, n, step);
    }
  }

  // ---- A healthy step leaves the client somebody to start the load on ----

  lemma StartableKept(n: Net, m: Net)
    requires Startable(n.client) && n.client.published <= m.client.published && m.client.streams == n.client.streams
    ensures Startable(m.client)
  {
  }

  lemma ControllerKeepsStartable(c: Config, n: Net, step: Step)
    requires Startable(n.client) && n.client.role.Client? && Enabled(c, n, step)
    requires step.ByController() && !step.ReadWelcome?
    ensures Startable(Apply(c, n, step).client)
  {
    if step.TakeMessage? {
      StartableKept(n, Apply(c, n, TakeMessage(step.role)));
    } else if step.WakeUp? {
      StartableKept(n, Apply(c, n, WakeUp(step.role, step.shutdown)));
    } else {
      StartableKept(n, Apply(c, n, step));
    }
  }

  lemma JoinKeepsStartable(c: Config, n: Net)
    requires Startable(n.client) && Enabled(c, n, ReadWelcome)
    ensures Startable(Apply(c, n, ReadWelcome).client)
  {
    var m := Apply(c, n, ReadWelcome);
    if |m.client.streams| > |n.client.streams| {
      assert m.client.streams[|n.client.streams|].task.Waiting?;
    } else {
      StartableKept(n, m);
    }
  }

  /** A worker at work has been told to start, so the load has started. */
  lemma WorkingMeansLoaded(c: Config, s: Side, id: nat)
    requires SideInv(c, s) && id < |s.streams| && (CanStart(s, id) || s.streams[id].task.Loading?)
    ensures s.published != []
  {
    assert TaskFits(c, s.role, s.oldState.Running?, |s.published|, id, s.streams[id]);
  }

  lemma WorkerKeepsStartable(c: Config, n: Net, step: Step)
    requires Startable(n.client) && Enabled(c, n, step) && Healthy(c, n, step) && step.ByWorker()
    requires !step.WorkerDies? && step.role.Client? ==> n.client.published != []
    ensures Startable(Apply(c, n, step).client)
  {
  }

  lemma LoadedKeepsStartable(c: Config, n: Net, step: Step)
    requires Startable(n.client) && n.client.role.Client? && Enabled(c, n, step) && Healthy(c, n, step)
    requires step.ByWorker() && !step.WorkerDies? && step.role.Client? ==> n.client.published != []
    ensures Startable(Apply(c, n, step).client)
  {
    if step.ByWorker() {
      WorkerKeepsStartable(c, n, step);
    } else if step.ReadWelcome? {
      JoinKeepsStartable(c, n);
    } else if step.ByController() {
      ControllerKeepsStartable(c, n, step);
    } else {
      StartableKept(n, Apply(c, n, step));
    }
  }

  lemma StepKeepsStartable(c: Config, n: Net, step: Step)
    requires Fine(c, n) && Enabled(c, n, step) && Healthy(c, n, step)
    ensures Startable(Apply(c, n, step).client)
  {
    if step.ByWorker() && !step.WorkerDies? && step.role.Client? {
      WorkingMeansLoaded(c, n.client, step.id);
    }
    LoadedKeepsStartable(c, n, step);
  }

  /** A healthy step leads from a fine state to a fine state. */
  lemma StepStaysFine(c: Config, n: Net, step: Step)
    requires ValidConfig(c) && Fine(c, n) && Enabled(c, n, step) && Healthy(c, n, step)
    ensures Fine(c, Apply(c, n, step))
  {
    StepKeepsInv(c, n, step);
    StepKeepsStartable(c, n, step);
    if step.ByWorker() {
      WorkerStepStaysFine(c, n, step);
    } else if step.ByAcceptLoop() {
      AcceptLoopStaysFine(c, n, step);
    } else {
      ControllerStaysFine(c, n, step);
    }
  }

  lemma InitFine(c: Config)
    requires ValidConfig(c) && c.Total() <= INTERNAL_PORT_BUFFER
    ensures Fine(c, Init())
  {
    InitHolds(c);
  }
}
