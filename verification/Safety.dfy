/** The invariant holds in every state of every run. */
module Safety {
  import opened Messages
  import opened Control
  import opened Framing
  import opened Protocol
  import opened Invariant
  import opened SideSafety
  import opened HistorySafety
  import opened ExchangeSafety
  import opened ConnSafety
  import opened BytesSafety
  import W = Worker

  /** Everything that concerns the data connections. */
  ghost predicate Wired(c: Config, n: Net) {
    ConnsInv(c, n) && ArrivalsInv(c, n) && BytesInv(c, n)
  }

  /** A step of a controller that neither opens, accepts nor uses a data connection, nor changes state. */
  ghost predicate Unmoved(c: Config, n: Net, m: Net) {
    && m.conns == n.conns && m.gate == n.gate && m.script == n.script
    && m.server.streams == n.server.streams && m.server.state == n.server.state
    && QueueConns(m.server.queue) == QueueConns(n.server.queue)
    && (Exchanging(n) ==> m.server.workers == {} && m.server.lost == {})
    && m.client.streams == n.client.streams && m.client.state == n.client.state
    && m.client.history == n.client.history
    && (|| m.client.pc == n.client.pc || m.client.pc.Aborted?
        || (!n.client.pc.AwaitWelcome? && !n.client.pc.Aborted? && !m.client.pc.AwaitWelcome?
            && (m.client.pc.Select? && n.client.state.CreateStreams? ==> |n.client.streams| == c.Total())))
    && (n.client.pc.Aborted? ==> m.client.pc.Aborted?)
  }

  lemma UnmovedKeepsWired(c: Config, n: Net, m: Net)
    requires Wired(c, n) && Unmoved(c, n, m)
    ensures Wired(c, m)
  {
    QuietKeepsConns(c, n, m);
    QuietKeepsArrivals(c, n, m);
    QuietKeepsBytes(c, n, m);
  }

  // ---- The server's controller ----

  /** The server announces a state that has nothing to do with the data connections. */
  lemma AnnounceKeepsWired(c: Config, n: Net, s: Side)
    requires HistoryInv(c, n) && Wired(c, n) && s == n.server.(pc := s.pc) && s.pc.Announced?
    requires (s.pc.next.CreateStreams? && |n.script| == 1) || (s.pc.next.Terminate? && 2 <= |n.script| <= 3)
    ensures Wired(c, Announce(n, s))
  {
    AnnounceKeepsArrivals(c, n, s);
    QuietKeepsConns(c, n, Announce(n, s));
    QuietKeepsBytes(c, n, Announce(n, s));
  }

  lemma AnnounceStartKeepsRest(c: Config, n: Net)
    requires HistoryInv(c, n) && SideInv(c, n.server) && ExchangeInv(n) && Enabled(c, n, AnnounceStart)
    ensures var m := Apply(c, n, AnnounceStart); HistoryInv(c, m) && SideInv(c, m.server) && ExchangeInv(m)
    ensures |n.script| == 1
  {
    var s := RequestState(n.server, CreateStreams(c.cookie));
    ChainShape(c, n.script);
    AnnounceKeepsHistory(c, n, s);
    AnnounceKeepsExchange(n, s);
  }

  lemma AnnounceStartKeeps(c: Config, n: Net)
    requires ValidConfig(c) && Inv(c, n) && Enabled(c, n, AnnounceStart)
    ensures Inv(c, Apply(c, n, AnnounceStart))
  {
    AnnounceStartKeepsRest(c, n);
    AnnounceKeepsWired(c, n, RequestState(n.server, CreateStreams(c.cookie)));
  }

  lemma CommitKeepsWired(c: Config, n: Net)
    requires Wired(c, n) && Enabled(c, n, CommitState)
    ensures Wired(c, Apply(c, n, CommitState))
  {
    CommitKeepsArrivals(c, n);
    QuietKeepsConns(c, n, Apply(c, n, CommitState));
    QuietKeepsBytes(c, n, Apply(c, n, CommitState));
  }

  lemma CommitKeeps(c: Config, n: Net)
    requires ValidConfig(c) && Inv(c, n) && Enabled(c, n, CommitState)
    ensures Inv(c, Apply(c, n, CommitState))
  {
    CommitKeepsSide(c, n.server);
    CommitKeepsHistory(c, n);
    SideKeepsExchange(n, Server, Commit(n.server, n.server.pc.next));
    CommitKeepsWired(c, n);
  }

  lemma ReplyKeeps(c: Config, n: Net)
    requires ValidConfig(c) && Inv(c, n) && Enabled(c, n, Reply)
    ensures Inv(c, Apply(c, n, Reply))
  {
    ReplyKeepsHistory(c, n);
    ReplyKeepsExchange(c, n);
    UnmovedKeepsWired(c, n, Apply(c, n, Reply));
  }

  lemma AcceptShape(c: Config, n: Net)
    requires n.server.role.Server? && Enabled(c, n, TakeMessage(Server)) && n.server.queue[0].CreateStream?
    ensures var s, m := HandleInternal(c.params, n.server), Apply(c, n, TakeMessage(Server));
            && m.server == s && m.client == n.client && m.conns == n.conns && m.gate == n.gate && m.stopped == n.stopped
            && (m.script == n.script || m.script == n.script + [Running]) && s.queue == n.server.queue[1..]
            && s.workers == n.server.workers + {|n.server.streams|} && (s.pc.Top? || s.pc.Announced?)
            && s.streams == n.server.streams + [DataStream(n.server.queue[0].conn,
                                                           IsSending(c.params, Server, |n.server.streams|),
                                                           Waiting(|n.server.published|))]
  {
  }

  lemma AcceptKeepsEnds(c: Config, n: Net)
    requires ConnsInv(c, n) && BytesInv(c, n) && n.server.role.Server?
    requires Enabled(c, n, TakeMessage(Server)) && n.server.queue[0].CreateStream?
    ensures var m := Apply(c, n, TakeMessage(Server)); ConnsInv(c, m) && BytesInv(c, m)
  {
    var s, m := HandleInternal(c.params, n.server), Apply(c, n, TakeMessage(Server));
    AcceptShape(c, n);
    assert ConnsInv(c, m) by { QuietKeepsConns(c, n, m); }
    AcceptKeepsBytes(c, n, s);
    QuietKeepsBytes(c, n.(server := s), m);
  }

  lemma AcceptKeepsWired(c: Config, n: Net)
    requires HistoryInv(c, n) && SideInv(c, n.server) && Wired(c, n)
    requires Enabled(c, n, TakeMessage(Server)) && n.server.queue[0].CreateStream?
    ensures Wired(c, Apply(c, n, TakeMessage(Server)))
  {
    AcceptKeepsArrivals(c, n);
    AcceptKeepsEnds(c, n);
  }

  lemma EndedResult(c: Config, n: Net)
    requires Enabled(c, n, TakeMessage(Server)) && !n.server.queue[0].CreateStream?
    ensures var m := Apply(c, n, TakeMessage(Server));
            && m.conns == n.conns && m.gate == n.gate && m.client == n.client && m.stopped == n.stopped
            && |m.script| >= |n.script| && m.server.queue == n.server.queue[1..]
            && m.server.streams == n.server.streams && QueueConns(m.server.queue) == QueueConns(n.server.queue)
  {
  }

  lemma EndedKeepsWired(c: Config, n: Net)
    requires HistoryInv(c, n) && SideInv(c, n.server) && Wired(c, n)
    requires Enabled(c, n, TakeMessage(Server)) && !n.server.queue[0].CreateStream?
    ensures Wired(c, Apply(c, n, TakeMessage(Server)))
  {
    var m := Apply(c, n, TakeMessage(Server));
    EndedResult(c, n);
    EndedKeepsArrivals(c, n);
    assert ConnsInv(c, m) by { QuietKeepsConns(c, n, m); }
    assert BytesInv(c, m) by { QuietKeepsBytes(c, n, m); }
  }

  lemma MessageKeepsExchange(c: Config, n: Net)
    requires ExchangeInv(n) && n.server.role.Server? && Enabled(c, n, TakeMessage(Server))
    ensures ExchangeInv(Apply(c, n, TakeMessage(Server)))
  {
    AnnounceKeepsExchange(n, HandleInternal(c.params, n.server));
  }

  lemma MessageKeepsWired(c: Config, n: Net)
    requires HistoryInv(c, n) && SideInv(c, n.server) && Wired(c, n) && Enabled(c, n, TakeMessage(Server))
    ensures Wired(c, Apply(c, n, TakeMessage(Server)))
  {
    if n.server.queue[0].CreateStream? {
      AcceptKeepsWired(c, n);
    } else {
      EndedKeepsWired(c, n);
    }
  }

  lemma MessageKeepsSide(c: Config, n: Net)
    requires HistoryInv(c, n) && SideInv(c, n.server) && SideInv(c, n.client) && Wired(c, n)
    requires Enabled(c, n, TakeMessage(Server))
    ensures var m := Apply(c, n, TakeMessage(Server)); SideInv(c, m.server) && SideInv(c, m.client)
    ensures AcceptsInTime(n.server)
  {
    QueuedInTime(c, n);
    HandleInternalKeeps(c, n.server);
  }

  lemma ServerMessageKeeps(c: Config, n: Net)
    requires ValidConfig(c) && Inv(c, n) && Enabled(c, n, TakeMessage(Server))
    ensures Inv(c, Apply(c, n, TakeMessage(Server)))
  {
    MessageKeepsSide(c, n);
    MessageKeepsHistory(c, n, Server);
    MessageKeepsExchange(c, n);
    MessageKeepsWired(c, n);
  }

  // ---- The client's controller ----

  lemma ConnectKeepsWired(c: Config, n: Net)
    requires HistoryInv(c, n) && Wired(c, n) && Enabled(c, n, Connect)
    ensures Wired(c, Apply(c, n, Connect))
  {
    ConnectKeepsConns(c, n);
    QuietKeepsArrivals(c, n, Apply(c, n, Connect));
    ConnectKeepsBytes(c, n);
  }

  lemma ConnectKeepsRest(c: Config, n: Net)
    requires SideInv(c, n.client) && ExchangeInv(n) && n.client.role.Client? && Enabled(c, n, Connect)
    ensures var m := Apply(c, n, Connect); SideInv(c, m.client) && ExchangeInv(m)
  {
    SideKeepsExchange(n, Client, Apply(c, n, Connect).client);
  }

  lemma ConnectKeeps(c: Config, n: Net)
    requires ValidConfig(c) && Inv(c, n) && Enabled(c, n, Connect)
    ensures Inv(c, Apply(c, n, Connect))
  {
    ConnectingKeepsHistory(c, n, Connect);
    ConnectKeepsRest(c, n);
    ConnectKeepsWired(c, n);
  }

  /** The client has read a reply: the connection was taken, and only its own bookkeeping changes. */
  lemma ReadWelcomeResult(c: Config, n: Net)
    requires ValidConfig(c) && ConnsInv(c, n) && BytesInv(c, n) && SideInv(c, n.client) && Enabled(c, n, ReadWelcome)
    ensures var m, k := Apply(c, n, ReadWelcome), n.client.pc.conn;
            && n.conns[k].taken && SideInv(c, m.client) && ConnsInv(c, m)
            && m == n.(client := m.client, conns := n.conns[k := m.conns[k]]) && m.conns[k].taken
  {
    var m, k := Apply(c, n, ReadWelcome), n.client.pc.conn;
    assert ConnFits(c, n.conns[k]);
    ReplyReads(c, n.conns[k]);
    if m.client.pc.Top? {
      ReadWelcomeKeepsConns(c, n);
      JoinKeepsSide(c, n.client, k);
    } else {
      AbortKeepsSide(c, n.client);
      QuietKeepsConns(c, n, m);
    }
  }

  lemma ReadWelcomeKeepsExchange(c: Config, n: Net)
    requires ExchangeInv(n) && n.client.role.Client? && Enabled(c, n, ReadWelcome)
    ensures ExchangeInv(Apply(c, n, ReadWelcome))
  {
    SideKeepsExchange(n, Client, Apply(c, n, ReadWelcome).client);
  }

  lemma ReadWelcomeKeepsArrivals(c: Config, n: Net)
    requires ArrivalsInv(c, n) && Enabled(c, n, ReadWelcome)
    ensures ArrivalsInv(c, Apply(c, n, ReadWelcome))
  {
    QuietKeepsArrivals(c, n, Apply(c, n, ReadWelcome));
  }

  lemma ReadWelcomeKeeps(c: Config, n: Net)
    requires ValidConfig(c) && Inv(c, n) && Enabled(c, n, ReadWelcome)
    ensures Inv(c, Apply(c, n, ReadWelcome))
  {
    ReadWelcomeResult(c, n);
    ConnectingKeepsHistory(c, n, ReadWelcome);
    ReadWelcomeKeepsExchange(c, n);
    ReadWelcomeKeepsBytes(c, n);
    ReadWelcomeKeepsArrivals(c, n);
  }

  lemma FollowKeepsWired(c: Config, n: Net)
    requires Wired(c, n) && SideInv(c, n.client) && Enabled(c, n, Follow)
    requires n.toClient[0].SetState? && Follows(c, n.client.state, n.toClient[0].state)
    ensures Wired(c, Apply(c, n, Follow))
  {
    var m := Apply(c, n, Follow);
    FollowKeepsConns(c, n);
    QuietKeepsArrivals(c, n, m);
    QuietKeepsBytes(c, n, m);
  }

  lemma FollowKeepsRest(c: Config, n: Net)
    requires SideInv(c, n.client) && ExchangeInv(n) && n.client.role.Client? && Enabled(c, n, Follow)
    requires n.toClient[0].SetState? && Follows(c, n.client.state, n.toClient[0].state)
    ensures var m := Apply(c, n, Follow); SideInv(c, m.client) && ExchangeInv(m)
  {
    SideKeepsExchange(n, Client, FollowServer(n.client, n.toClient[0]));
  }

  lemma FollowKeeps(c: Config, n: Net)
    requires ValidConfig(c) && Inv(c, n) && Enabled(c, n, Follow)
    ensures Inv(c, Apply(c, n, Follow))
  {
    FollowKeepsHistory(c, n);
    FollowKeepsRest(c, n);
    FollowKeepsWired(c, n);
  }

  /** What the client makes of its own queue and of a local shutdown. */
  lemma ClientStopsKeepsWired(c: Config, n: Net, queue: seq<ControllerMessage>)
    requires Wired(c, n) && n.client.pc.Select? && n.client.role.Client?
    ensures Wired(c, n.(client := RequestState(n.client.(queue := queue), Terminate), stopped := true))
  {
    var m := n.(client := RequestState(n.client.(queue := queue), Terminate), stopped := true);
    ClientStopsKeepsConns(c, n, queue);
    QuietKeepsArrivals(c, n, m);
    QuietKeepsBytes(c, n, m);
  }

  lemma ClientMessageKeepsWired(c: Config, n: Net)
    requires Wired(c, n) && SideInv(c, n.client) && n.client.role.Client? && Enabled(c, n, TakeMessage(Client))
    ensures Wired(c, Apply(c, n, TakeMessage(Client)))
  {
    assert n.client.queue[0] in n.client.queue;
    if n.client.queue[0].Stop? {
      ClientStopsKeepsWired(c, n, n.client.queue[1..]);
    } else {
      UnmovedKeepsWired(c, n, Apply(c, n, TakeMessage(Client)));
    }
  }

  lemma ClientMessageKeepsExchange(c: Config, n: Net)
    requires ExchangeInv(n) && SideInv(c, n.client) && n.client.role.Client? && Enabled(c, n, TakeMessage(Client))
    ensures ExchangeInv(Apply(c, n, TakeMessage(Client)))
  {
    assert n.client.queue[0] in n.client.queue;
    SideKeepsExchange(n, Client, HandleInternal(c.params, n.client));
  }

  lemma ClientMessageKeeps(c: Config, n: Net)
    requires ValidConfig(c) && Inv(c, n) && Enabled(c, n, TakeMessage(Client))
    ensures Inv(c, Apply(c, n, TakeMessage(Client)))
  {
    assert n.client.queue[0] in n.client.queue;
    HandleInternalKeeps(c, n.client);
    MessageKeepsHistory(c, n, Client);
    ClientMessageKeepsExchange(c, n);
    ClientMessageKeepsWired(c, n);
  }

  // ---- Either controller ----

  /** A server that is running has announced Running, so it has every stream. */
  lemma RunningHasAll(c: Config, n: Net)
    requires HistoryInv(c, n) && ArrivalsInv(c, n) && n.server.state.Running?
    ensures |n.server.streams| == c.Total()
  {
    ChainShape(c, n.script);
    assert n.script[|n.server.history| - 1] == n.server.state;
  }

  /** At the head of the loop, the load is started only with every stream in place. */
  lemma WakeReady(c: Config, n: Net, role: Role)
    requires HistoryInv(c, n) && ConnsInv(c, n) && ArrivalsInv(c, n) && PcFits(SideOf(n, role))
    ensures var s := SideOf(n, role);
            && (s.state.Running? ==> |s.streams| == c.Total())
            && (s.oldState.Running? && !s.state.Running? ==> s.state.ExchangeResults? || s.state.Terminate?)
  {
    if role.Server? && n.server.state.Running? {
      RunningHasAll(c, n);
    }
  }

  lemma WakeUpKeepsWired(c: Config, n: Net, role: Role, shutdown: bool)
    requires Wired(c, n) && Enabled(c, n, WakeUp(role, shutdown))
    ensures Wired(c, Apply(c, n, WakeUp(role, shutdown)))
  {
    QueueConnsAppend(n.server.queue, Stop);
    UnmovedKeepsWired(c, n, Apply(c, n, WakeUp(role, shutdown)));
  }

  lemma WakeUpKeepsRest(c: Config, n: Net, role: Role, shutdown: bool)
    requires HistoryInv(c, n) && Wired(c, n) && SideInv(c, SideOf(n, role)) && ExchangeInv(n)
    requires Enabled(c, n, WakeUp(role, shutdown))
    ensures var m := Apply(c, n, WakeUp(role, shutdown)); SideInv(c, SideOf(m, role)) && ExchangeInv(m)
  {
    WakeReady(c, n, role);
    WakeKeeps(c, SideOf(n, role), shutdown);
    SideKeepsExchange(n, role, Wake(SideOf(n, role), shutdown));
  }

  lemma WakeUpKeeps(c: Config, n: Net, role: Role, shutdown: bool)
    requires ValidConfig(c) && Inv(c, n) && Enabled(c, n, WakeUp(role, shutdown))
    ensures Inv(c, Apply(c, n, WakeUp(role, shutdown)))
  {
    WakeUpKeepsRest(c, n, role, shutdown);
    WakeUpKeepsHistory(c, n, role, shutdown);
    WakeUpKeepsWired(c, n, role, shutdown);
  }

  lemma WindUpKeeps(c: Config, n: Net, role: Role)
    requires ValidConfig(c) && Inv(c, n) && Enabled(c, n, WindUp(role))
    ensures Inv(c, Apply(c, n, WindUp(role)))
  {
    FinishKeeps(c, SideOf(n, role));
    WindUpKeepsHistory(c, n, role);
    SideKeepsExchange(n, role, Finish(SideOf(n, role)));
    UnmovedKeepsWired(c, n, Apply(c, n, WindUp(role)));
  }

  lemma ShutDownKeepsWired(c: Config, n: Net, role: Role)
    requires HistoryInv(c, n) && SideInv(c, SideOf(n, role)) && Wired(c, n) && Enabled(c, n, ShutDown(role))
    ensures Wired(c, Apply(c, n, ShutDown(role)))
  {
    if role.Server? {
      AnnouncedMeans(c, n);
      AnnounceKeepsWired(c, n, RequestState(n.server, Terminate));
    } else {
      ClientStopsKeepsWired(c, n, n.client.queue);
    }
  }

  lemma ShutDownKeepsRest(c: Config, n: Net, role: Role)
    requires SideInv(c, SideOf(n, role)) && ExchangeInv(n) && n.server.role.Server? && n.client.role.Client?
    requires Enabled(c, n, ShutDown(role))
    ensures var m := Apply(c, n, ShutDown(role)); SideInv(c, SideOf(m, role)) && ExchangeInv(m)
  {
    var s := RequestState(SideOf(n, role), Terminate);
    if role.Server? {
      AnnounceKeepsExchange(n, s);
    } else {
      SideKeepsExchange(n, Client, s);
    }
  }

  lemma ShutDownKeeps(c: Config, n: Net, role: Role)
    requires ValidConfig(c) && Inv(c, n) && Enabled(c, n, ShutDown(role))
    ensures Inv(c, Apply(c, n, ShutDown(role)))
  {
    ShutDownKeepsHistory(c, n, role);
    ShutDownKeepsWired(c, n, role);
    ShutDownKeepsRest(c, n, role);
  }

  lemma DrainKeepsRest(c: Config, n: Net, role: Role, id: nat)
    requires SideInv(c, SideOf(n, role)) && ExchangeInv(n) && Enabled(c, n, Drain(role, id))
    ensures var m := Apply(c, n, Drain(role, id)); SideInv(c, SideOf(m, role)) && ExchangeInv(m)
  {
    DrainKeeps(c, SideOf(n, role), id);
    SideKeepsExchange(n, role, DrainOne(SideOf(n, role), id));
  }

  lemma DrainKeepsWired(c: Config, n: Net, role: Role, id: nat)
    requires Wired(c, n) && Enabled(c, n, Drain(role, id))
    ensures Wired(c, Apply(c, n, Drain(role, id)))
  {
    UnmovedKeepsWired(c, n, Apply(c, n, Drain(role, id)));
  }

  lemma DrainKeepsAll(c: Config, n: Net, role: Role, id: nat)
    requires ValidConfig(c) && Inv(c, n) && Enabled(c, n, Drain(role, id))
    ensures Inv(c, Apply(c, n, Drain(role, id)))
  {
    DrainKeepsRest(c, n, role, id);
    DrainKeepsHistory(c, n, role, id);
    DrainKeepsWired(c, n, role, id);
  }

  lemma DrainEndsKeepsSide(c: Config, n: Net, role: Role)
    requires SideInv(c, SideOf(n, role)) && n.server.role.Server? && n.client.role.Client?
    requires Enabled(c, n, DrainEnds(role))
    ensures var m := Apply(c, n, DrainEnds(role)); SideInv(c, SideOf(m, role))
  {
  }

  lemma DrainEndsKeepsWired(c: Config, n: Net, role: Role)
    requires Wired(c, n) && Enabled(c, n, DrainEnds(role))
    ensures Wired(c, Apply(c, n, DrainEnds(role)))
  {
    UnmovedKeepsWired(c, n, Apply(c, n, DrainEnds(role)));
  }

  lemma DrainEndsKeeps(c: Config, n: Net, role: Role)
    requires ValidConfig(c) && Inv(c, n) && Enabled(c, n, DrainEnds(role))
    ensures Inv(c, Apply(c, n, DrainEnds(role)))
  {
    DrainEndsKeepsHistory(c, n, role);
    DrainEndsKeepsExchange(c, n, role);
    DrainEndsKeepsSide(c, n, role);
    DrainEndsKeepsWired(c, n, role);
  }

  lemma TakeResultsKeepsSide(c: Config, n: Net, role: Role)
    requires SideInv(c, SideOf(n, role)) && n.server.role.Server? && n.client.role.Client?
    requires Enabled(c, n, TakeResults(role))
    ensures var m := Apply(c, n, TakeResults(role)); SideInv(c, SideOf(m, role))
  {
  }

  lemma TakeResultsKeepsWired(c: Config, n: Net, role: Role)
    requires Wired(c, n) && Enabled(c, n, TakeResults(role))
    ensures Wired(c, Apply(c, n, TakeResults(role)))
  {
    UnmovedKeepsWired(c, n, Apply(c, n, TakeResults(role)));
  }

  lemma TakeResultsKeeps(c: Config, n: Net, role: Role)
    requires ValidConfig(c) && Inv(c, n) && Enabled(c, n, TakeResults(role))
    ensures Inv(c, Apply(c, n, TakeResults(role)))
  {
    if role.Server? {
      TakeResultsKeepsHistory(c, n);
    } else {
      TakeReplyKeepsHistory(c, n);
    }
    TakeResultsKeepsExchange(c, n, role);
    TakeResultsKeepsSide(c, n, role);
    TakeResultsKeepsWired(c, n, role);
  }

  lemma AbortKeeps(c: Config, n: Net, role: Role)
    requires ValidConfig(c) && Inv(c, n) && Enabled(c, n, Abort(role))
    ensures Inv(c, Apply(c, n, Abort(role)))
  {
    AbortKeepsSide(c, SideOf(n, role));
    AbortKeepsHistory(c, n, role);
    SideKeepsExchange(n, role, SideOf(n, role).(pc := Aborted));
    UnmovedKeepsWired(c, n, Apply(c, n, Abort(role)));
  }

  // ---- The server's accept loop ----

  lemma AdmitKeepsWired(c: Config, n: Net, k: nat)
    requires ValidConfig(c) && Wired(c, n) && Enabled(c, n, Admit(k))
    ensures Wired(c, Apply(c, n, Admit(k)))
  {
    QuietKeepsConns(c, n, Apply(c, n, Admit(k)));
    AdmitKeepsArrivals(c, n, k);
    AdmitKeepsBytes(c, n, k);
  }

  lemma AdmitKeeps(c: Config, n: Net, k: nat)
    requires ValidConfig(c) && Inv(c, n) && Enabled(c, n, Admit(k))
    ensures Inv(c, Apply(c, n, Admit(k)))
  {
    AcceptLoopKeepsHistory(c, n, Admit(k));
    AdmitKeepsWired(c, n, k);
  }

  lemma TurnAwayKeepsWired(c: Config, n: Net, k: nat)
    requires ValidConfig(c) && Wired(c, n) && Enabled(c, n, TurnAway(k))
    ensures Wired(c, Apply(c, n, TurnAway(k)))
  {
    QuietKeepsConns(c, n, Apply(c, n, TurnAway(k)));
    TakenKeepsArrivals(c, n, k, Apply(c, n, TurnAway(k)).conns[k]);
    TurnAwayKeepsBytes(c, n, k);
  }

  lemma TurnAwayKeeps(c: Config, n: Net, k: nat)
    requires ValidConfig(c) && Inv(c, n) && Enabled(c, n, TurnAway(k))
    ensures Inv(c, Apply(c, n, TurnAway(k)))
  {
    AcceptLoopKeepsHistory(c, n, TurnAway(k));
    TurnAwayKeepsWired(c, n, k);
  }

  lemma NewTestKeepsWired(c: Config, n: Net, k: nat)
    requires ValidConfig(c) && Wired(c, n) && Enabled(c, n, NewTestInstead(k))
    ensures Wired(c, Apply(c, n, NewTestInstead(k)))
  {
    QuietKeepsConns(c, n, Apply(c, n, NewTestInstead(k)));
    TakenKeepsArrivals(c, n, k, Apply(c, n, NewTestInstead(k)).conns[k]);
    NewTestKeepsBytes(c, n, k);
  }

  lemma NewTestKeeps(c: Config, n: Net, k: nat)
    requires ValidConfig(c) && Inv(c, n) && Enabled(c, n, NewTestInstead(k))
    ensures Inv(c, Apply(c, n, NewTestInstead(k)))
  {
    AcceptLoopKeepsHistory(c, n, NewTestInstead(k));
    NewTestKeepsWired(c, n, k);
  }

  lemma CheckKeepsWired(c: Config, n: Net)
    requires ValidConfig(c) && Wired(c, n) && Enabled(c, n, CheckCookie)
    ensures Wired(c, Apply(c, n, CheckCookie))
  {
    QuietKeepsConns(c, n, Apply(c, n, CheckCookie));
    CheckKeepsArrivals(c, n);
    CheckKeepsBytes(c, n);
  }

  lemma CheckKeeps(c: Config, n: Net)
    requires ValidConfig(c) && Inv(c, n) && Enabled(c, n, CheckCookie)
    ensures Inv(c, Apply(c, n, CheckCookie))
  {
    AcceptLoopKeepsHistory(c, n, CheckCookie);
    CheckKeepsWired(c, n);
  }

  lemma EnqueueKeepsWired(c: Config, n: Net)
    requires Wired(c, n) && Enabled(c, n, Enqueue)
    ensures Wired(c, Apply(c, n, Enqueue))
  {
    var m := Apply(c, n, Enqueue);
    QuietKeepsConns(c, n, m);
    EnqueueKeepsArrivals(c, n);
    QueueConnsAppend(n.server.queue, CreateStream(n.gate.conn));
    QuietKeepsBytes(c, n, m);
  }

  /** A message from the accept loop in the server's queue changes nothing else of the two sides. */
  lemma NoticedKeepsRest(c: Config, n: Net, m: ControllerMessage, gate: Gate)
    requires SideInv(c, n.server) && HistoryInv(c, n) && ExchangeInv(n) && !m.StreamTerminated?
    ensures var o := n.(server := TrySend(n.server, m), gate := gate);
            SideInv(c, o.server) && HistoryInv(c, o) && ExchangeInv(o)
  {
    TrySendKeeps(c, n.server, m);
    EnqueueKeepsHistory(c, n, m, gate);
    SideKeepsExchange(n, Server, TrySend(n.server, m));
  }

  lemma EnqueueKeeps(c: Config, n: Net)
    requires ValidConfig(c) && Inv(c, n) && Enabled(c, n, Enqueue)
    ensures Inv(c, Apply(c, n, Enqueue))
  {
    NoticedKeepsRest(c, n, CreateStream(n.gate.conn), Open);
    EnqueueKeepsWired(c, n);
  }

  /** A connection that goes wrong, the test's own or a stranger's, can only ask the controller to stop. */
  lemma AlarmKeepsWired(c: Config, n: Net, gate: Gate)
    requires Wired(c, n) && (gate == n.gate || gate.Open?)
    ensures Wired(c, n.(server := TrySend(n.server, Stop), gate := gate))
  {
    var m := n.(server := TrySend(n.server, Stop), gate := gate);
    QuietKeepsConns(c, n, m);
    StopKeepsArrivals(c, n);
    QueueConnsAppend(n.server.queue, Stop);
    QuietKeepsBytes(c, n, m);
  }

  lemma AlarmKeeps(c: Config, n: Net, gate: Gate)
    requires ValidConfig(c) && Inv(c, n) && (gate == n.gate || gate.Open?)
    ensures Inv(c, n.(server := TrySend(n.server, Stop), gate := gate))
  {
    NoticedKeepsRest(c, n, Stop, gate);
    AlarmKeepsWired(c, n, gate);
  }

  // ---- The workers ----

  /** A worker's announcement in the queue concerns no connection. */
  lemma NoticeKeepsWired(c: Config, n: Net, role: Role, id: nat)
    requires Wired(c, n)
    ensures Wired(c, WithSide(n, role, TrySend(SideOf(n, role), StreamTerminated(id))))
  {
    QueueConnsAppend(n.server.queue, StreamTerminated(id));
    UnmovedKeepsWired(c, n, WithSide(n, role, TrySend(SideOf(n, role), StreamTerminated(id))));
  }

  /** A task changes its state without touching its connection. */
  lemma TaskKeepsWired(c: Config, n: Net, role: Role, id: nat, task: Task)
    requires Wired(c, n) && id < |SideOf(n, role).streams| && !SideOf(n, role).streams[id].task.Failed?
    requires task.Failed? || Counted(task) == Counted(SideOf(n, role).streams[id].task)
    ensures Wired(c, WithSide(n, role, SetTask(SideOf(n, role), id, task)))
  {
    var m := WithSide(n, role, SetTask(SideOf(n, role), id, task));
    assert StreamConns(m.client.streams) == StreamConns(n.client.streams);
    assert StreamConns(m.server.streams) == StreamConns(n.server.streams);
    QuietKeepsConns(c, n, m);
    QuietKeepsArrivals(c, n, m);
    TaskKeepsBytes(c, n, role, id, task);
  }

  lemma TaskKeepsExchange(n: Net, role: Role, id: nat, task: Task, notice: bool)
    requires ExchangeInv(n) && id < |SideOf(n, role).streams|
    ensures var s := SetTask(SideOf(n, role), id, task);
            ExchangeInv(WithSide(n, role, if notice then TrySend(s, StreamTerminated(id)) else s))
  {
    var s := SetTask(SideOf(n, role), id, task);
    SideKeepsExchange(n, role, if notice then TrySend(s, StreamTerminated(id)) else s);
  }

  /** A task changes without a byte moving, and its side still makes sense. */
  lemma TaskKeeps(c: Config, n: Net, role: Role, id: nat, task: Task)
    requires Inv(c, n) && id < |SideOf(n, role).streams| && !SideOf(n, role).streams[id].task.Failed?
    requires task.Failed? || Counted(task) == Counted(SideOf(n, role).streams[id].task)
    requires SideInv(c, SetTask(SideOf(n, role), id, task))
    ensures Inv(c, WithSide(n, role, SetTask(SideOf(n, role), id, task)))
  {
    assert n.(conns := n.conns) == n;
    WorkerKeepsHistory(c, n, role, id, task, n.conns);
    TaskKeepsExchange(n, role, id, task, false);
    TaskKeepsWired(c, n, role, id, task);
  }

  lemma StartWorkerKeepsAll(c: Config, n: Net, role: Role, id: nat, startTime: nat, gap: nat)
    requires ValidConfig(c) && Inv(c, n) && Enabled(c, n, StartWorker(role, id, startTime, gap))
    ensures Inv(c, Apply(c, n, StartWorker(role, id, startTime, gap)))
  {
    StartWorkerKeeps(c, SideOf(n, role), id, startTime, gap);
    TaskKeeps(c, n, role, id, Started(SideOf(n, role), id, startTime, gap));
  }

  lemma WorkerDiesKeeps(c: Config, n: Net, role: Role, id: nat)
    requires ValidConfig(c) && Inv(c, n) && Enabled(c, n, WorkerDies(role, id))
    ensures Inv(c, Apply(c, n, WorkerDies(role, id)))
  {
    SetTaskKeeps(c, SideOf(n, role), id, Failed);
    TaskKeeps(c, n, role, id, Failed);
  }

  /** What one run of a loop body comes to: a new task, announced if it has returned. */
  lemma MeasuredShape(c: Config, s: Side, id: nat, t: W.Tick, e: W.Ending) returns (task: Task)
    requires SideInv(c, s) && id < |s.streams| && s.streams[id].task.Loading? && W.ValidTick(c.params, t)
    requires t.signal == SignalOf(s, s.streams[id].task.cursor)
    ensures task == Measured(c, s, id, t, e).streams[id].task && !task.Waiting?
    ensures var r := SetTask(s, id, task);
            Measured(c, s, id, t, e) == if task.Returned? then TrySend(r, StreamTerminated(id)) else r
    ensures task.Failed? || Counted(task) == Counted(s.streams[id].task)
                                            + W.Transferred(EndpointOf(c, s, id), s.streams[id].task.meter, t)
    ensures |s.streams| == c.Total()
  {
    task := Measured(c, s, id, t, e).streams[id].task;
    MeasuredKeeps(c, s, id, t, e);
    assert s.streams[id].task.Loading? && s.oldState.Running?;
  }

  /** The worker's bytes leave or enter its own connection and are counted. */
  lemma MovesKeepWired(c: Config, n: Net, role: Role, id: nat, count: nat, task: Task)
    requires Wired(c, n) && id < |SideOf(n, role).streams| && |SideOf(n, role).streams| == c.Total()
    requires var stream := SideOf(n, role).streams[id];
             && stream.conn < |n.conns| && !stream.task.Failed?
             && (task.Failed? || Counted(task) == Counted(stream.task) + count)
             && (!stream.isSending ==> count <= |InPipe(role, n.conns[stream.conn]).Unread()|)
    ensures var stream := SideOf(n, role).streams[id];
            Wired(c, WithSide(SetConn(n, stream.conn, Move(role, stream.isSending, n.conns[stream.conn], count)),
                              role, SetTask(SideOf(n, role), id, task)))
  {
    var stream := SideOf(n, role).streams[id];
    var moved := SetConn(n, stream.conn, Move(role, stream.isSending, n.conns[stream.conn], count));
    var m := WithSide(moved, role, SetTask(SideOf(n, role), id, task));
    if role.Server? {
      NumberingAgrees(c, n);
      ServerMoveKeepsBytes(c, n, id, count, task);
    } else {
      ClientMoveKeepsBytes(c, n, id, count, task);
    }
    assert StreamConns(m.client.streams) == StreamConns(n.client.streams);
    assert StreamConns(m.server.streams) == StreamConns(n.server.streams);
    QuietKeepsConns(c, n, m);
    QuietKeepsArrivals(c, n, m);
  }

  /** What a run of a worker's loop body makes of the network. */
  lemma MeasureResult(c: Config, n: Net, role: Role, id: nat, t: W.Tick, e: W.Ending)
    returns (task: Task, conns: seq<Conn>)
    requires SideInv(c, SideOf(n, role)) && Wired(c, n) && CanMeasure(c, n, role, id, t)
    ensures var s := SetTask(SideOf(n, role), id, task);
            var r := if task.Returned? then TrySend(s, StreamTerminated(id)) else s;
            && ApplyMeasure(c, n, role, id, t, e) == WithSide(n.(conns := conns), role, r)
            && SideInv(c, r)
            && Wired(c, WithSide(n.(conns := conns), role, s))
  {
    var s := SideOf(n, role);
    var stream := s.streams[id];
    var count := W.Transferred(EndpointOf(c, s, id), stream.task.meter, t);
    task := MeasuredShape(c, s, id, t, e);
    MeasuredKeeps(c, s, id, t, e);
    conns := SetConn(n, stream.conn, Move(role, stream.isSending, n.conns[stream.conn], count)).conns;
    MovesKeepWired(c, n, role, id, count, task);
  }

  lemma SettledKeeps(c: Config, n: Net, role: Role, id: nat, task: Task, conns: seq<Conn>)
    requires HistoryInv(c, n) && ExchangeInv(n) && id < |SideOf(n, role).streams|
    requires Wired(c, WithSide(n.(conns := conns), role, SetTask(SideOf(n, role), id, task)))
    ensures var s := SetTask(SideOf(n, role), id, task);
            var m := WithSide(n.(conns := conns), role, if task.Returned? then TrySend(s, StreamTerminated(id)) else s);
            HistoryInv(c, m) && ExchangeInv(m) && Wired(c, m)
  {
    WorkerKeepsHistory(c, n, role, id, task, conns);
    TaskKeepsExchange(n.(conns := conns), role, id, task, task.Returned?);
    NoticeKeepsWired(c, WithSide(n.(conns := conns), role, SetTask(SideOf(n, role), id, task)), role, id);
  }

  lemma MeasureKeeps(c: Config, n: Net, role: Role, id: nat, t: W.Tick, e: W.Ending)
    requires ValidConfig(c) && Inv(c, n) && CanMeasure(c, n, role, id, t)
    ensures Inv(c, ApplyMeasure(c, n, role, id, t, e))
  {
    var task, conns := MeasureResult(c, n, role, id, t, e);
    SettledKeeps(c, n, role, id, task, conns);
  }

  // ---- Every step, every run ----

  lemma InitSideHolds(c: Config, role: Role)
    ensures SideInv(c, InitialSide(role))
  {
  }

  lemma InitHistoryHolds(c: Config)
    ensures HistoryInv(c, Init()) && ExchangeInv(Init())
  {
    assert SetStates(Init().script[1..]) == [];
  }

  lemma InitHolds(c: Config)
    requires ValidConfig(c)
    ensures Inv(c, Init())
  {
    InitSideHolds(c, Server);
    InitSideHolds(c, Client);
    InitHistoryHolds(c);
    assert Wired(c, Init());
  }

  lemma AcceptLoopStepKeeps(c: Config, n: Net, step: Step)
    requires ValidConfig(c) && Inv(c, n) && Enabled(c, n, step)
    requires step.ByAcceptLoop()
    ensures Inv(c, Apply(c, n, step))
  {
    match step
    case Admit(k) => AdmitKeeps(c, n, k);
    case TurnAway(k) => TurnAwayKeeps(c, n, k);
    case CheckCookie => CheckKeeps(c, n);
    case Enqueue => EnqueueKeeps(c, n);
    case GateFails => AlarmKeeps(c, n, Open);
    case Stray => AlarmKeeps(c, n, n.gate);
    case NewTestInstead(k) => NewTestKeeps(c, n, k);
  }

  lemma WorkerStepKeeps(c: Config, n: Net, step: Step)
    requires ValidConfig(c) && Inv(c, n) && Enabled(c, n, step)
    requires step.ByWorker()
    ensures Inv(c, Apply(c, n, step))
  {
    match step
    case StartWorker(role, id, startTime, gap) => StartWorkerKeepsAll(c, n, role, id, startTime, gap);
    case Measure(role, id, tick, ending) => MeasureKeeps(c, n, role, id, tick, ending);
    case WorkerDies(role, id) => WorkerDiesKeeps(c, n, role, id);
  }

  lemma OneSidedStepKeeps(c: Config, n: Net, step: Step)
    requires ValidConfig(c) && Inv(c, n) && Enabled(c, n, step)
    requires step.AnnounceStart? || step.CommitState? || step.Reply? || step.Connect? || step.ReadWelcome?
             || step.Follow?
    ensures Inv(c, Apply(c, n, step))
  {
    match step
    case AnnounceStart => AnnounceStartKeeps(c, n);
    case CommitState => CommitKeeps(c, n);
    case Reply => ReplyKeeps(c, n);
    case Connect => ConnectKeeps(c, n);
    case ReadWelcome => ReadWelcomeKeeps(c, n);
    case Follow => FollowKeeps(c, n);
  }

  lemma LoopStepKeeps(c: Config, n: Net, step: Step)
    requires ValidConfig(c) && Inv(c, n) && Enabled(c, n, step)
    requires step.WakeUp? || step.WindUp? || step.TakeMessage? || step.ShutDown?
    ensures Inv(c, Apply(c, n, step))
  {
    match step
    case WakeUp(role, shutdown) => WakeUpKeeps(c, n, role, shutdown);
    case WindUp(role) => WindUpKeeps(c, n, role);
    case TakeMessage(Server) => ServerMessageKeeps(c, n);
    case TakeMessage(Client) => ClientMessageKeeps(c, n);
    case ShutDown(role) => ShutDownKeeps(c, n, role);
  }

  lemma EndStepKeeps(c: Config, n: Net, step: Step)
    requires ValidConfig(c) && Inv(c, n) && Enabled(c, n, step)
    requires step.Drain? || step.DrainEnds? || step.TakeResults? || step.Abort?
    ensures Inv(c, Apply(c, n, step))
  {
    match step
    case Drain(role, id) => DrainKeepsAll(c, n, role, id);
    case DrainEnds(role) => DrainEndsKeeps(c, n, role);
    case TakeResults(role) => TakeResultsKeeps(c, n, role);
    case Abort(role) => AbortKeeps(c, n, role);
  }

  lemma StepKeepsInv(c: Config, n: Net, step: Step)
    requires ValidConfig(c) && Inv(c, n) && Enabled(c, n, step)
    ensures Inv(c, Apply(c, n, step))
  {
    if step.ByWorker() {
      WorkerStepKeeps(c, n, step);
    } else if step.AnnounceStart? || step.CommitState? || step.Reply? || step.Connect? || step.ReadWelcome?
              || step.Follow? {
      OneSidedStepKeeps(c, n, step);
    } else if step.WakeUp? || step.WindUp? || step.TakeMessage? || step.ShutDown? {
      LoopStepKeeps(c, n, step);
    } else if step.Drain? || step.DrainEnds? || step.TakeResults? || step.Abort? {
      EndStepKeeps(c, n, step);
    } else {
      AcceptLoopStepKeeps(c, n, step);
    }
  }

  lemma {:induction false} RunKeepsInv(c: Config, n: Net, steps: seq<Step>)
    requires ValidConfig(c) && Inv(c, n) && CanRun(c, n, steps)
    ensures Inv(c, After(c, n, steps))
    decreases |steps|
  {
    if steps != [] {
      StepKeepsInv(c, n, steps[0]);
      RunKeepsInv(c, Apply(c, n, steps[0]), steps[1..]);
    }
  }

  /** The invariant holds in every reachable state. */
  lemma ReachableInv(c: Config, n: Net)
    requires ValidConfig(c) && Reachable(c, n)
    ensures Inv(c, n)
  {
    var steps :| CanRun(c, Init(), steps) && After(c, Init(), steps) == n;
    InitHolds(c);
    RunKeepsInv(c, Init(), steps);
  }
}
