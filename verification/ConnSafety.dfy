/** Every step keeps the numbering of the data connections on both sides. */
module ConnSafety {
  import opened Messages
  import opened Control
  import opened Protocol
  import opened Invariant
  import HistorySafety

  // ---- The connections the server has let in ----

  lemma {:induction false} QueueConnsAppend(queue: seq<ControllerMessage>, m: ControllerMessage)
    ensures QueueConns(queue + [m]) == QueueConns(queue) + (if m.CreateStream? then [m.conn] else [])
  {
    if queue == [] {
      assert queue + [m] == [m];
    } else {
      assert (queue + [m])[1..] == queue[1..] + [m];
      QueueConnsAppend(queue[1..], m);
    }
  }

  lemma {:induction false} QueueConnsMember(queue: seq<ControllerMessage>, k: nat)
    ensures k in QueueConns(queue) <==> CreateStream(k) in queue
  {
    if queue != [] {
      QueueConnsMember(queue[1..], k);
      assert queue == [queue[0]] + queue[1..];
    }
  }

  /** An increasing sequence of numbers below `bound` has at most `bound` of them. */
  lemma {:induction false} IncreasingIsShort(s: seq<nat>, bound: nat)
    requires Increasing(s) && forall k :: k in s ==> k < bound
    ensures |s| <= bound
  {
    if s != [] {
      var last := s[|s| - 1];
      assert last in s;
      var front := s[..|s| - 1];
      forall k | k in front ensures k < last {
        var i :| 0 <= i < |front| && front[i] == k;
        assert s[i] == k;
      }
      IncreasingIsShort(front, last);
    }
  }

  /** If it has as many as that, it counts through them all. */
  lemma {:induction false} IncreasingAndFull(s: seq<nat>, bound: nat)
    requires Increasing(s) && |s| == bound && forall k :: k in s ==> k < bound
    ensures forall i :: 0 <= i < |s| ==> s[i] == i
  {
    if s != [] {
      var last := s[|s| - 1];
      assert last in s;
      var front := s[..|s| - 1];
      forall k | k in front ensures k < last {
        var i :| 0 <= i < |front| && front[i] == k;
        assert s[i] == k;
      }
      IncreasingIsShort(front, last);
      IncreasingAndFull(front, bound - 1);
    }
  }

  /** The parts of Arrivals are increasing, and there are no more arrivals than connections. */
  lemma ArrivalsFit(c: Config, n: Net)
    requires ConnsInv(c, n) && ArrivalsInv(c, n)
    ensures |n.server.streams| + |QueueConns(n.server.queue)| + |GateConns(n.gate)| <= |n.conns| <= c.Total()
  {
    IncreasingIsShort(Arrivals(n), |n.conns|);
  }

  /** Once the server has as many streams as the test needs, its numbering is the client's. */
  lemma NumberingAgrees(c: Config, n: Net)
    requires ConnsInv(c, n) && ArrivalsInv(c, n) && |n.server.streams| == c.Total()
    ensures |n.conns| == c.Total() && QueueConns(n.server.queue) == [] && n.gate.Open?
    ensures forall i :: 0 <= i < c.Total() ==> n.server.streams[i].conn == i
  {
    ArrivalsFit(c, n);
    assert Arrivals(n) == StreamConns(n.server.streams);
    IncreasingAndFull(Arrivals(n), c.Total());
    forall i | 0 <= i < c.Total() ensures n.server.streams[i].conn == i {
      assert Arrivals(n)[i] == i;
    }
  }

  /** So a stream in the server's queue means the server is still creating streams. */
  lemma QueuedInTime(c: Config, n: Net)
    requires HistoryInv(c, n) && SideInv(c, n.server) && ConnsInv(c, n) && ArrivalsInv(c, n) && n.server.pc.Select?
    ensures HistorySafety.AcceptsInTime(n.server)
    ensures n.server.queue != [] && n.server.queue[0].CreateStream? ==>
              !Ran(n) && |n.server.streams| < c.Total() && n.server.workers == Ids(|n.server.streams|)
  {
    if n.server.queue != [] && n.server.queue[0].CreateStream? {
      ArrivalsFit(c, n);
      HistorySafety.ChainShape(c, n.script);
      forall i: nat ensures i in n.server.workers <==> i < |n.server.streams| {
      }
      assert n.server.workers == Ids(|n.server.streams|);
    }
  }

  lemma AnnouncedMeans(c: Config, n: Net)
    requires HistoryInv(c, n) && PcFits(n.server) && n.server.pc.Select?
    ensures n.server.state.Running? <==> Ran(n)
    ensures !Exchanging(n) && |n.script| > 1
    ensures Ran(n) ==> |n.script| == 3
    ensures n.server.state.CreateStreams? ==> |n.script| == 2
  {
    HistorySafety.ChainShape(c, n.script);
  }

  lemma IncreasingPrefix(s: seq<nat>, prefix: seq<nat>, rest: seq<nat>)
    requires s == prefix + rest && Increasing(s)
    ensures Increasing(prefix) && forall k :: k in prefix ==> k in s
  {
    forall i, j | 0 <= i < j < |prefix| ensures prefix[i] < prefix[j] {
      assert s[i] < s[j];
    }
  }

  /** Steps that only change where the server is, not what it has let in. */
  lemma QuietKeepsArrivals(c: Config, n: Net, m: Net)
    requires ArrivalsInv(c, n) && |n.conns| <= |m.conns|
    requires forall k :: 0 <= k < |n.conns| && n.conns[k].taken ==> m.conns[k].taken
    requires m.gate == n.gate && m.script == n.script && m.server.state == n.server.state
    requires QueueConns(m.server.queue) == QueueConns(n.server.queue)
    requires StreamConns(m.server.streams) == StreamConns(n.server.streams) && |m.server.streams| == |n.server.streams|
    requires Exchanging(n) ==> m.server.workers == {} && m.server.lost == {}
    ensures ArrivalsInv(c, m)
  {
    assert Arrivals(m) == Arrivals(n);
  }

  /** What accepting the first stream of the queue does: Running is announced with the last stream. */
  lemma AcceptResult(c: Config, n: Net)
    requires n.server.role.Server? && Enabled(c, n, TakeMessage(Server)) && n.server.queue[0].CreateStream?
    requires n.server.workers == Ids(|n.server.streams|)
    ensures var m, last := Apply(c, n, TakeMessage(Server)), |n.server.streams| + 1 == c.Total();
            && |m.server.streams| == |n.server.streams| + 1
            && StreamConns(m.server.streams) == StreamConns(n.server.streams) + [n.server.queue[0].conn]
            && m.server.queue == n.server.queue[1..] && m.server.state == n.server.state
            && m.conns == n.conns && m.gate == n.gate
            && m.script == (if last then n.script + [Running] else n.script)
            && m.server.pc == (if last then Announced(Running) else Top)
  {
    var r := Register(c.params, n.server.(queue := n.server.queue[1..]), n.server.queue[0].conn);
    assert r.workers == Ids(|n.server.streams| + 1);
  }

  /** A connection moves from the head of the queue to the end of the streams. */
  lemma MovedArrivals(c: Config, n: Net, m: Net)
    requires ArrivalsInv(c, n) && |n.script| == 2 && |n.server.streams| < c.Total()
    requires n.server.queue != [] && n.server.queue[0].CreateStream? && m.server.queue == n.server.queue[1..]
    requires StreamConns(m.server.streams) == StreamConns(n.server.streams) + [n.server.queue[0].conn]
    requires m.conns == n.conns && m.gate == n.gate && m.server.state == n.server.state
    requires |m.server.streams| == |n.server.streams| + 1
    requires m.script == (if |m.server.streams| == c.Total() then n.script + [Running] else n.script)
    ensures ArrivalsInv(c, m)
  {
    assert QueueConns(n.server.queue) == [n.server.queue[0].conn] + QueueConns(n.server.queue[1..]);
    assert Arrivals(m) == Arrivals(n);
  }

  lemma AcceptKeepsArrivals(c: Config, n: Net)
    requires HistoryInv(c, n) && SideInv(c, n.server) && ConnsInv(c, n) && ArrivalsInv(c, n)
    requires Enabled(c, n, TakeMessage(Server)) && n.server.queue[0].CreateStream?
    ensures ArrivalsInv(c, Apply(c, n, TakeMessage(Server)))
  {
    var m := Apply(c, n, TakeMessage(Server));
    MovedArrivals(c, n, m) by {
      QueuedInTime(c, n);
      AnnouncedMeans(c, n);
      AcceptResult(c, n);
    }
  }

  /** What any other message does to the server's part of the numbering. */
  lemma EndedMeans(c: Config, n: Net)
    requires HistoryInv(c, n) && SideInv(c, n.server) && Enabled(c, n, TakeMessage(Server))
             && !n.server.queue[0].CreateStream?
    ensures var m := Apply(c, n, TakeMessage(Server));
            && m.conns == n.conns && m.gate == n.gate && m.server.state == n.server.state
            && m.server.streams == n.server.streams && QueueConns(m.server.queue) == QueueConns(n.server.queue)
            && m.server.lost == {} && (Ran(m) <==> Ran(n)) && (Exchanging(m) ==> m.server.workers == {})
  {
    AnnouncedMeans(c, n);
    assert n.server.queue[0] in n.server.queue;
  }

  lemma EndedKeepsArrivals(c: Config, n: Net)
    requires HistoryInv(c, n) && SideInv(c, n.server) && ArrivalsInv(c, n)
    requires Enabled(c, n, TakeMessage(Server)) && !n.server.queue[0].CreateStream?
    ensures ArrivalsInv(c, Apply(c, n, TakeMessage(Server)))
  {
    var m := Apply(c, n, TakeMessage(Server));
    EndedMeans(c, n);
    assert Arrivals(m) == Arrivals(n);
  }

  lemma AnnounceKeepsArrivals(c: Config, n: Net, s: Side)
    requires HistoryInv(c, n) && ArrivalsInv(c, n) && s.pc.Announced?
    requires s == n.server.(pc := s.pc)
    requires (s.pc.next.CreateStreams? && |n.script| == 1) || (s.pc.next.Terminate? && 2 <= |n.script| <= 3)
    ensures ArrivalsInv(c, Announce(n, s))
  {
    assert Arrivals(Announce(n, s)) == Arrivals(n);
  }

  lemma CommitKeepsArrivals(c: Config, n: Net)
    requires ArrivalsInv(c, n) && Enabled(c, n, CommitState)
    ensures ArrivalsInv(c, Apply(c, n, CommitState))
  {
    assert Arrivals(Apply(c, n, CommitState)) == Arrivals(n);
  }

  /** A connection that has just been taken comes after every arrival. */
  lemma AdmitKeepsArrivals(c: Config, n: Net, k: nat)
    requires ConnsInv(c, n) && ArrivalsInv(c, n) && Enabled(c, n, Admit(k))
    ensures ArrivalsInv(c, Apply(c, n, Admit(k)))
  {
    var m := Apply(c, n, Admit(k));
    assert Arrivals(m) == Arrivals(n) + [k];
    assert k == |n.conns| - 1;
    forall i | 0 <= i < |Arrivals(n)| ensures Arrivals(n)[i] < k {
      assert Arrivals(n)[i] in Arrivals(n);
    }
  }

  /** Taking a connection without letting it in. */
  lemma TakenKeepsArrivals(c: Config, n: Net, k: nat, conn: Conn)
    requires ArrivalsInv(c, n) && k < |n.conns| && conn.taken
    ensures ArrivalsInv(c, SetConn(n, k, conn))
  {
    assert Arrivals(SetConn(n, k, conn)) == Arrivals(n);
  }

  lemma CheckKeepsArrivals(c: Config, n: Net)
    requires ArrivalsInv(c, n) && Enabled(c, n, CheckCookie)
    ensures ArrivalsInv(c, Apply(c, n, CheckCookie))
  {
    var m := Apply(c, n, CheckCookie);
    assert n.gate.conn in Arrivals(n);
    var rest := if m.gate.Open? then [n.gate.conn] else [];
    assert Arrivals(n) == Arrivals(m) + rest;
    IncreasingPrefix(Arrivals(n), Arrivals(m), rest);
  }

  /** A full queue loses the connection; otherwise it moves from the accept loop to the queue. */
  lemma EnqueueKeepsArrivals(c: Config, n: Net)
    requires ArrivalsInv(c, n) && Enabled(c, n, Enqueue)
    ensures ArrivalsInv(c, Apply(c, n, Enqueue))
  {
    var m := Apply(c, n, Enqueue);
    QueueConnsAppend(n.server.queue, CreateStream(n.gate.conn));
    var rest := if m.server == n.server then [n.gate.conn] else [];
    assert Arrivals(n) == Arrivals(m) + rest;
    IncreasingPrefix(Arrivals(n), Arrivals(m), rest);
  }

  lemma StopKeepsArrivals(c: Config, n: Net)
    requires ArrivalsInv(c, n)
    ensures ArrivalsInv(c, n.(server := TrySend(n.server, Stop)))
    ensures ArrivalsInv(c, n.(server := TrySend(n.server, Stop), gate := Open))
  {
    QueueConnsAppend(n.server.queue, Stop);
    var m := n.(server := TrySend(n.server, Stop));
    assert Arrivals(m) == Arrivals(n);
    var o := m.(gate := Open);
    assert Arrivals(n) == Arrivals(o) + GateConns(n.gate);
    IncreasingPrefix(Arrivals(n), Arrivals(o), GateConns(n.gate));
  }

  // ---- The connections the client has opened ----

  /** Steps that leave the connections, and how far the client has come, alone. */
  lemma QuietKeepsConns(c: Config, n: Net, m: Net)
    requires ConnsInv(c, n)
    requires |m.conns| == |n.conns| && forall k :: 0 <= k < |n.conns| && n.conns[k].taken ==> m.conns[k].taken
    requires |m.script| >= |n.script|
    requires m.client.state == n.client.state && |m.client.history| >= |n.client.history|
    requires StreamConns(m.client.streams) == StreamConns(n.client.streams)
    requires m.client.pc == n.client.pc || m.client.pc.Aborted?
             || (!n.client.pc.AwaitWelcome? && !n.client.pc.Aborted? && !m.client.pc.AwaitWelcome?
                 && (m.client.pc.Select? && n.client.state.CreateStreams? ==> |n.client.streams| == c.Total()))
    ensures ConnsInv(c, m)
  {
    assert |m.client.streams| == |StreamConns(m.client.streams)| == |n.client.streams|;
    forall i | 0 <= i < |m.client.streams| ensures m.client.streams[i].conn == i && m.conns[i].taken {
      assert StreamConns(m.client.streams)[i] == n.client.streams[i].conn;
    }
  }

  lemma ConnectKeepsConns(c: Config, n: Net)
    requires ConnsInv(c, n) && HistoryInv(c, n) && !n.stopped && Enabled(c, n, Connect)
    ensures ConnsInv(c, Apply(c, n, Connect))
  {
    HistorySafety.PrefixShape(c, n.script, n.client.history);
    HistorySafety.ChainShape(c, n.client.history);
  }

  lemma ReadWelcomeKeepsConns(c: Config, n: Net)
    requires ConnsInv(c, n) && SideInv(c, n.client) && Enabled(c, n, ReadWelcome)
    requires n.conns[n.client.pc.conn].taken
    ensures ConnsInv(c, Apply(c, n, ReadWelcome))
  {
  }

  /** A client that follows the server into Running has opened every connection. */
  lemma FollowKeepsConns(c: Config, n: Net)
    requires ConnsInv(c, n) && SideInv(c, n.client) && Enabled(c, n, Follow)
    requires n.toClient[0].SetState? && Follows(c, n.client.state, n.toClient[0].state)
    ensures ConnsInv(c, Apply(c, n, Follow))
  {
  }

  lemma ClientStopsKeepsConns(c: Config, n: Net, queue: seq<ControllerMessage>)
    requires ConnsInv(c, n) && n.client.pc.Select? && n.client.role.Client?
    ensures ConnsInv(c, n.(client := RequestState(n.client.(queue := queue), Terminate), stopped := true))
  {
  }
}
