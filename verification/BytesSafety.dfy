/**
 * Every step accounts for every byte on every data connection: the handshake frames are read
 * exactly, and everything after them was moved, and counted, by one worker at each end.
 */
module BytesSafety {
  import opened Messages
  import opened Control
  import opened Framing
  import opened Protocol
  import opened Invariant
  import ConnSafety

  /** The server reads exactly the client's hello. */
  lemma HelloReads(c: Config, conn: Conn)
    requires ValidConfig(c) && ConnFits(c, conn) && conn.up.read == 0
    ensures ServerReads(c.codec, conn.up.Unread()) == Message(Hello(c.cookie), |c.hello|)
  {
    var tail := conn.up.written[|c.hello|..];
    assert conn.up.Unread() == c.hello + tail;
    EnvelopesRoundTrip(c.codec, ServerEnvelope.ServerMessage(Welcome), Hello(c.cookie), tail);
  }

  /** The client reads exactly the server's welcome, even when measured data already follows it. */
  lemma WelcomeReads(c: Config, conn: Conn)
    requires ValidConfig(c) && conn.down.read == 0 && c.welcome <= conn.down.written
    ensures ClientReads(c.codec, conn.down.Unread()) == Message(Welcome, |c.welcome|)
  {
    var tail := conn.down.written[|c.welcome|..];
    assert conn.down.Unread() == c.welcome + tail;
    EnvelopesRoundTrip(c.codec, ServerEnvelope.ServerMessage(Welcome), Hello(c.cookie), tail);
  }

  /** Whatever reply the client can read is the welcome or the refusal, and it reads all of it. */
  lemma ReplyReads(c: Config, conn: Conn)
    requires ValidConfig(c) && ConnFits(c, conn) && conn.down.read == 0
    requires !ClientReads(c.codec, conn.down.Unread()).Unreadable?
    ensures conn.down.written != []
    ensures var r := ClientReads(c.codec, conn.down.Unread());
            && (r.Message? ==> r == Message(Welcome, |c.welcome|) && c.welcome <= conn.down.written)
            && (r.Refused? ==> r.used == |conn.down.written|)
  {
    assert conn.down.Unread() == conn.down.written;
    if c.welcome <= conn.down.written {
      WelcomeReads(c, conn);
    } else if conn.down.written == c.refusal {
      assert conn.down.written == c.refusal + [];
      EnvelopesRoundTrip(c.codec, ServerFailure(PerfTestAlreadyInFlight), Hello(c.cookie), []);
    }
  }

  /** Nothing that is counted or carried changes. */
  lemma QuietKeepsBytes(c: Config, n: Net, m: Net)
    requires BytesInv(c, n) && m.conns == n.conns
    requires m.client.streams == n.client.streams && m.server.streams == n.server.streams
    requires forall k :: k in QueueConns(m.server.queue) ==>
               k in QueueConns(n.server.queue) || (n.gate.Welcoming? && k == n.gate.conn)
    requires m.gate == n.gate || m.gate.Open?
    requires n.client.pc.Aborted? ==> m.client.pc.Aborted?
    ensures BytesInv(c, m)
  {
  }

  lemma ConnectKeepsBytes(c: Config, n: Net)
    requires BytesInv(c, n) && ConnsInv(c, n) && Enabled(c, n, Connect)
    requires forall k :: k in QueueConns(n.server.queue) ==> k < |n.conns|
    ensures BytesInv(c, Apply(c, n, Connect))
  {
  }

  /** An accepted change to one connection that leaves what the other parts of the invariant use. */
  lemma OtherEnds(c: Config, streams: seq<DataStream>, conns: seq<Conn>, k: nat, conn: Conn)
    requires k < |conns|
    ensures ClientEnds(c, streams, conns) && k !in StreamConns(streams) ==> ClientEnds(c, streams, conns[k := conn])
    ensures ServerEnds(c, streams, conns) && k !in StreamConns(streams) ==> ServerEnds(c, streams, conns[k := conn])
  {
    forall i | 0 <= i < |streams| && k !in StreamConns(streams) ensures streams[i].conn != k {
      assert StreamConns(streams)[i] == streams[i].conn;
    }
  }

  /** The client's new stream starts with nothing counted and the reply just read. */
  lemma JoinKeepsBytes(c: Config, n: Net, k: nat)
    requires BytesInv(c, n) && ConnsInv(c, n) && k == |n.client.streams| && |n.conns| == k + 1
    requires n.conns[k].down.read == 0 && c.welcome <= n.conns[k].down.written
    ensures BytesInv(c, SetConn(n, k, n.conns[k].(down := Advance(n.conns[k].down, |c.welcome|)))
                          .(client := Register(c.params, n.client, k).(pc := Top)))
  {
    var conn := n.conns[k].(down := Advance(n.conns[k].down, |c.welcome|));
    var m := SetConn(n, k, conn).(client := Register(c.params, n.client, k).(pc := Top));
    assert ConnFits(c, n.conns[k]);
    assert ClientEnd(c, m.client.streams[k], conn);
    assert ServerEnds(c, m.server.streams, m.conns);
    assert ClientEnds(c, m.client.streams, m.conns);
  }

  lemma RefusedKeepsBytes(c: Config, n: Net, k: nat, used: nat)
    requires BytesInv(c, n) && ConnsInv(c, n) && k == |n.client.streams| && |n.conns| == k + 1
    requires n.conns[k].down.read + used <= |n.conns[k].down.written|
    ensures BytesInv(c, SetConn(n, k, n.conns[k].(down := Advance(n.conns[k].down, used)))
                          .(client := n.client.(pc := Aborted)))
  {
    var m := SetConn(n, k, n.conns[k].(down := Advance(n.conns[k].down, used))).(client := n.client.(pc := Aborted));
    assert ConnFits(c, n.conns[k]);
    assert ServerEnds(c, m.server.streams, m.conns);
    assert ClientEnds(c, m.client.streams, m.conns);
  }

  lemma ReadWelcomeKeepsBytes(c: Config, n: Net)
    requires ValidConfig(c) && BytesInv(c, n) && ConnsInv(c, n) && Enabled(c, n, ReadWelcome)
    ensures BytesInv(c, Apply(c, n, ReadWelcome))
    ensures ClientReads(c.codec, n.conns[n.client.pc.conn].down.Unread()).Message? ==>
              n.conns[n.client.pc.conn].down.written != []
  {
    var k := n.client.pc.conn;
    assert ConnFits(c, n.conns[k]);
    ReplyReads(c, n.conns[k]);
    var r := ClientReads(c.codec, n.conns[k].down.Unread());
    if r.Message? {
      JoinKeepsBytes(c, n, k);
    } else {
      RefusedKeepsBytes(c, n, k, r.used);
    }
  }

  lemma AdmitKeepsBytes(c: Config, n: Net, k: nat)
    requires BytesInv(c, n) && Enabled(c, n, Admit(k))
    ensures BytesInv(c, Apply(c, n, Admit(k)))
  {
    assert ConnFits(c, n.conns[k]);
    var m := Apply(c, n, Admit(k));
    assert ClientEnds(c, m.client.streams, m.conns) && ServerEnds(c, m.server.streams, m.conns);
  }

  /** Nobody but the accept loop has a claim on connection `k`. */
  ghost predicate Apart(n: Net, k: nat) {
    && k < |n.conns|
    && k !in StreamConns(n.server.streams) && k !in QueueConns(n.server.queue) && k !in StreamConns(n.client.streams)
  }

  lemma UntakenApart(c: Config, n: Net, k: nat)
    requires ConnsInv(c, n) && ArrivalsInv(c, n) && k < |n.conns| && !n.conns[k].taken
    ensures Apart(n, k) && k !in GateConns(n.gate)
  {
    assert k !in Arrivals(n);
    assert forall i :: 0 <= i < |n.client.streams| ==> n.client.streams[i].conn != k;
  }

  /** While the accept loop checks a connection, its client is still waiting for the reply. */
  lemma CheckingApart(c: Config, n: Net)
    requires ConnsInv(c, n) && ArrivalsInv(c, n) && BytesInv(c, n) && ValidConfig(c) && n.gate.Checking?
    ensures Apart(n, n.gate.conn)
  {
    var k, arrivals := n.gate.conn, Arrivals(n);
    assert arrivals[|arrivals| - 1] == k;
    forall i | 0 <= i < |arrivals| - 1 ensures arrivals[i] != k {
      assert arrivals[i] < arrivals[|arrivals| - 1];
    }
    assert StreamConns(n.server.streams) + QueueConns(n.server.queue) == arrivals[..|arrivals| - 1];
    assert c.welcome != [];
    assert forall i :: 0 <= i < |n.client.streams| ==> n.client.streams[i].conn != k;
  }

  /** Nothing of such a connection is counted, so the accept loop may read from and answer on it. */
  lemma AnswerKeepsBytes(c: Config, n: Net, k: nat, conn: Conn, gate: Gate)
    requires BytesInv(c, n) && Apart(n, k) && ConnFits(c, conn)
    requires gate.Open? || (gate == Welcoming(k) && Welcomed(c, conn))
    requires conn.up.written == n.conns[k].up.written && conn.down.read == n.conns[k].down.read
    ensures BytesInv(c, SetConn(n, k, conn).(gate := gate))
  {
    var m := SetConn(n, k, conn).(gate := gate);
    OtherEnds(c, n.server.streams, n.conns, k, conn);
    OtherEnds(c, n.client.streams, n.conns, k, conn);
    assert FreshFits(c, |m.client.streams|, m.client.pc.Aborted?, m.conns);
  }

  lemma TurnAwayKeepsBytes(c: Config, n: Net, k: nat)
    requires ConnsInv(c, n) && ArrivalsInv(c, n) && BytesInv(c, n) && Enabled(c, n, TurnAway(k))
    ensures BytesInv(c, Apply(c, n, TurnAway(k)))
  {
    UntakenApart(c, n, k);
    assert ConnFits(c, n.conns[k]);
    AnswerKeepsBytes(c, n, k, Apply(c, n, TurnAway(k)).conns[k], Open);
  }

  lemma NewTestKeepsBytes(c: Config, n: Net, k: nat)
    requires ConnsInv(c, n) && ArrivalsInv(c, n) && BytesInv(c, n) && Enabled(c, n, NewTestInstead(k))
    ensures BytesInv(c, Apply(c, n, NewTestInstead(k)))
  {
    UntakenApart(c, n, k);
    assert ConnFits(c, n.conns[k]);
    AnswerKeepsBytes(c, n, k, Apply(c, n, NewTestInstead(k)).conns[k], Open);
  }

  lemma CheckKeepsBytes(c: Config, n: Net)
    requires ValidConfig(c) && ConnsInv(c, n) && ArrivalsInv(c, n) && BytesInv(c, n) && Enabled(c, n, CheckCookie)
    ensures BytesInv(c, Apply(c, n, CheckCookie))
  {
    var k, m := n.gate.conn, Apply(c, n, CheckCookie);
    CheckingApart(c, n);
    assert ConnFits(c, n.conns[k]);
    HelloReads(c, n.conns[k]);
    AnswerKeepsBytes(c, n, k, m.conns[k], m.gate);
  }

  /** The server's new stream starts with nothing counted and both frames exchanged. */
  lemma AcceptKeepsBytes(c: Config, n: Net, s: Side)
    requires BytesInv(c, n) && n.server.queue != [] && n.server.queue[0].CreateStream?
    requires s.queue == n.server.queue[1..]
    requires exists stream :: s.streams == n.server.streams + [stream] && stream.conn == n.server.queue[0].conn
                              && stream.task.Waiting?
    ensures BytesInv(c, n.(server := s))
  {
    var k := n.server.queue[0].conn;
    assert QueueConns(n.server.queue) == [k] + QueueConns(n.server.queue[1..]);
    assert k in QueueConns(n.server.queue);
    assert Welcomed(c, n.conns[k]) && ConnFits(c, n.conns[k]);
  }

  /** A task changes without a byte moving: what it counts stays, or it is written off. */
  lemma TaskKeepsBytes(c: Config, n: Net, role: Role, id: nat, task: Task)
    requires BytesInv(c, n) && id < |SideOf(n, role).streams| && !SideOf(n, role).streams[id].task.Failed?
    requires task.Failed? || Counted(task) == Counted(SideOf(n, role).streams[id].task)
    ensures BytesInv(c, WithSide(n, role, SetTask(SideOf(n, role), id, task)))
  {
    var s, m := SideOf(n, role), WithSide(n, role, SetTask(SideOf(n, role), id, task));
    if role.Server? {
      assert ServerEnd(c, s.streams[id], n.conns[s.streams[id].conn]);
      assert ServerEnds(c, m.server.streams, m.conns);
    } else {
      assert ClientEnd(c, s.streams[id], n.conns[s.streams[id].conn]);
      assert ClientEnds(c, m.client.streams, m.conns);
    }
  }

  lemma MoveFits(c: Config, role: Role, isSending: bool, conn: Conn, count: nat)
    requires ConnFits(c, conn) && c.welcome <= conn.down.written && conn.taken
    requires !isSending ==> count <= |InPipe(role, conn).Unread()|
    ensures ConnFits(c, Move(role, isSending, conn, count))
  {
  }

  lemma ClientMoveKeepsBytes(c: Config, n: Net, id: nat, count: nat, task: Task)
    requires ConnsInv(c, n) && BytesInv(c, n) && id < |n.client.streams| && !n.client.streams[id].task.Failed?
    requires task.Failed? || Counted(task) == Counted(n.client.streams[id].task) + count
    requires !n.client.streams[id].isSending ==> count <= |n.conns[id].down.Unread()|
    ensures n.client.streams[id].conn == id
    ensures BytesInv(c, SetConn(n, id, Move(Client, n.client.streams[id].isSending, n.conns[id], count))
                          .(client := SetTask(n.client, id, task)))
  {
    var stream := n.client.streams[id];
    assert stream.conn == id;
    assert ClientEnd(c, stream, n.conns[id]) && ConnFits(c, n.conns[id]);
    MoveFits(c, Client, stream.isSending, n.conns[id], count);
    var m := SetConn(n, id, Move(Client, stream.isSending, n.conns[id], count)).(client := SetTask(n.client, id, task));
    forall i | 0 <= i < |m.client.streams| ensures ClientEnd(c, m.client.streams[i],
        m.conns[m.client.streams[i].conn]) {
      assert n.client.streams[i].conn == i && ClientEnd(c, n.client.streams[i], n.conns[i]);
    }
    assert ServerEnds(c, m.server.streams, m.conns);
    assert AllWelcomed(c, QueueConns(m.server.queue), m.conns);
    assert GateFits(c, m.gate, m.conns);
  }

  lemma ServerMoveKeepsBytes(c: Config, n: Net, id: nat, count: nat, task: Task)
    requires ConnsInv(c, n) && ArrivalsInv(c, n) && BytesInv(c, n) && id < |n.server.streams|
    requires |n.server.streams| == c.Total() && !n.server.streams[id].task.Failed?
    requires task.Failed? || Counted(task) == Counted(n.server.streams[id].task) + count
    requires id < |n.conns| && !n.server.streams[id].isSending ==> count <= |n.conns[id].up.Unread()|
    ensures n.server.streams[id].conn == id < |n.conns|
    ensures BytesInv(c, SetConn(n, id, Move(Server, n.server.streams[id].isSending, n.conns[id], count))
                          .(server := SetTask(n.server, id, task)))
  {
    ConnSafety.NumberingAgrees(c, n);
    var stream := n.server.streams[id];
    assert stream.conn in StreamConns(n.server.streams) by { assert StreamConns(n.server.streams)[id] == stream.conn; }
    assert stream.conn in Arrivals(n);
    assert ServerEnd(c, stream, n.conns[id]) && ConnFits(c, n.conns[id]);
    MoveFits(c, Server, stream.isSending, n.conns[id], count);
    var m := SetConn(n, id, Move(Server, stream.isSending, n.conns[id], count)).(server := SetTask(n.server, id, task));
    forall i | 0 <= i < |m.server.streams| ensures ServerEnd(c, m.server.streams[i],
        m.conns[m.server.streams[i].conn]) {
      assert n.server.streams[i].conn == i && ServerEnd(c, n.server.streams[i], n.conns[i]);
    }
    assert ClientEnds(c, m.client.streams, m.conns);
  }
}
