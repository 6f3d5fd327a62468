/** The inductive invariant of the joint protocol, in parts that can be kept separately. */
module Invariant {
  import opened Messages
  import opened Control
  import opened Framing
  import opened Protocol
  import W = Worker
  import WorkerLaws

  // ---- One side on its own ----

  predicate Early(pc: Pc) { pc.Top? || pc.Announced? || pc.AwaitWelcome? || pc.Select? }

  predicate Late(pc: Pc) { pc.Draining? || pc.AwaitResults? || pc.Replying? || pc.Done? }

  predicate PcFits(s: Side) {
    && (s.role.Server? ==> !s.pc.AwaitWelcome?)
    && (s.role.Client? ==> !s.pc.Announced? && !s.pc.Replying?)
    && (s.pc.Select? ==> s.oldState == s.state && !s.state.ExchangeResults? && !s.state.Terminate?)
    && (s.pc.Select? && s.role.Server? ==> !s.state.Start?)
    && (s.pc.AwaitWelcome? ==> s.state.CreateStreams?)
    && (s.pc.Announced? ==> !s.pc.next.Start?)
    && (s.pc.Announced? && s.pc.next.CreateStreams? ==> s.state.Start?)
    && (s.pc.Announced? && !s.pc.next.CreateStreams? ==>
          s.state.CreateStreams? || (s.state.Running? && s.oldState.Running?))
    && (Late(s.pc) ==> s.state.ExchangeResults? || s.state.Terminate?)
    && (s.pc.AwaitResults? || s.pc.Replying? ==> s.state.ExchangeResults?)
    && (s.state.Start? || s.state.CreateStreams? ==> !s.oldState.Running?)
  }

  /** StartLoad once, on entering Running; then StopLoad once, when the controller winds up. */
  predicate PublishedFits(s: Side) {
    var load := if s.oldState.Running? then [StartLoad] else [];
    && (Early(s.pc) ==> s.published == load)
    && (Late(s.pc) ==> s.published == load + [StopLoad])
    && (s.published == load || s.published == load + [StopLoad])
  }

  /** What is known of stream `id` of a side that has `sent` broadcast messages, StartLoad among them or not. */
  ghost predicate TaskFits(c: Config, role: Role, loaded: bool, sent: nat, id: nat, stream: DataStream) {
    && stream.isSending == IsSending(c.params, role, id)
    && match stream.task
       case Waiting(cursor) => cursor == 0
       case Loading(cursor, meter) =>
         loaded && cursor == 1 <= sent && WorkerLaws.Accounts(W.Endpoint(id, stream.isSending, c.params), meter)
       case Returned(summary) =>
         && loaded
         && summary.id == id && summary.isSending == stream.isSending && summary.isSummary && !summary.isPeer
         && (c.params.maxLength.Some? ==> summary.bytesTransferred <= c.params.maxLength.value + c.params.blockSize)
       case Failed => true
  }

  ghost predicate TasksFit(c: Config, s: Side) {
    && (s.oldState.Running? ==> |s.streams| == c.Total())
    && (s.published == [] && s.Alive() ==>
          forall id :: 0 <= id < |s.streams| ==> s.streams[id].task.Waiting? || s.streams[id].task.Failed?)
    && forall id :: 0 <= id < |s.streams| ==> TaskFits(c, s.role, s.oldState.Running?, |s.published|, id, s.streams[id])
  }

  predicate QueueFits(s: Side) {
    forall m :: m in s.queue ==>
      && (m.StreamTerminated? ==> m.id < |s.streams| && s.streams[m.id].task.Returned?)
      && (m.CreateStream? ==> s.role.Server?)
  }

  ghost predicate WorkersFit(s: Side) {
    && Partition(s) && ResultsReturned(s)
    && (Early(s.pc) ==> s.lost == {})
    && (s.pc.AwaitResults? || s.pc.Replying? || s.pc.Done? ==> s.workers == {})
  }

  ghost predicate SideInv(c: Config, s: Side) {
    PcFits(s) && PublishedFits(s) && TasksFit(c, s) && QueueFits(s) && WorkersFit(s)
  }

  // ---- The states each side has been in ----

  /** The only ways a test moves from one state to the next. */
  predicate Follows(c: Config, a: State, b: State) {
    || (a.Start? && b == CreateStreams(c.cookie))
    || (a.CreateStreams? && (b.Running? || b.Terminate?))
    || (a.Running? && (b.ExchangeResults? || b.Terminate?))
  }

  predicate Chain(c: Config, states: seq<State>) {
    && |states| > 0 && states[0].Start?
    && forall i :: 0 < i < |states| ==> Follows(c, states[i - 1], states[i])
  }

  function SetStates(states: seq<State>): seq<ServerMessage> {
    seq(|states|, i requires 0 <= i < |states| => SetState(states[i]))
  }

  /** The server has announced Running; the server has announced ExchangeResults. */
  predicate Ran(n: Net) { |n.script| > 2 && n.script[2].Running? }

  predicate Exchanging(n: Net) { |n.script| > 3 && n.script[3].ExchangeResults? }

  /** The part of the client's history that the server has brought about. */
  function Followed(n: Net): seq<State> {
    if n.stopped && n.client.history != [] then n.client.history[..|n.client.history| - 1] else n.client.history
  }

  /** The server's reply, as long as the client has not read it. */
  function PendingReply(n: Net): seq<ServerMessage> {
    if n.server.pc.Done? && n.server.state.ExchangeResults? && n.client.remote.None?
        then [ServerResults(n.server.results)] else []
  }

  predicate HistoryInv(c: Config, n: Net) {
    && n.server.role.Server? && n.client.role.Client?
    && Chain(c, n.script)
    && n.server.history != [] && n.server.state == n.server.history[|n.server.history| - 1]
    && n.client.history != [] && n.client.state == n.client.history[|n.client.history| - 1]
    && n.server.history <= n.script && |n.script| <= |n.server.history| + 1
    && (n.server.pc.Announced? ==> n.script == n.server.history + [n.server.pc.next])
    && (!n.server.pc.Announced? && !n.server.pc.Aborted? ==> n.script == n.server.history)
    && (n.stopped ==> n.client.state.Terminate? && |n.client.history| > 1)
    && (n.stopped ==> !n.client.pc.Select? && !n.client.pc.AwaitWelcome?)
    && Followed(n) <= n.script
    && n.toClient == SetStates(n.script[|Followed(n)|..]) + PendingReply(n)
  }

  // ---- Which connection is which stream ----

  function StreamConns(streams: seq<DataStream>): seq<nat> {
    seq(|streams|, i requires 0 <= i < |streams| => streams[i].conn)
  }

  function QueueConns(queue: seq<ControllerMessage>): seq<nat> {
    if queue == [] then []
    else if queue[0].CreateStream? then [queue[0].conn] + QueueConns(queue[1..])
    else QueueConns(queue[1..])
  }

  function GateConns(gate: Gate): seq<nat> {
    if gate.Open? then [] else [gate.conn]
  }

  /** The connections the accept loop has let in, in the order the server numbers them. */
  function Arrivals(n: Net): seq<nat> {
    StreamConns(n.server.streams) + QueueConns(n.server.queue) + GateConns(n.gate)
  }

  predicate Increasing(s: seq<nat>) {
    forall i, j :: 0 <= i < j < |s| ==> s[i] < s[j]
  }

  ghost predicate ConnsInv(c: Config, n: Net) {
    var joined := |n.client.streams|;
    && joined <= |n.conns| <= joined + 1 && |n.conns| <= c.Total()
    && (forall i :: 0 <= i < joined ==> n.client.streams[i].conn == i && n.conns[i].taken)
    && (n.client.pc.AwaitWelcome? ==> n.client.pc.conn == joined && |n.conns| == joined + 1)
    && (!n.client.pc.AwaitWelcome? && !n.client.pc.Aborted? ==> |n.conns| == joined)
    && (n.conns != [] ==> |n.client.history| > 1 && |n.script| > 1)
    && (n.client.state.Running? || n.client.state.ExchangeResults? ==> joined == c.Total())
    && (n.client.pc.Select? && n.client.state.CreateStreams? ==> joined == c.Total())
  }

  ghost predicate ArrivalsInv(c: Config, n: Net) {
    && Increasing(Arrivals(n))
    && (forall k :: k in Arrivals(n) ==> k < |n.conns| && n.conns[k].taken)
    && (!n.gate.Open? ==> n.server.state.CreateStreams?)
    && (Ran(n) <==> |n.server.streams| == c.Total())
    && (Exchanging(n) ==> n.server.workers == {} && n.server.lost == {})
  }

  // ---- Every byte on every data connection ----

  function Counted(task: Task): nat {
    match task
    case Waiting(_) => 0
    case Loading(_, meter) => meter.total
    case Returned(summary) => summary.bytesTransferred
    case Failed => 0
  }

  predicate ConnFits(c: Config, conn: Conn) {
    && conn.up.read <= |conn.up.written| && conn.down.read <= |conn.down.written|
    && c.hello <= conn.up.written
    && (conn.down.written == [] || conn.down.written == c.refusal || c.welcome <= conn.down.written)
    && (!conn.taken ==> conn.up.read == 0 && conn.down.written == [])
  }

  /** A client's stream has read the welcome, and its worker's count is all it has moved since. */
  predicate ClientEnd(c: Config, stream: DataStream, conn: Conn) {
    && c.welcome <= conn.down.written && conn.down.read >= |c.welcome|
    && (!stream.task.Failed? ==>
          && |conn.up.written| == |c.hello| + (if stream.isSending then Counted(stream.task) else 0)
          && conn.down.read == |c.welcome| + (if stream.isSending then 0 else Counted(stream.task)))
  }

  /** A server's stream has had its hello read, and its worker's count is all it has moved since. */
  predicate ServerEnd(c: Config, stream: DataStream, conn: Conn) {
    && c.welcome <= conn.down.written && conn.up.read >= |c.hello|
    && (!stream.task.Failed? ==>
          && |conn.down.written| == |c.welcome| + (if stream.isSending then Counted(stream.task) else 0)
          && conn.up.read == |c.hello| + (if stream.isSending then 0 else Counted(stream.task)))
  }

  predicate Welcomed(c: Config, conn: Conn) {
    conn.up.read == |c.hello| && conn.down.written == c.welcome
  }

  ghost predicate ClientEnds(c: Config, streams: seq<DataStream>, conns: seq<Conn>) {
    forall i :: 0 <= i < |streams| ==> streams[i].conn < |conns| && ClientEnd(c, streams[i], conns[streams[i].conn])
  }

  ghost predicate ServerEnds(c: Config, streams: seq<DataStream>, conns: seq<Conn>) {
    forall i :: 0 <= i < |streams| ==> streams[i].conn < |conns| && ServerEnd(c, streams[i], conns[streams[i].conn])
  }

  ghost predicate AllWelcomed(c: Config, queued: seq<nat>, conns: seq<Conn>) {
    forall k :: k in queued ==> k < |conns| && Welcomed(c, conns[k])
  }

  predicate GateFits(c: Config, gate: Gate, conns: seq<Conn>) {
    match gate
    case Open => true
    case Checking(k) => k < |conns| && conns[k].up.read == 0 && conns[k].down.written == []
    case Welcoming(k) => k < |conns| && Welcomed(c, conns[k])
  }

  /** Connections the client has not made a stream of: nothing sent but the hello, and no reply read. */
  predicate FreshFits(c: Config, from: nat, aborted: bool, conns: seq<Conn>) {
    forall k :: from <= k < |conns| ==> conns[k].up.written == c.hello && (conns[k].down.read == 0 || aborted)
  }

  ghost predicate BytesInv(c: Config, n: Net) {
    && (forall k :: 0 <= k < |n.conns| ==> ConnFits(c, n.conns[k]))
    && ClientEnds(c, n.client.streams, n.conns)
    && ServerEnds(c, n.server.streams, n.conns)
    && AllWelcomed(c, QueueConns(n.server.queue), n.conns)
    && GateFits(c, n.gate, n.conns)
    && FreshFits(c, |n.client.streams|, n.client.pc.Aborted?, n.conns)
  }

  // ---- The exchange of results ----

  predicate HasSentResults(s: Side) {
    s.state.ExchangeResults? && (s.pc.AwaitResults? || s.pc.Done? || s.pc.Aborted?)
  }

  predicate ExchangeInv(n: Net) {
    && |n.toServer| <= 1
    && (n.toServer != [] ==>
          n.toServer[0] == ClientResults(n.client.results) && n.server.remote.None? && HasSentResults(n.client))
    && (n.server.remote.Some? ==> n.server.remote.value == AsPeer(n.client.results) && HasSentResults(n.client))
    && (n.server.remote.Some? ==> n.server.pc.Replying? || n.server.pc.Done? || n.server.pc.Aborted?)
    && (n.server.pc.Replying? || (n.server.pc.Done? && n.server.state.ExchangeResults?) ==> n.server.remote.Some?)
    && (n.client.remote.Some? ==>
          && n.client.remote.value == AsPeer(n.server.results) && n.client.pc.Done?
          && n.server.pc.Done? && n.server.state.ExchangeResults?)
    && (n.client.pc.Done? && n.client.state.ExchangeResults? ==> n.client.remote.Some?)
    && (n.client.remote.Some? ==> n.client.state.ExchangeResults?)
    && (n.client.pc.AwaitResults? ==> n.toServer != [] || n.server.remote.Some?)
  }

  ghost predicate Inv(c: Config, n: Net) {
    && SideInv(c, n.server) && SideInv(c, n.client)
    && HistoryInv(c, n) && ConnsInv(c, n) && ArrivalsInv(c, n) && BytesInv(c, n) && ExchangeInv(n)
  }
}
