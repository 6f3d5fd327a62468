/** How much a healthy run still has to do: a number that every healthy step makes smaller. */
module Ranking {
  import opened Messages
  import opened Control
  import opened Protocol
  import W = Worker
  import WorkerLaws

  /** More fuel than any worker starts with. */
  function Cap(c: Config): nat {
    match c.params.maxLength
    case Some(limit) => limit + 10 * c.params.duration + 2
    case None => W.Seconds(c.params.duration) + 2
  }

  lemma NewMeterWithinCap(c: Config, id: nat, isSending: bool, startTime: nat, gap: nat)
    ensures WorkerLaws.Fuel(W.Endpoint(id, isSending, c.params), W.NewMeter(startTime, gap)) <= Cap(c)
  {
  }

  function TaskRank(c: Config, id: nat, stream: DataStream): nat {
    match stream.task
    case Waiting(_) => Cap(c) + 6
    case Loading(_, meter) => WorkerLaws.Fuel(W.Endpoint(id, stream.isSending, c.params), meter) + 5
    case _ => 0
  }

  function StreamsRank(c: Config, streams: seq<DataStream>): nat {
    if streams == [] then 0
    else StreamsRank(c, streams[..|streams| - 1]) + TaskRank(c, |streams| - 1, streams[|streams| - 1])
  }

  lemma StreamsRankAppend(c: Config, streams: seq<DataStream>, stream: DataStream)
    ensures StreamsRank(c, streams + [stream]) == StreamsRank(c, streams) + TaskRank(c, |streams|, stream)
  {
    assert (streams + [stream])[..|streams|] == streams;
  }

  lemma {:induction false} StreamsRankUpdate(c: Config, streams: seq<DataStream>, id: nat, stream: DataStream)
    requires id < |streams|
    ensures StreamsRank(c, streams[id := stream]) + TaskRank(c, id, streams[id])
            == StreamsRank(c, streams) + TaskRank(c, id, stream)
  {
    var last, front := |streams| - 1, streams[..|streams| - 1];
    if id == last {
      assert streams[id := stream][..last] == front;
    } else {
      assert streams[id := stream][..last] == front[id := stream];
      StreamsRankUpdate(c, front, id, stream);
    }
  }

  function MessageRank(c: Config, m: ControllerMessage): nat {
    match m
    case CreateStream(_) => Cap(c) + 10
    case StreamTerminated(_) => 3
    case Stop => 0
  }

  function QueueRank(c: Config, queue: seq<ControllerMessage>): nat {
    if queue == [] then 0 else MessageRank(c, queue[0]) + QueueRank(c, queue[1..])
  }

  lemma {:induction false} QueueRankAppend(c: Config, queue: seq<ControllerMessage>, m: ControllerMessage)
    ensures QueueRank(c, queue + [m]) == QueueRank(c, queue) + MessageRank(c, m)
  {
    if queue == [] {
      assert queue + [m] == [m];
    } else {
      assert (queue + [m])[1..] == queue[1..] + [m];
      QueueRankAppend(c, queue[1..], m);
    }
  }

  function PcRank(pc: Pc): nat {
    match pc
    case Announced(_) => 12
    case Top => 11
    case AwaitWelcome(_) => 11
    case Select => 10
    case Draining => 9
    case AwaitResults => 8
    case Replying => 7
    case _ => 0
  }

  function SideRank(c: Config, s: Side): nat {
    StreamsRank(c, s.streams) + QueueRank(c, s.queue) + |s.workers| + PcRank(s.pc)
  }

  function Missing(total: nat, there: nat): nat {
    if there < total then total - there else 0
  }

  function Times(a: nat, b: nat): nat { a * b }

  /** What is left to do for connections the client has yet to open, or the accept loop to see through. */
  function OpeningRank(c: Config, n: Net): nat {
    Times(Missing(c.Total(), |n.conns|), Cap(c) + 14) + Times(Missing(c.Total(), |n.client.streams|), Cap(c) + 10)
    + (if n.conns != [] && !n.conns[|n.conns| - 1].taken then Cap(c) + 13 else 0)
    + match n.gate
      case Open => 0
      case Checking(_) => Cap(c) + 12
      case Welcoming(_) => Cap(c) + 11
  }

  /** States still to announce, and states still to be followed. */
  function ScriptRank(n: Net): nat {
    6 * (if |n.script| < 4 then 4 - |n.script| else 0) + 2 * |n.toClient|
  }

  function Rank(c: Config, n: Net): nat {
    SideRank(c, n.server) + SideRank(c, n.client) + OpeningRank(c, n) + ScriptRank(n)
  }

  lemma OneFewer(a: nat, b: nat)
    requires a > 0
    ensures Times(a - 1, b) + b == Times(a, b)
  {
  }
}
