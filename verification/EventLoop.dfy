/**
 * What a controller does in one pass of its event loop, as a function of its state and of what its
 * surroundings do meanwhile; and what it does once it has left the loop.
 */
module EventLoop {
  import opened Messages
  import opened Control

  /** What the other tasks do to a controller while it waits: messages sent, and each worker as it now is. */
  datatype World = World(sent: seq<ControllerMessage>, tasks: seq<Task>)

  /** What the controller's wait comes up with first. */
  datatype Choice = Internal | FromServer(message: ServerMessage) | ControlLost | ShutdownSignal

  /**
   * One pass of the loop: `joins` answers the client's attempts to open data connections, `written`
   * says whether a state the server announces reaches its client.
   */
  datatype Turn = Turn(joins: seq<Option<nat>>, shutdown: bool, world: World, choice: Choice, written: bool)

  /** After the loop: each worker as the drain finds it, and the exchange of results. */
  datatype Closing = Closing(
    tasks: seq<Task>,
    written: bool,
    fromServer: Option<ServerMessage>,
    fromClient: Option<ClientMessage>)

  function SendAll(s: Side, messages: seq<ControllerMessage>): (r: Side)
    ensures r == s.(queue := r.queue)
    decreases |messages|
  {
    if messages == [] then s else SendAll(TrySend(s, messages[0]), messages[1..])
  }

  function WithTasks(streams: seq<DataStream>, tasks: seq<Task>): seq<DataStream> {
    seq(|streams|, i requires 0 <= i < |streams| => if i < |tasks| then streams[i].(task := tasks[i]) else streams[i])
  }

  function Elapse(s: Side, w: World): Side {
    SendAll(s.(streams := WithTasks(s.streams, w.tasks)), w.sent)
  }

  /** A server that has announced a state assigns it; one that failed to gives up. */
  function Settle(s: Side, written: bool): Side {
    if !s.pc.Announced? then s else if written then Commit(s, s.pc.next) else s.(pc := Aborted)
  }

  /** The client opens the data connections that are still missing, until one fails. */
  function JoinAll(params: Parameters, s: Side, joins: seq<Option<nat>>): Side
    decreases |joins|
  {
    if |s.streams| >= TotalStreams(params) || joins == [] then s
    else if joins[0].None? then s.(pc := Aborted)
    else JoinAll(params, Register(params, s, joins[0].value), joins[1..])
  }

  /** The first message of the queue can be handled; a worker that has announced itself is over. */
  predicate Ready(s: Side) {
    && s.queue != []
    && (s.queue[0].StreamTerminated? && s.queue[0].id in s.workers ==> TaskOf(s, s.queue[0].id).Over())
  }

  /** Acts on what the wait came up with; only a client waits for its control connection. */
  function Act(params: Parameters, s: Side, choice: Choice, written: bool): Side {
    match choice
    case Internal => if Ready(s) then Settle(HandleInternal(params, s), written) else s
    case FromServer(m) => if s.role.Client? then FollowServer(s, m) else s
    case ControlLost => if s.role.Client? then s.(pc := Aborted) else s
    case ShutdownSignal => Settle(RequestState(s, Terminate), written)
  }

  /** The part of a pass after the state has been acted on: wait, then act on what comes first. */
  function Waits(params: Parameters, s: Side, t: Turn): Side {
    var w := Wake(s, t.shutdown);
    if w.pc.Aborted? then w else Act(params, Elapse(w, t.world), t.choice, t.written)
  }

  /** One pass of the event loop. */
  function Pass(params: Parameters, cookie: string, s: Side, t: Turn): Side {
    match s.state
    case Start =>
      if s.role.Server? then Settle(RequestState(s, CreateStreams(cookie)), t.written) else Waits(params, s, t)
    case CreateStreams(_) =>
      var j := if s.role.Client? then JoinAll(params, s, t.joins) else s;
      if j.pc.Aborted? then j else Waits(params, j, t)
    case Running => Waits(params, s, t)
    case _ => Finish(s)
  }

  /** The loop goes on from where a pass ends, unless the pass has left it or is still waiting. */
  function Passes(params: Parameters, cookie: string, s: Side, turns: seq<Turn>): Side
    decreases |turns|
  {
    if turns == [] || !s.pc.Top? then s else Passes(params, cookie, Pass(params, cookie, s, turns[0]), turns[1..])
  }

  /** The drain takes every worker out: results are filed, and those without one are lost. */
  function DrainAll(s: Side): Side {
    s.(workers := {}, results := s.results + Summaries(s, s.workers), lost := s.lost + Unfinished(s, s.workers))
  }

  /** The results of those of `ids` whose worker has returned, and those whose worker has not. */
  function Summaries(s: Side, ids: set<nat>): Results {
    map id | id in ids && TaskOf(s, id).Returned? :: TaskOf(s, id).summary
  }

  function Unfinished(s: Side, ids: set<nat>): set<nat> {
    set id | id in ids && !TaskOf(s, id).Returned?
  }

  /** The exchange, for a client that writes before it reads and a server that reads before it writes. */
  function Exchanged(s: Side, e: Closing): Side {
    match s.role
    case Client =>
      if e.written && e.fromServer.Some? && e.fromServer.value.ServerResults?
      then s.(pc := Done, remote := Some(AsPeer(e.fromServer.value.results)))
      else s.(pc := Aborted)
    case Server =>
      if e.fromClient.Some? && e.fromClient.value.ClientResults?
      then s.(pc := if e.written then Done else Aborted, remote := Some(AsPeer(e.fromClient.value.results)))
      else s.(pc := Aborted)
  }

  /** What a controller does once it has left its loop. */
  function Close(s: Side, e: Closing): Side {
    if !s.pc.Draining? then s else
    var d := DrainAll(s.(streams := WithTasks(s.streams, e.tasks)));
    if d.state.ExchangeResults? then Exchanged(d, e) else d.(pc := Done)
  }

  // ---- The drain ----

  function DrainInOrder(s: Side, order: seq<nat>): Side
    decreases |order|
  {
    if order == [] then s else DrainInOrder(DrainOne(s, order[0]), order[1..])
  }

  lemma DrainNone(s: Side)
    requires s.workers == {}
    ensures DrainAll(s) == s
  {
    assert s.results + Summaries(s, {}) == s.results && s.lost + Unfinished(s, {}) == s.lost;
  }

  lemma DrainOneCommutes(s: Side, id: nat)
    ensures DrainAll(DrainOne(s, id)) == DrainAll(s)
  {
    var d := DrainOne(s, id);
    assert forall i: nat :: TaskOf(d, i) == TaskOf(s, i);
    if id in s.workers {
      if TaskOf(s, id).Returned? {
        assert d.results + Summaries(d, d.workers) == s.results + Summaries(s, s.workers);
        assert Unfinished(d, d.workers) == Unfinished(s, s.workers);
      } else {
        assert Summaries(d, d.workers) == Summaries(s, s.workers);
        assert d.lost + Unfinished(d, d.workers) == s.lost + Unfinished(s, s.workers);
      }
    }
  }

  /** The workers come out of a hash map, in no particular order: every order has the same outcome. */
  lemma {:induction false} DrainOrderIrrelevant(s: Side, order: seq<nat>)
    requires forall id :: id in s.workers ==> id in order
    ensures DrainInOrder(s, order) == DrainAll(s)
    decreases |order|
  {
    if order == [] {
      assert s.workers == {};
      assert DrainAll(s).results == s.results;
      assert DrainAll(s).lost == s.lost;
    } else {
      var d := DrainOne(s, order[0]);
      forall id | id in d.workers ensures id in order[1..] {
        assert id in order;
      }
      DrainOrderIrrelevant(d, order[1..]);
      DrainOneCommutes(s, order[0]);
    }
  }

  /**
   * The drain leaves no worker held; it files the result of exactly those that have returned, writes
   * the others off, and keeps what was filed and written off before.
   */
  lemma DrainFilesAll(s: Side)
    requires s.workers !! s.results.Keys
    ensures var r := DrainAll(s);
            && r.workers == {} && r.streams == s.streams
            && (forall id :: id in s.workers ==> (id in r.results <==> TaskOf(s, id).Returned?))
            && (forall id :: id in s.workers && TaskOf(s, id).Returned? ==> r.results[id] == TaskOf(s, id).summary)
            && (forall id :: id in s.workers ==> (id in r.lost <==> id in s.lost || !TaskOf(s, id).Returned?))
            && (forall id :: id !in s.workers ==> (id in r.results <==> id in s.results))
            && (forall id :: id !in s.workers ==> (id in r.lost <==> id in s.lost))
            && (forall id :: id in s.results ==> id in r.results && r.results[id] == s.results[id])
  {
  }

  // ---- Waiting ----

  /** How many of `count` messages a queue still has places for. */
  function Places(queue: seq<ControllerMessage>, count: nat): (r: nat)
    ensures r <= count
  {
    if |queue| >= INTERNAL_PORT_BUFFER then 0
    else if count <= INTERNAL_PORT_BUFFER - |queue| then count else INTERNAL_PORT_BUFFER - |queue|
  }

  /** Of the messages sent to a live controller the first ones get in, as long as there is room, in their order. */
  lemma {:induction false} FirstOnesGetIn(s: Side, sent: seq<ControllerMessage>)
    requires s.Alive()
    ensures SendAll(s, sent) == s.(queue := s.queue + sent[..Places(s.queue, |sent|)])
    decreases |sent|
  {
    if sent == [] {
      assert s.queue + [] == s.queue;
    } else {
      var r, places := TrySend(s, sent[0]), Places(s.queue, |sent|);
      FirstOnesGetIn(r, sent[1..]);
      if places == 0 {
        assert r == s && s.queue + sent[..0] == s.queue == s.queue + sent[1..][..0];
      } else {
        assert s.queue + [sent[0]] + sent[1..][..places - 1] == s.queue + sent[..places];
      }
    }
  }

  /** While a live controller waits, its workers get on, and messages reach it as long as there is room. */
  lemma ElapseDelivers(s: Side, w: World)
    requires s.Alive()
    ensures var r := Elapse(s, w);
            && r == s.(streams := r.streams, queue := s.queue + w.sent[..Places(s.queue, |w.sent|)])
            && |r.streams| == |s.streams|
            && forall id :: 0 <= id < |s.streams| ==>
                 r.streams[id] == if id < |w.tasks| then s.streams[id].(task := w.tasks[id]) else s.streams[id]
  {
    FirstOnesGetIn(s.(streams := WithTasks(s.streams, w.tasks)), w.sent);
  }

  // ---- Following the server ----

  /** A client that waits and is sent a state is in that state, and goes on from the head of its loop. */
  lemma ClientFollowsState(params: Parameters, s: Side, state: State, written: bool)
    requires s.role.Client? && s.pc.Select?
    ensures var r := Act(params, s, FromServer(SetState(state)), written);
            && r.state == state && r.history == s.history + [state] && r.pc.Top?
            && r == s.(state := r.state, history := r.history, pc := r.pc)
  {
  }

  /** Whatever else the server sends, the client ignores; a client that loses its server gives up. */
  lemma ClientIgnoresRest(params: Parameters, s: Side, m: ServerMessage, written: bool)
    requires s.role.Client? && s.pc.Select? && !m.SetState?
    ensures Act(params, s, FromServer(m), written) == s.(pc := Top)
    ensures Act(params, s, ControlLost, written) == s.(pc := Aborted)
  {
  }

  /** A shutdown brings a side to Terminate, or ends it if it is a server that cannot tell its client. */
  lemma ShutdownTerminates(params: Parameters, s: Side, written: bool)
    requires s.pc.Select?
    ensures var r := Act(params, s, ShutdownSignal, written);
            if s.role.Server? && !written then r == s.(pc := Aborted)
            else r.state.Terminate? && r.history == s.history + [Terminate] && r.pc.Top?
  {
  }

  // ---- Opening data connections ----

  /** The client opens exactly the connections that are missing, in order; asked again, it opens none. */
  lemma {:induction false} JoinAllCompletes(params: Parameters, s: Side, joins: seq<Option<nat>>)
    requires |s.streams| + |joins| >= TotalStreams(params) && forall j :: j in joins ==> j.Some?
    ensures var r := JoinAll(params, s, joins);
            && r == s.(streams := r.streams, workers := r.workers)
            && |r.streams| == (if |s.streams| < TotalStreams(params) then TotalStreams(params) else |s.streams|)
            && s.streams <= r.streams
            && (forall i :: |s.streams| <= i < |r.streams| ==>
                  r.streams[i]
                  == DataStream(joins[i - |s.streams|].value, IsSending(params, s.role, i), Waiting(|s.published|)))
            && forall again :: JoinAll(params, r, again) == r
    decreases |joins|
  {
    if |s.streams| < TotalStreams(params) {
      assert joins[0] in joins && forall j :: j in joins[1..] ==> j in joins;
      JoinAllCompletes(params, Register(params, s, joins[0].value), joins[1..]);
    }
  }

  // ---- The books ----

  lemma RegisterBalances(params: Parameters, s: Side, conn: nat)
    requires Partition(s)
    ensures Partition(Register(params, s, conn))
  {
    var r := Register(params, s, conn);
    forall i: nat ensures i < |r.streams| <==> i in r.workers || i in r.results || i in r.lost {
      assert i < |s.streams| <==> i in s.workers || i in s.results || i in s.lost;
    }
  }

  lemma {:induction false} JoinAllBalances(params: Parameters, s: Side, joins: seq<Option<nat>>)
    requires Partition(s)
    ensures Partition(JoinAll(params, s, joins))
    decreases |joins|
  {
    if |s.streams| < TotalStreams(params) && joins != [] && joins[0].Some? {
      RegisterBalances(params, s, joins[0].value);
      JoinAllBalances(params, Register(params, s, joins[0].value), joins[1..]);
    }
  }

  lemma ReapBalances(s: Side, id: nat, task: Task)
    requires Partition(s)
    ensures Partition(Reap(s, id, task))
  {
  }

  /** Only the streams, the workers, the results and the lost ids make up the books. */
  lemma SameBooks(s: Side, r: Side)
    requires Partition(s) && |r.streams| == |s.streams|
    requires r.workers == s.workers && r.results == s.results && r.lost == s.lost
    ensures Partition(r)
  {
  }

  lemma AcceptBalances(params: Parameters, s: Side, conn: nat)
    requires Partition(s)
    ensures Partition(AcceptStream(params, s, conn))
  {
    RegisterBalances(params, s, conn);
    SameBooks(Register(params, s, conn), AcceptStream(params, s, conn));
  }

  lemma EndedBalances(s: Side, id: nat, task: Task)
    requires Partition(s)
    ensures Partition(StreamEnded(s, id, task))
  {
    ReapBalances(s, id, task);
    SameBooks(Reap(s, id, task), StreamEnded(s, id, task));
  }

  lemma HandleBalances(params: Parameters, s: Side)
    requires Partition(s) && s.queue != []
    ensures Partition(HandleInternal(params, s))
  {
    var r := s.(queue := s.queue[1..]);
    SameBooks(s, r);
    match s.queue[0]
    case CreateStream(conn) =>
      if s.role.Server? {
        AcceptBalances(params, r, conn);
      } else {
        SameBooks(r, r.(pc := Aborted));
      }
    case StreamTerminated(id) => EndedBalances(r, id, TaskOf(r, id));
    case Stop => SameBooks(r, RequestState(r, Terminate));
  }

  lemma ActBalances(params: Parameters, s: Side, choice: Choice, written: bool)
    requires Partition(s) && s.pc.Select?
    ensures var r := Act(params, s, choice, written); Partition(r) && !r.pc.Done?
  {
    if choice.Internal? && Ready(s) {
      HandleBalances(params, s);
      SameBooks(HandleInternal(params, s), Act(params, s, choice, written));
    } else {
      SameBooks(s, Act(params, s, choice, written));
    }
  }

  lemma WaitsBalances(params: Parameters, s: Side, t: Turn)
    requires Partition(s)
    ensures var r := Waits(params, s, t); Partition(r) && !r.pc.Done?
  {
    var awake := Wake(s, t.shutdown);
    SameBooks(s, awake);
    if awake.pc.Select? {
      SameBooks(s, Elapse(awake, t.world));
      ActBalances(params, Elapse(awake, t.world), t.choice, t.written);
    }
  }

  lemma PassBalances(params: Parameters, cookie: string, s: Side, t: Turn)
    requires Partition(s) && s.pc.Top?
    ensures var r := Pass(params, cookie, s, t); Partition(r) && !r.pc.Done?
  {
    var j := if s.state.CreateStreams? && s.role.Client? then JoinAll(params, s, t.joins) else s;
    JoinAllBalances(params, s, t.joins);
    WaitsBalances(params, j, t);
    SameBooks(s, Finish(s));
    SameBooks(s, Settle(RequestState(s, CreateStreams(cookie)), t.written));
  }

  lemma CloseBalances(s: Side, e: Closing)
    requires Partition(s) && !s.pc.Done?
    ensures var r := Close(s, e); Partition(r) && (r.pc.Done? ==> r.workers == {})
  {
    if s.pc.Draining? {
      var w := s.(streams := WithTasks(s.streams, e.tasks));
      SameBooks(s, w);
      DrainBalances(w);
      SameBooks(DrainAll(w), Close(s, e));
    }
  }

  lemma DrainBalances(s: Side)
    requires Partition(s)
    ensures Partition(DrainAll(s)) && DrainAll(s).workers == {}
  {
  }

  /**
   * Whatever the surroundings do, a controller's books balance when it stops: every stream it ever
   * registered is held, filed or lost, and exactly one of them; a controller that has finished
   * holds none.
   */
  lemma {:induction false} BooksStayBalanced(params: Parameters, cookie: string, s: Side, turns: seq<Turn>, e: Closing)
    requires Partition(s) && !s.pc.Done?
    ensures var r := Close(Passes(params, cookie, s, turns), e); Partition(r) && (r.pc.Done? ==> r.workers == {})
    decreases |turns|
  {
    if turns == [] || !s.pc.Top? {
      CloseBalances(s, e);
    } else {
      PassBalances(params, cookie, s, turns[0]);
      BooksStayBalanced(params, cookie, Pass(params, cookie, s, turns[0]), turns[1..], e);
    }
  }

  // ---- Pass after pass ----

  /** A run of passes is one pass after the other, as long as each leads back to the head of the loop. */
  lemma {:induction false} PassesCompose(params: Parameters, cookie: string, s: Side, first: seq<Turn>, rest: seq<Turn>)
    ensures Passes(params, cookie, s, first + rest) == Passes(params, cookie, Passes(params, cookie, s, first), rest)
    ensures s.pc.Top? && |first| == 1 ==> Passes(params, cookie, s, first) == Pass(params, cookie, s, first[0])
    ensures !s.pc.Top? ==> Passes(params, cookie, s, first) == s
    decreases |first|
  {
    if first == [] {
      assert first + rest == rest;
    } else if s.pc.Top? {
      assert (first + rest)[0] == first[0] && (first + rest)[1..] == first[1..] + rest;
      PassesCompose(params, cookie, Pass(params, cookie, s, first[0]), first[1..], rest);
    }
  }
}
