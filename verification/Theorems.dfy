/** What the protocol guarantees in every reachable state of every run. */
module Theorems {
  import opened Messages
  import opened Control
  import opened Framing
  import opened Protocol
  import opened Invariant
  import opened HistorySafety
  import opened ConnSafety
  import opened Safety
  import W = Worker

  // ---- Stream pairing ----

  lemma RunningMeansRan(c: Config, n: Net)
    requires HistoryInv(c, n)
    ensures Running in n.script <==> Ran(n)
    ensures ExchangeResults in n.script <==> Exchanging(n)
    ensures Exchanging(n) ==> Ran(n)
    ensures Terminate in n.script ==> !Exchanging(n)
  {
    ChainShape(c, n.script);
  }

  /**
   * Stream ids are never sent. Still, once the server has announced Running, stream i of the server
   * and stream i of the client are the two ends of connection i, and exactly one of them sends.
   */
  lemma StreamsPair(c: Config, n: Net)
    requires ValidConfig(c) && Reachable(c, n) && Running in n.script
    ensures |n.server.streams| == |n.conns| == c.Total()
    ensures c.Total() - 1 <= |n.client.streams| <= c.Total()
    ensures forall i :: 0 <= i < c.Total() ==> n.server.streams[i].conn == i
    ensures forall i :: 0 <= i < |n.client.streams| ==>
              && n.client.streams[i].conn == i
              && n.client.streams[i].isSending != n.server.streams[i].isSending
  {
    ReachableInv(c, n);
    RunningMeansRan(c, n);
    NumberingAgrees(c, n);
    forall i | 0 <= i < |n.client.streams| ensures n.client.streams[i].isSending != n.server.streams[i].isSending {
      OneSenderPerStream(c.params, i);
      assert n.server.streams[i].isSending == IsSending(c.params, Server, i);
      assert n.client.streams[i].isSending == IsSending(c.params, Client, i);
    }
  }

  /** Connection `k` has been through the accept loop and will not become a stream of the server. */
  ghost predicate Dropped(n: Net, k: nat) {
    k < |n.conns| && n.conns[k].taken && k !in Arrivals(n)
  }

  /** Only a connection the accept loop has just taken can join the arrivals, and none is given back. */
  ghost predicate ArrivalsGrow(n: Net, m: Net) {
    && |m.conns| >= |n.conns| && (forall k :: 0 <= k < |n.conns| && n.conns[k].taken ==> m.conns[k].taken)
    && forall j :: j in Arrivals(m) ==> j in Arrivals(n) || (j < |n.conns| && !n.conns[j].taken)
  }

  lemma SameArrivalsGrow(n: Net, m: Net)
    requires |m.conns| >= |n.conns| && forall k :: 0 <= k < |n.conns| && n.conns[k].taken ==> m.conns[k].taken
    requires StreamConns(m.server.streams) == StreamConns(n.server.streams)
    requires QueueConns(m.server.queue) == QueueConns(n.server.queue) && (m.gate == n.gate || m.gate.Open?)
    ensures ArrivalsGrow(n, m)
  {
    assert m.gate.Open? ==> Arrivals(n) == Arrivals(m) + GateConns(n.gate);
  }

  lemma WorkerArrivalsGrow(c: Config, n: Net, step: Step)
    requires Enabled(c, n, step) && step.ByWorker()
    ensures ArrivalsGrow(n, Apply(c, n, step))
  {
    var m := Apply(c, n, step);
    QueueConnsAppend(n.server.queue, StreamTerminated(step.id));
    assert StreamConns(m.server.streams) == StreamConns(n.server.streams);
    assert QueueConns(m.server.queue) == QueueConns(n.server.queue);
    SameArrivalsGrow(n, m);
  }

  lemma GateArrivalsGrow(c: Config, n: Net, step: Step)
    requires Enabled(c, n, step) && (step.Admit? || step.CheckCookie? || step.Enqueue?)
    ensures ArrivalsGrow(n, Apply(c, n, step))
  {
    var m := Apply(c, n, step);
    QueueConnsAppend(n.server.queue, CreateStream(if n.gate.Open? then 0 else n.gate.conn));
    if step.Admit? {
      assert Arrivals(m) == Arrivals(n) + [step.conn];
    } else {
      assert Arrivals(m) == Arrivals(n) || Arrivals(n) == Arrivals(m) + [n.gate.conn];
    }
  }

  lemma AlarmArrivalsGrow(c: Config, n: Net, step: Step)
    requires Enabled(c, n, step) && (step.TurnAway? || step.GateFails? || step.Stray? || step.NewTestInstead?)
    ensures ArrivalsGrow(n, Apply(c, n, step))
  {
    QueueConnsAppend(n.server.queue, Stop);
    SameArrivalsGrow(n, Apply(c, n, step));
  }

  lemma AcceptArrivalsGrow(c: Config, n: Net)
    requires n.server.role.Server? && Enabled(c, n, TakeMessage(Server))
    ensures ArrivalsGrow(n, Apply(c, n, TakeMessage(Server)))
  {
    var m := Apply(c, n, TakeMessage(Server));
    if n.server.queue[0].CreateStream? {
      AcceptShape(c, n);
      assert QueueConns(n.server.queue) == [n.server.queue[0].conn] + QueueConns(m.server.queue);
      assert StreamConns(m.server.streams) == StreamConns(n.server.streams) + [n.server.queue[0].conn];
      assert Arrivals(m) == Arrivals(n);
    } else {
      EndedResult(c, n);
      SameArrivalsGrow(n, m);
    }
  }

  lemma ControlArrivalsGrow(c: Config, n: Net, step: Step)
    requires Enabled(c, n, step)
    requires step.ByController() && !step.WakeUp? && !step.TakeMessage?
    ensures ArrivalsGrow(n, Apply(c, n, step))
  {
    SameArrivalsGrow(n, Apply(c, n, step));
  }

  lemma WakeUpArrivalsGrow(c: Config, n: Net, step: Step)
    requires Enabled(c, n, step) && (step.WakeUp? || step == TakeMessage(Client))
    ensures ArrivalsGrow(n, Apply(c, n, step))
  {
    QueueConnsAppend(n.server.queue, Stop);
    SameArrivalsGrow(n, Apply(c, n, step));
  }

  lemma StepArrivalsGrow(c: Config, n: Net, step: Step)
    requires n.server.role.Server? && Enabled(c, n, step)
    ensures ArrivalsGrow(n, Apply(c, n, step))
  {
    if step.ByWorker() {
      WorkerArrivalsGrow(c, n, step);
    } else if step.Admit? || step.CheckCookie? || step.Enqueue? {
      GateArrivalsGrow(c, n, step);
    } else if step.TurnAway? || step.GateFails? || step.Stray? || step.NewTestInstead? {
      AlarmArrivalsGrow(c, n, step);
    } else if step == TakeMessage(Server) {
      AcceptArrivalsGrow(c, n);
    } else if step.WakeUp? || step == TakeMessage(Client) {
      WakeUpArrivalsGrow(c, n, step);
    } else {
      ControlArrivalsGrow(c, n, step);
    }
  }

  lemma AllArrived(c: Config, n: Net)
    requires ConnsInv(c, n) && ArrivalsInv(c, n) && Ran(n)
    ensures forall k: nat :: k < |n.conns| ==> k in Arrivals(n)
  {
    NumberingAgrees(c, n);
    forall k: nat | k < |n.conns| ensures k in Arrivals(n) {
      assert Arrivals(n)[k] == n.server.streams[k].conn;
    }
  }

  /** So a connection the accept loop has not seen yet means streams are still being created. */
  lemma UntakenWhileCreating(c: Config, n: Net, k: nat)
    requires Inv(c, n) && Terminate !in n.script && k < |n.conns| && !n.conns[k].taken
    ensures n.script == [Start, CreateStreams(c.cookie)]
  {
    ChainShape(c, n.script);
    if Ran(n) {
      AllArrived(c, n);
    }
  }

  /**
   * One connection of the test that is refused, or lost because the queue was full, and the server
   * never announces Running: its count cannot be reached, so its numbering never matters.
   */
  lemma {:induction false} DroppedNeverRuns(c: Config, n: Net, k: nat, steps: seq<Step>)
    requires ValidConfig(c) && Inv(c, n) && Dropped(n, k) && CanRun(c, n, steps)
    ensures Running !in After(c, n, steps).script
    decreases |steps|
  {
    if steps == [] {
      RunningMeansRan(c, n);
      if Ran(n) {
        AllArrived(c, n);
      }
    } else {
      var m := Apply(c, n, steps[0]);
      StepKeepsInv(c, n, steps[0]);
      StepArrivalsGrow(c, n, steps[0]);
      assert Dropped(m, k);
      DroppedNeverRuns(c, m, k, steps[1..]);
    }
  }

  // ---- End to end ----

  /** Both summaries of a stream come from the two workers on one connection. */
  lemma SummaryOf(c: Config, n: Net, role: Role, id: nat)
    requires ValidConfig(c) && Inv(c, n) && id in SideOf(n, role).results
    ensures var s := SideOf(n, role);
            && id < |s.streams| == c.Total() && s.streams[id].conn == id < |n.conns|
            && s.streams[id].task == Returned(s.results[id])
            && s.results[id].id == id && s.results[id].isSending == IsSending(c.params, role, id)
            && s.results[id].isSummary && !s.results[id].isPeer
            && (c.params.maxLength.Some? ==>
                  s.results[id].bytesTransferred <= c.params.maxLength.value + c.params.blockSize)
  {
    var s := SideOf(n, role);
    assert s.streams[id].task == Returned(s.results[id]);
    if role.Server? {
      NumberingAgrees(c, n);
    }
  }

  /**
   * For every stream with a summary on both sides, exactly one side sent, and the receiver counted
   * no more bytes than the sender: no handshake byte is counted, no data byte is lost to the
   * handshake, and no byte is counted twice.
   */
  lemma ReceiverNeverAhead(c: Config, n: Net, id: nat)
    requires ValidConfig(c) && Reachable(c, n) && id in n.server.results && id in n.client.results
    ensures var server, client := n.server.results[id], n.client.results[id];
            && server.isSending != client.isSending
            && (server.isSending ==> client.bytesTransferred <= server.bytesTransferred)
            && (client.isSending ==> server.bytesTransferred <= client.bytesTransferred)
  {
    ReachableInv(c, n);
    SummaryOf(c, n, Server, id);
    SummaryOf(c, n, Client, id);
    OneSenderPerStream(c.params, id);
    assert ConnFits(c, n.conns[id]);
    assert ServerEnd(c, n.server.streams[id], n.conns[id]);
    assert ClientEnd(c, n.client.streams[id], n.conns[id]);
  }

  /** Every stream of every side sends exactly if the direction of the test says so, and so do its results. */
  lemma DirectionHolds(c: Config, n: Net, role: Role)
    requires ValidConfig(c) && Reachable(c, n)
    ensures var s := SideOf(n, role);
            && (forall id :: 0 <= id < |s.streams| ==> (s.streams[id].isSending <==> MeantToSend(c.params, role, id)))
            && (forall id :: id in s.results ==> (s.results[id].isSending <==> MeantToSend(c.params, role, id)))
  {
    ReachableInv(c, n);
    ArrivalsFit(c, n);
    var s := SideOf(n, role);
    forall id | 0 <= id < |s.streams| ensures s.streams[id].isSending <==> MeantToSend(c.params, role, id) {
      assert TaskFits(c, role, s.oldState.Running?, |s.published|, id, s.streams[id]);
      SendsAsMeant(c.params, role, id);
    }
    forall id | id in s.results ensures s.results[id].isSending <==> MeantToSend(c.params, role, id) {
      SummaryOf(c, n, role, id);
    }
  }

  /** The bytes of a one-way test flow its way: what arrives is at most what was sent from the other side. */
  lemma BytesFlowOneWay(c: Config, n: Net, id: nat)
    requires ValidConfig(c) && Reachable(c, n) && id in n.server.results && id in n.client.results
    ensures c.params.direction.ClientToServer? ==>
              n.client.results[id].isSending
              && n.server.results[id].bytesTransferred <= n.client.results[id].bytesTransferred
    ensures c.params.direction.ServerToClient? ==>
              n.server.results[id].isSending
              && n.client.results[id].bytesTransferred <= n.server.results[id].bytesTransferred
  {
    DirectionHolds(c, n, Client);
    DirectionHolds(c, n, Server);
    assert n.client.results[id].isSending <==> MeantToSend(c.params, Client, id);
    assert n.server.results[id].isSending <==> MeantToSend(c.params, Server, id);
    ReceiverNeverAhead(c, n, id);
  }

  function SumResults(results: Results, below: nat): nat {
    if below == 0 then 0
    else SumResults(results, below - 1) + (if below - 1 in results then results[below - 1].bytesTransferred else 0)
  }

  lemma {:induction false} SumResultsBound(results: Results, below: nat, each: nat)
    requires forall id :: id in results ==> results[id].bytesTransferred <= each
    ensures SumResults(results, below) <= below * each
  {
    if below > 0 {
      SumResultsBound(results, below - 1, each);
      assert below * each == (below - 1) * each + each;
    }
  }

  /** With a byte limit, one side's streams together overshoot by at most a block each. */
  lemma SideNeverFarOver(c: Config, n: Net, role: Role)
    requires ValidConfig(c) && Reachable(c, n) && c.params.maxLength.Some?
    ensures var results := SideOf(n, role).results;
            && (forall id :: id in results ==> id < c.Total())
            && SumResults(results, c.Total()) <= c.Total() * (c.params.maxLength.value + c.params.blockSize)
  {
    ReachableInv(c, n);
    var results := SideOf(n, role).results;
    forall id | id in results
      ensures id < c.Total() && results[id].bytesTransferred <= c.params.maxLength.value + c.params.blockSize
    {
      SummaryOf(c, n, role, id);
    }
    SumResultsBound(results, c.Total(), c.params.maxLength.value + c.params.blockSize);
  }

  // ---- When results are exchanged ----

  lemma ExchangingIsComplete(c: Config, n: Net)
    requires ArrivalsInv(c, n) && WorkersFit(n.server) && Exchanging(n) && Ran(n)
    ensures |n.server.streams| == c.Total() && n.server.results.Keys == Ids(c.Total())
    ensures forall id :: 0 <= id < c.Total() ==> n.server.streams[id].task == Returned(n.server.results[id])
  {
    forall id: nat ensures id in n.server.results.Keys <==> id in Ids(c.Total()) {
    }
  }

  /** The server moves on to the exchange only with the result of every stream, and of no other. */
  lemma ExchangeOnlyWhenComplete(c: Config, n: Net)
    requires ValidConfig(c) && Reachable(c, n) && ExchangeResults in n.script
    ensures n.server.workers == {} && n.server.lost == {} && n.server.results.Keys == Ids(c.Total())
    ensures |n.server.streams| == c.Total()
    ensures forall id :: 0 <= id < c.Total() ==> n.server.streams[id].task == Returned(n.server.results[id])
  {
    ReachableInv(c, n);
    RunningMeansRan(c, n);
    ExchangingIsComplete(c, n);
  }

  /** An announced stream has always returned: the branch for a failed handler is never taken. */
  lemma HandlerNeverFailed(c: Config, n: Net, role: Role, id: nat)
    requires ValidConfig(c) && Reachable(c, n) && StreamTerminated(id) in SideOf(n, role).queue
    ensures id < |SideOf(n, role).streams| && SideOf(n, role).streams[id].task.Returned?
  {
    ReachableInv(c, n);
  }

  /** A worker of the server that has failed, or whose announcement was lost, is never reaped. */
  ghost predicate Unreaped(n: Net, id: nat) {
    && id < |n.server.streams|
    && (n.server.streams[id].task.Failed?
        || (n.server.streams[id].task.Returned? && id in n.server.workers && StreamTerminated(id) !in n.server.queue))
  }

  /** The server has not announced the exchange, and either is stopping or has a worker it cannot reap. */
  ghost predicate KeptOut(n: Net, id: nat) {
    && ExchangeResults !in n.script
    && (Terminate in n.script || Unreaped(n, id))
  }

  /** What a step has to leave alone for a stuck stream to stay stuck. */
  ghost predicate LeavesStuck(n: Net, m: Net, id: nat) {
    && n.script <= m.script && (ExchangeResults in m.script ==> ExchangeResults in n.script)
    && id < |n.server.streams| <= |m.server.streams| && m.server.streams[id].task == n.server.streams[id].task
    && (id in n.server.workers ==> id in m.server.workers)
    && (StreamTerminated(id) in m.server.queue ==> StreamTerminated(id) in n.server.queue)
  }

  /** As long as the server has not announced the end, an unreaped stream is still held. */
  lemma UnreapedIsHeld(c: Config, n: Net, id: nat)
    requires Inv(c, n) && Unreaped(n, id) && ExchangeResults !in n.script && Terminate !in n.script
    ensures !n.server.pc.Draining?
    ensures n.server.pc.Select? ==> id in n.server.workers && StreamTerminated(id) !in n.server.queue
  {
    assert n.server.state == n.server.history[|n.server.history| - 1] == n.script[|n.server.history| - 1];
  }

  lemma WorkerLeavesStuck(c: Config, n: Net, id: nat, step: Step)
    requires Enabled(c, n, step) && Unreaped(n, id) && step.ByWorker()
    ensures LeavesStuck(n, Apply(c, n, step), id)
  {
  }

  lemma AcceptLoopLeavesStuck(c: Config, n: Net, id: nat, step: Step)
    requires Enabled(c, n, step) && Unreaped(n, id)
    requires step.ByAcceptLoop()
    ensures LeavesStuck(n, Apply(c, n, step), id)
  {
  }

  lemma ControlLeavesStuck(c: Config, n: Net, id: nat, step: Step)
    requires Enabled(c, n, step) && Unreaped(n, id) && n.server.role.Server? && !n.server.pc.Draining?
    requires step.ByController() && step != TakeMessage(Server)
    ensures LeavesStuck(n, Apply(c, n, step), id)
  {
  }

  /** The server reaps other streams, but this one keeps its workers from being empty. */
  lemma MessageLeavesStuck(c: Config, n: Net, id: nat)
    requires Enabled(c, n, TakeMessage(Server)) && Unreaped(n, id)
    requires id in n.server.workers && StreamTerminated(id) !in n.server.queue
    ensures LeavesStuck(n, Apply(c, n, TakeMessage(Server)), id)
  {
    assert n.server.queue[0] in n.server.queue;
    assert forall m :: m in n.server.queue[1..] ==> m in n.server.queue;
    var s := HandleInternal(c.params, n.server);
    assert id in s.workers;
    assert s.pc != Announced(ExchangeResults);
  }

  lemma StepLeavesStuck(c: Config, n: Net, id: nat, step: Step)
    requires Inv(c, n) && Unreaped(n, id) && ExchangeResults !in n.script && Terminate !in n.script
             && Enabled(c, n, step)
    ensures LeavesStuck(n, Apply(c, n, step), id)
  {
    UnreapedIsHeld(c, n, id);
    if step.ByWorker() {
      WorkerLeavesStuck(c, n, id, step);
    } else if step.ByAcceptLoop() {
      AcceptLoopLeavesStuck(c, n, id, step);
    } else if step == TakeMessage(Server) {
      MessageLeavesStuck(c, n, id);
    } else {
      ControlLeavesStuck(c, n, id, step);
    }
  }

  lemma ScriptGrows(c: Config, n: Net, step: Step)
    requires Enabled(c, n, step)
    ensures n.script <= Apply(c, n, step).script
  {
  }

  lemma StaysKeptOut(c: Config, n: Net, id: nat, step: Step)
    requires Inv(c, n) && KeptOut(n, id) && Enabled(c, n, step) && HistoryInv(c, Apply(c, n, step))
    ensures KeptOut(Apply(c, n, step), id)
  {
    var m := Apply(c, n, step);
    ScriptGrows(c, n, step);
    RunningMeansRan(c, m);
    if Terminate !in n.script {
      StepLeavesStuck(c, n, id, step);
    }
  }

  lemma {:induction false} KeptOutForever(c: Config, n: Net, id: nat, steps: seq<Step>)
    requires ValidConfig(c) && Inv(c, n) && KeptOut(n, id) && CanRun(c, n, steps)
    ensures ExchangeResults !in After(c, n, steps).script
    decreases |steps|
  {
    if steps != [] {
      StepKeepsInv(c, n, steps[0]);
      StaysKeptOut(c, n, id, steps[0]);
      KeptOutForever(c, Apply(c, n, steps[0]), id, steps[1..]);
    }
  }

  /**
   * A worker of the server that fails, or whose announcement is dropped, keeps the server out of the
   * exchange in every continuation of the run.
   */
  lemma UnreapedNeverExchanges(c: Config, n: Net, id: nat, steps: seq<Step>)
    requires ValidConfig(c) && Reachable(c, n) && Unreaped(n, id) && CanRun(c, n, steps)
    ensures ExchangeResults !in After(c, n, steps).script
  {
    ReachableInv(c, n);
    UnreapedMeansOpen(c, n, id);
    KeptOutForever(c, n, id, steps);
  }

  lemma UnreapedMeansOpen(c: Config, n: Net, id: nat)
    requires Inv(c, n) && Unreaped(n, id)
    ensures ExchangeResults !in n.script
  {
    RunningMeansRan(c, n);
    if Exchanging(n) {
      ExchangingIsComplete(c, n);
    }
  }

  // ---- Agreement on the state of the test ----

  lemma HistoriesAgree(c: Config, n: Net)
    requires HistoryInv(c, n)
    ensures |n.script| <= 4 && |n.script| - 1 <= |n.server.history|
    ensures !n.stopped ==> n.client.history <= n.script
    ensures n.stopped ==> n.client.history[..|n.client.history| - 1] <= n.script
    ensures !n.stopped ==> n.toClient == SetStates(n.script[|n.client.history|..]) + PendingReply(n)
  {
    ChainShape(c, n.script);
  }

  /**
   * Both histories are chains through Start, CreateStreams, Running and ExchangeResults that a
   * Terminate can cut short and nothing can extend. The client's is the server's script as far as
   * the client has read it, unless the client has stopped on its own account; the server's
   * committed state is the last state it announced, or the one before.
   */
  lemma StatesAgree(c: Config, n: Net)
    requires ValidConfig(c) && Reachable(c, n)
    ensures Chain(c, n.script) && |n.script| <= 4
    ensures n.server.history <= n.script && |n.script| - 1 <= |n.server.history|
    ensures !n.stopped ==> n.client.history <= n.script
    ensures n.stopped ==> |n.client.history| > 1 && n.client.state.Terminate?
                          && n.client.history[..|n.client.history| - 1] <= n.script
    ensures !n.stopped && n.client.Alive() ==> n.toClient == SetStates(n.script[|n.client.history|..]) + PendingReply(n)
    ensures n.server.history != [] && n.client.history != []
    ensures n.server.state == n.server.history[|n.server.history| - 1]
    ensures n.client.state == n.client.history[|n.client.history| - 1]
  {
    ReachableInv(c, n);
    HistoriesAgree(c, n);
  }

  // ---- What crosses the broadcast ----

  /**
   * A controller publishes StartLoad at most once, when every worker has subscribed, and then at most
   * one StopLoad. A worker that measures or has returned consumed StartLoad first. A controller that
   * waits while the test is running has published StartLoad, and one that has left its loop StopLoad.
   */
  lemma BroadcastOnce(c: Config, n: Net, role: Role)
    requires ValidConfig(c) && Reachable(c, n)
    ensures var s := SideOf(n, role);
            && (|| s.published == [] || s.published == [StartLoad] || s.published == [StopLoad]
                || s.published == [StartLoad, StopLoad])
            && (StartLoad in s.published ==> |s.streams| == c.Total())
            && (s.pc.Select? ==> (StartLoad in s.published <==> s.state.Running?) && StopLoad !in s.published)
            && (Late(s.pc) ==> StopLoad in s.published)
            && (forall id :: 0 <= id < |s.streams| && (s.streams[id].task.Loading? || s.streams[id].task.Returned?) ==>
                  StartLoad in s.published)
            && (forall id :: 0 <= id < |s.streams| && s.streams[id].task.Waiting? ==> s.streams[id].task.cursor == 0)
  {
    ReachableInv(c, n);
    var s := SideOf(n, role);
    forall id | 0 <= id < |s.streams|
      ensures s.streams[id].task.Loading? || s.streams[id].task.Returned? ==> StartLoad in s.published
      ensures s.streams[id].task.Waiting? ==> s.streams[id].task.cursor == 0
    {
      assert TaskFits(c, role, s.oldState.Running?, |s.published|, id, s.streams[id]);
    }
  }

  // ---- Being told to stop ----

  /** What a side does that is told to terminate: a server tells its client, and a client is in that state at once. */
  predicate Terminates(n: Net, m: Net, role: Role) {
    match role
    case Server => m.server.pc == Announced(Terminate) && m.toClient == n.toClient + [SetState(Terminate)]
    case Client => m.client.state.Terminate? && m.client.history == n.client.history + [Terminate] && m.stopped
  }

  /** A local shutdown, and a request to stop that has come to the head of the queue, are obeyed. */
  lemma StopIsObeyed(c: Config, n: Net, role: Role)
    requires ValidConfig(c) && Reachable(c, n)
    ensures Enabled(c, n, ShutDown(role)) ==> Terminates(n, Apply(c, n, ShutDown(role)), role)
    ensures Enabled(c, n, TakeMessage(role)) && SideOf(n, role).queue[0].Stop? ==>
              Terminates(n, Apply(c, n, TakeMessage(role)), role)
              && SideOf(Apply(c, n, TakeMessage(role)), role).queue == SideOf(n, role).queue[1..]
  {
    ReachableInv(c, n);
    if Enabled(c, n, ShutDown(role)) {
      ShutDownTerminates(c, n, role);
    }
    if Enabled(c, n, TakeMessage(role)) && SideOf(n, role).queue[0].Stop? {
      StopTerminates(c, n, role);
    }
  }

  lemma ShutDownTerminates(c: Config, n: Net, role: Role)
    requires n.server.role.Server? && n.client.role.Client? && Enabled(c, n, ShutDown(role))
    ensures Terminates(n, Apply(c, n, ShutDown(role)), role)
  {
  }

  lemma StopTerminates(c: Config, n: Net, role: Role)
    requires n.server.role.Server? && n.client.role.Client?
    requires Enabled(c, n, TakeMessage(role)) && SideOf(n, role).queue[0].Stop?
    ensures Terminates(n, Apply(c, n, TakeMessage(role)), role)
    ensures SideOf(Apply(c, n, TakeMessage(role)), role).queue == SideOf(n, role).queue[1..]
  {
  }

  // ---- What becomes of a worker's result ----

  /** Taking worker `id` out files its result if it has returned and otherwise writes it off, and that is all. */
  ghost predicate Takes(s: Side, r: Side, id: nat) {
    && id < |s.streams| && r.streams == s.streams && r.workers == s.workers - {id}
    && if s.streams[id].task.Returned? then
         && id in r.results && r.results[id] == s.streams[id].task.summary && r.lost == s.lost
         && (forall i :: i != id ==> (i in r.results.Keys <==> i in s.results.Keys))
         && (forall i :: i != id && i in s.results ==> r.results[i] == s.results[i])
       else r.results == s.results && r.lost == s.lost + {id}
  }

  /** Of a worker that is held, the result is filed exactly if it has returned when it is taken out. */
  lemma DrainFiles(c: Config, n: Net, role: Role, id: nat)
    requires ValidConfig(c) && Reachable(c, n) && Enabled(c, n, Drain(role, id))
    ensures Takes(SideOf(n, role), SideOf(Apply(c, n, Drain(role, id)), role), id)
  {
    ReachableInv(c, n);
    HeldIsStream(SideOf(n, role), id);
    DrainTakes(SideOf(n, role), id);
  }

  lemma HeldIsStream(s: Side, id: nat)
    requires Partition(s) && id in s.workers
    ensures id < |s.streams|
  {
  }

  lemma DrainTakes(s: Side, id: nat)
    requires id in s.workers && id < |s.streams|
    ensures Takes(s, DrainOne(s, id), id)
  {
  }

  /** A stream's announcement makes its side file its result. */
  lemma AnnouncementFiles(c: Config, n: Net, role: Role)
    requires ValidConfig(c) && Reachable(c, n) && Enabled(c, n, TakeMessage(role))
    requires SideOf(n, role).queue[0].StreamTerminated? && SideOf(n, role).queue[0].id in SideOf(n, role).workers
    ensures var s, id := SideOf(n, role), SideOf(n, role).queue[0].id;
            && Takes(s, SideOf(Apply(c, n, TakeMessage(role)), role), id)
            && s.streams[id].task.Returned?
  {
    var s := SideOf(n, role);
    ReachableInv(c, n);
    assert s.queue[0] in s.queue;
    HandledTakes(c, n, role);
  }

  lemma HandledTakes(c: Config, n: Net, role: Role)
    requires Enabled(c, n, TakeMessage(role)) && SideOf(n, role).queue[0].StreamTerminated?
    requires SideOf(n, role).queue[0].id in SideOf(n, role).workers
    requires SideOf(n, role).queue[0].id < |SideOf(n, role).streams|
    ensures Takes(SideOf(n, role), SideOf(Apply(c, n, TakeMessage(role)), role), SideOf(n, role).queue[0].id)
  {
  }

  /** A shutdown noticed at the head of the loop is a request to stop, if there is room for one. */
  lemma ShutdownIsQueued(c: Config, n: Net, role: Role)
    requires Enabled(c, n, WakeUp(role, true))
    ensures var s, r := SideOf(n, role), SideOf(Apply(c, n, WakeUp(role, true)), role);
            r.pc.Select? && |s.queue| < INTERNAL_PORT_BUFFER ==> r.queue == s.queue + [Stop]
    ensures var s, r := SideOf(n, role), SideOf(Apply(c, n, WakeUp(role, false)), role); r.queue == s.queue
  {
  }

  /** A client follows what it reads: its state, and the last of its history, is the state it was sent. */
  lemma ClientFollows(c: Config, n: Net)
    requires ValidConfig(c) && Reachable(c, n) && Enabled(c, n, Follow)
    ensures n.toClient[0].SetState?
    ensures var m := Apply(c, n, Follow);
            m.client.state == n.toClient[0].state && m.client.history == n.client.history + [n.toClient[0].state]
  {
    ReachableInv(c, n);
    FollowsNext(c, n);
  }

  /** A worker that is told to stop is in the last turn of its loop, and returns if its last report is accepted. */
  lemma ToldToStopReturns(c: Config, s: Side, id: nat, t: W.Tick, e: W.Ending)
    requires id < |s.streams| && s.streams[id].task.Loading? && t.signal == W.Got(StopLoad)
    ensures var r := Measured(c, s, id, t, e);
            && |r.streams| == |s.streams|
            && if e.accepted then r.streams[id].task.Returned? else r.streams[id].task.Failed?
  {
    assert W.Iterate(EndpointOf(c, s, id), s.streams[id].task.meter, t).Leave?;
  }

  lemma LoadedCursor(c: Config, s: Side, id: nat)
    requires SideInv(c, s) && id < |s.streams| && s.streams[id].task.Loading? && StopLoad in s.published
    ensures s.published == [StartLoad, StopLoad] && s.streams[id].task.cursor == 1
  {
    assert TaskFits(c, s.role, s.oldState.Running?, |s.published|, id, s.streams[id]);
  }

  /** A worker that is at work when its controller has left the loop hears of it in its next turn, which is its last. */
  lemma StopIsHeard(c: Config, n: Net, role: Role, id: nat, t: W.Tick, e: W.Ending)
    requires ValidConfig(c) && Reachable(c, n) && CanMeasure(c, n, role, id, t) && StopLoad in SideOf(n, role).published
    ensures t.signal == W.Got(StopLoad)
    ensures var r := SideOf(ApplyMeasure(c, n, role, id, t, e), role);
            && id < |r.streams|
            && if e.accepted then r.streams[id].task.Returned? else r.streams[id].task.Failed?
  {
    ReachableInv(c, n);
    LoadedCursor(c, SideOf(n, role), id);
    HearsStop(c, n, role, id, t, e);
  }

  lemma HearsStop(c: Config, n: Net, role: Role, id: nat, t: W.Tick, e: W.Ending)
    requires CanMeasure(c, n, role, id, t) && SideOf(n, role).published == [StartLoad, StopLoad]
    requires SideOf(n, role).streams[id].task.cursor == 1
    ensures t.signal == W.Got(StopLoad)
    ensures var r := SideOf(ApplyMeasure(c, n, role, id, t, e), role);
            && id < |r.streams|
            && if e.accepted then r.streams[id].task.Returned? else r.streams[id].task.Failed?
  {
    ToldToStopReturns(c, SideOf(n, role), id, t, e);
  }

  // ---- Starting the load ----

  /** Where a side stands that is about to start the load. */
  lemma AboutToLoad(c: Config, n: Net, role: Role)
    requires ValidConfig(c) && Inv(c, n) && SideOf(n, role).pc.Top?
    requires SideOf(n, role).state.Running? && !SideOf(n, role).oldState.Running?
    ensures var s := SideOf(n, role);
            && |s.streams| == c.Total() > 0 && s.published == []
            && forall id :: 0 <= id < |s.streams| ==> s.streams[id].task == Waiting(0) || s.streams[id].task.Failed?
  {
    WakeReady(c, n, role);
    var s := SideOf(n, role);
    forall id | 0 <= id < |s.streams| ensures s.streams[id].task == Waiting(0) || s.streams[id].task.Failed? {
      assert TaskFits(c, role, s.oldState.Running?, |s.published|, id, s.streams[id]);
    }
  }

  predicate SomeoneLeft(streams: seq<DataStream>) {
    exists id :: 0 <= id < |streams| && !streams[id].task.Failed?
  }

  /** Every worker that has not failed can start, and does so with the load. */
  predicate AllStart(s: Side) {
    forall id :: 0 <= id < |s.streams| && !s.streams[id].task.Failed? ==>
      CanStart(s, id) && Started(s, id, 0, 0).Loading?
  }

  lemma LoadReachesWhoIsLeft(s: Side, shutdown: bool)
    requires s.state.Running? && !s.oldState.Running? && s.published == []
    requires forall id :: 0 <= id < |s.streams| ==> s.streams[id].task == Waiting(0) || s.streams[id].task.Failed?
    ensures var r := Wake(s, shutdown);
            && (SomeoneLeft(s.streams) ==> r.pc.Select? && r.published == [StartLoad] && AllStart(r))
            && (!SomeoneLeft(s.streams) ==> r == s.(pc := Aborted))
  {
    if SomeoneLeft(s.streams) {
      var id :| 0 <= id < |s.streams| && !s.streams[id].task.Failed?;
      assert !s.streams[id].task.Over();
    }
  }

  /**
   * Publishing StartLoad finds a receiver if and only if some worker of the side has not failed, and
   * then every such worker gets the message. Otherwise the controller gives up. All streams are in
   * place, and none has started.
   */
  lemma StartLoadReceivedIff(c: Config, n: Net, role: Role, shutdown: bool)
    requires ValidConfig(c) && Reachable(c, n) && Enabled(c, n, WakeUp(role, shutdown))
    requires SideOf(n, role).state.Running? && !SideOf(n, role).oldState.Running?
    ensures var s, r := SideOf(n, role), SideOf(Apply(c, n, WakeUp(role, shutdown)), role);
            && |s.streams| == c.Total() > 0
            && (r.published == [StartLoad] <==> SomeoneLeft(s.streams))
            && (r.pc.Aborted? <==> !SomeoneLeft(s.streams))
            && (SomeoneLeft(s.streams) ==> AllStart(r))
  {
    ReachableInv(c, n);
    AboutToLoad(c, n, role);
    LoadReachesWhoIsLeft(SideOf(n, role), shutdown);
  }

  /** A worker that has not consumed StartLoad when StopLoad follows it lags, and fails without a summary. */
  lemma OvertakenWorkerFails(c: Config, n: Net, role: Role, id: nat, startTime: nat, gap: nat)
    requires ValidConfig(c) && Reachable(c, n) && Enabled(c, n, StartWorker(role, id, startTime, gap))
    ensures var m := Apply(c, n, StartWorker(role, id, startTime, gap));
            SideOf(m, role).streams[id].task.Failed? <==> StopLoad in SideOf(n, role).published
  {
    BroadcastOnce(c, n, role);
  }

  // ---- The exchange ----

  /** `remote` is `results` with every entry marked as the peer's, and nothing else changed. */
  predicate Marked(remote: Results, results: Results) {
    && remote.Keys == results.Keys
    && forall id :: id in remote ==> remote[id].isPeer && remote[id].(isPeer := false) == results[id]
  }

  /** When both sides are done, each holds the other's results, marked as the peer's and nothing else. */
  lemma ExchangeAgrees(c: Config, n: Net)
    requires ValidConfig(c) && Reachable(c, n)
    ensures n.server.remote.Some? ==> Marked(n.server.remote.value, n.client.results)
    ensures n.client.remote.Some? ==> Marked(n.client.remote.value, n.server.results)
    ensures n.client.remote.Some? ==> n.server.remote.Some? && n.server.pc.Done?
    ensures n.client.pc.Done? && n.client.state.ExchangeResults? ==> n.client.remote.Some?
    ensures forall id :: id in n.server.results ==> n.server.results[id].id == id
    ensures forall id :: id in n.client.results ==> n.client.results[id].id == id
  {
    ReachableInv(c, n);
    OwnResults(c, n, Server);
    OwnResults(c, n, Client);
  }

  lemma OwnResults(c: Config, n: Net, role: Role)
    requires ValidConfig(c) && Inv(c, n)
    ensures var results := SideOf(n, role).results;
            && (forall id :: id in results ==> results[id].id == id && !results[id].isPeer)
            && Marked(AsPeer(results), results)
  {
    var results := SideOf(n, role).results;
    forall id | id in results ensures results[id].id == id && !results[id].isPeer {
      SummaryOf(c, n, role, id);
    }
  }

  /** The two orders of reading and writing fit: the sides never both wait to read. */
  lemma NeverBothReading(c: Config, n: Net)
    requires ValidConfig(c) && Reachable(c, n) && n.client.pc.AwaitResults?
    ensures n.server.pc.AwaitResults? ==> Enabled(c, n, TakeResults(Server))
    ensures n.server.pc.Done? ==> Enabled(c, n, TakeResults(Client))
  {
    ReachableInv(c, n);
    AwaitingClient(c, n);
  }

  lemma AwaitingClient(c: Config, n: Net)
    requires Inv(c, n) && n.client.pc.AwaitResults?
    ensures Exchanging(n)
    ensures n.server.pc.AwaitResults? ==> n.toServer != []
    ensures n.server.pc.Done? ==> n.toClient != []
  {
    PrefixShape(c, n.script, n.client.history);
    ChainShape(c, n.client.history);
    ChainShape(c, n.script);
  }

  /** Neither side ever reads anything else where it expects results. */
  lemma ExchangeNeverUnexpected(c: Config, n: Net, role: Role)
    requires ValidConfig(c) && Reachable(c, n) && Enabled(c, n, TakeResults(role))
    ensures !SideOf(Apply(c, n, TakeResults(role)), role).pc.Aborted?
  {
    ReachableInv(c, n);
    if role.Client? {
      TakeReplyKeepsHistory(c, n);
    }
  }

  // ---- The books of a controller ----

  /** Every stream is held, filed or lost, exactly one of them; nothing is filed twice or too much. */
  lemma BooksBalance(c: Config, n: Net, role: Role)
    requires ValidConfig(c) && Reachable(c, n)
    ensures var s := SideOf(n, role); Partition(s) && ResultsReturned(s) && |s.streams| <= c.Total() < U16_LIMIT
  {
    ReachableInv(c, n);
    ArrivalsFit(c, n);
  }
}
