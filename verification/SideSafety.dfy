/** Every step keeps the part of the invariant that concerns one side alone. */
module SideSafety {
  import opened Messages
  import opened Control
  import opened Protocol
  import opened Invariant
  import W = Worker
  import WorkerLaws

  /** A message added to the queue matters only if it is one the side may be sent. */
  lemma TrySendKeeps(c: Config, s: Side, m: ControllerMessage)
    requires SideInv(c, s)
    requires m.StreamTerminated? ==> m.id < |s.streams| && s.streams[m.id].task.Returned?
    requires m.CreateStream? ==> s.role.Server?
    ensures SideInv(c, TrySend(s, m))
  {
  }

  lemma RegisterKeeps(c: Config, s: Side, conn: nat)
    requires SideInv(c, s) && s.published == [] && !s.oldState.Running?
    ensures var r := Register(c.params, s, conn);
            TasksFit(c, r) && QueueFits(r) && Partition(r) && ResultsReturned(r)
  {
    var r := Register(c.params, s, conn);
    forall i: nat ensures i < |r.streams| <==> i in r.workers || i in r.results || i in r.lost {
      assert i < |s.streams| <==> i in s.workers || i in s.results || i in s.lost;
    }
  }

  lemma ReapKeeps(s: Side, id: nat, task: Task)
    requires Partition(s) && ResultsReturned(s)
    requires id in s.workers && task.Returned? ==> id < |s.streams| && s.streams[id].task == task
    ensures var r := Reap(s, id, task);
            && Partition(r) && ResultsReturned(r)
            && (task.Returned? ==> r.lost == s.lost)
            && (id in s.workers ==> id !in r.workers && (id in r.results <==> task.Returned?))
  {
  }

  /** Replacing a task that has not returned keeps what is known of the other streams. */
  lemma SetTaskKeeps(c: Config, s: Side, id: nat, task: Task)
    requires SideInv(c, s) && id < |s.streams| && !s.streams[id].task.Returned?
    requires s.published != [] || !s.Alive() || task.Failed?
    requires TaskFits(c, s.role, s.oldState.Running?, |s.published|, id, s.streams[id].(task := task))
    ensures SideInv(c, SetTask(s, id, task))
  {
  }

  lemma DequeueKeeps(c: Config, s: Side)
    requires SideInv(c, s) && s.queue != []
    ensures SideInv(c, s.(queue := s.queue[1..]))
  {
    assert forall m :: m in s.queue[1..] ==> m in s.queue;
  }

  lemma AcceptKeeps(c: Config, s: Side, conn: nat)
    requires SideInv(c, s) && s.pc.Select? && s.role.Server? && s.state.CreateStreams?
    ensures SideInv(c, AcceptStream(c.params, s, conn))
  {
    RegisterKeeps(c, s, conn);
  }

  lemma StreamEndedKeeps(c: Config, s: Side, id: nat)
    requires SideInv(c, s) && s.pc.Select? && id < |s.streams| && s.streams[id].task.Returned?
    ensures SideInv(c, StreamEnded(s, id, TaskOf(s, id)))
  {
    ReapKeeps(s, id, TaskOf(s, id));
  }

  lemma HandleInternalKeeps(c: Config, s: Side)
    requires SideInv(c, s) && s.pc.Select? && s.queue != []
    requires s.queue[0].CreateStream? ==> s.state.CreateStreams?
    ensures SideInv(c, HandleInternal(c.params, s))
  {
    var m, r := s.queue[0], s.(queue := s.queue[1..]);
    assert m in s.queue;
    DequeueKeeps(c, s);
    match m
    case CreateStream(conn) => AcceptKeeps(c, r, conn);
    case StreamTerminated(id) => StreamEndedKeeps(c, r, id);
    case Stop =>
  }

  /** A worker that goes on has heard nothing since StartLoad. */
  lemma StillListening(s: Side, cursor: nat, ep: W.Endpoint, m: W.Meter, t: W.Tick)
    requires PublishedFits(s) && s.oldState.Running? && cursor == 1 && t.signal == SignalOf(s, cursor)
    requires W.Iterate(ep, m, t).Continue?
    ensures CursorAfter(s, cursor) == 1
  {
  }

  lemma MeasuredKeeps(c: Config, s: Side, id: nat, t: W.Tick, e: W.Ending)
    requires SideInv(c, s) && id < |s.streams| && s.streams[id].task.Loading? && W.ValidTick(c.params, t)
    requires t.signal == SignalOf(s, s.streams[id].task.cursor)
    ensures SideInv(c, Measured(c, s, id, t, e))
    ensures var r := Measured(c, s, id, t, e).streams[id].task;
            !r.Failed? ==> Counted(r) == Counted(s.streams[id].task)
                                         + W.Transferred(EndpointOf(c, s, id), s.streams[id].task.meter, t)
  {
    var ep, m := EndpointOf(c, s, id), s.streams[id].task.meter;
    assert TaskFits(c, s.role, s.oldState.Running?, |s.published|, id, s.streams[id]);
    WorkerLaws.IterateKeepsAccounts(ep, m, t);
    if W.Iterate(ep, m, t).Continue? {
      StillListening(s, s.streams[id].task.cursor, ep, m, t);
    }
    match W.Iterate(ep, m, t)
    case Continue(next) => SetTaskKeeps(c, s, id, Loading(CursorAfter(s, s.streams[id].task.cursor), next));
    case Leave(left, _) =>
      if e.accepted {
        var task := Returned(W.Summary(ep, left, e));
        SetTaskKeeps(c, s, id, task);
        TrySendKeeps(c, SetTask(s, id, task), StreamTerminated(id));
      } else {
        SetTaskKeeps(c, s, id, Failed);
      }
    case Abandon(_) => SetTaskKeeps(c, s, id, Failed);
  }

  lemma StartWorkerKeeps(c: Config, s: Side, id: nat, startTime: nat, gap: nat)
    requires SideInv(c, s) && CanStart(s, id)
    ensures SideInv(c, SetTask(s, id, Started(s, id, startTime, gap)))
  {
    assert TaskFits(c, s.role, s.oldState.Running?, |s.published|, id, s.streams[id]);
    WorkerLaws.NewMeterAccounts(EndpointOf(c, s, id), startTime, gap);
    SetTaskKeeps(c, s, id, Started(s, id, startTime, gap));
  }

  /** What the head of the event loop has to know from elsewhere to start the load. */
  lemma WakeKeeps(c: Config, s: Side, shutdown: bool)
    requires SideInv(c, s) && s.pc.Top? && (s.role.Server? ==> !s.state.Start?)
    requires !s.state.ExchangeResults? && !s.state.Terminate?
    requires s.state.Running? ==> |s.streams| == c.Total()
    requires s.oldState.Running? ==> s.state.Running?
    ensures SideInv(c, Wake(s, shutdown))
  {
    var load := s.state.Running? && !s.oldState.Running?;
    if !load || HasReceiver(s.streams) {
      var r := s.(published := if load then s.published + [StartLoad] else s.published, oldState := s.state);
      assert SideInv(c, r);
      if shutdown {
        TrySendKeeps(c, r, Stop);
      }
    }
  }

  lemma FinishKeeps(c: Config, s: Side)
    requires SideInv(c, s) && s.pc.Top? && (s.state.ExchangeResults? || s.state.Terminate?)
    ensures SideInv(c, Finish(s))
  {
  }

  lemma DrainKeeps(c: Config, s: Side, id: nat)
    requires SideInv(c, s) && s.pc.Draining?
    ensures SideInv(c, DrainOne(s, id))
  {
    ReapKeeps(s, id, TaskOf(s, id));
  }

  lemma CommitKeepsSide(c: Config, s: Side)
    requires SideInv(c, s) && s.pc.Announced?
    ensures SideInv(c, Commit(s, s.pc.next))
  {
  }

  lemma JoinKeepsSide(c: Config, s: Side, conn: nat)
    requires SideInv(c, s) && s.pc.AwaitWelcome?
    ensures SideInv(c, Register(c.params, s, conn).(pc := Top))
  {
    RegisterKeeps(c, s, conn);
  }

  lemma AbortKeepsSide(c: Config, s: Side)
    requires SideInv(c, s)
    ensures SideInv(c, s.(pc := Aborted))
  {
  }
}
