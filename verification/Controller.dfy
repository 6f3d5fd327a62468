/** The controller as an object that updates its own fields, proved against the functions of Control and EventLoop. */
module Controller {
  import opened Messages
  import opened Control
  import opened EventLoop
  import opened Perf

  class Controller {
    const perf: Perf
    var streamIndex: nat
    var queue: seq<ControllerMessage>   // what other tasks have sent and this controller has not received
    var published: seq<WorkerMessage>
    var workers: set<nat>               // ids whose join handle is held
    var streamResults: Results
    var streams: seq<DataStream>        // what was spawned; workers progress on their own
    var oldState: State                 // the state acted on in the last pass of the event loop
    var sentResults: seq<ClientMessage> // what a client has written to the control connection
    var remoteResults: Option<Results>
    var pc: Pc                          // how far run_controller has come
    ghost var lost: set<nat>

    ghost predicate Valid()
      reads this, perf
    {
      && streamIndex == |streams|
      && perf.numSendStreams == NumSendStreams(perf.params, perf.role)
      && perf.numReceiveStreams == NumReceiveStreams(perf.params, perf.role)
    }

    /** The controller as a value. */
    ghost function View(): Side
      reads this, perf
    {
      Side(perf.role, pc, perf.state, oldState, queue, published, streams, workers, streamResults, lost, remoteResults,
           perf.history)
    }

    constructor (perf: Perf)
      requires perf.numSendStreams == NumSendStreams(perf.params, perf.role)
      requires perf.numReceiveStreams == NumReceiveStreams(perf.params, perf.role)
      requires perf.state == Start && perf.history == [Start]
      ensures Valid() && this.perf == perf && View() == InitialSide(perf.role) && sentResults == []
    {
      this.perf, streamIndex, streams := perf, 0, [];
      queue, published, workers, streamResults, oldState := [], [], {}, map[], Start;
      sentResults, remoteResults, pc, lost := [], None, Top, {};
    }

    /** Changes the state of the test; the caller fails if the client cannot be told. */
    method SetState(next: State, written: bool) returns (ok: bool)
      requires Valid()
      modifies this`pc, perf
      ensures Valid() && View() == Settle(RequestState(old(View()), next), written)
      ensures ok <==> perf.role.Client? || written
    {
      ok := perf.SetState(next, written);
      pc := if ok then Top else Aborted;
    }

    /** Numbers the stream, decides which end of it this side is, and spawns its worker. */
    method CreateAndRegisterStreamWorker(conn: nat)
      requires Valid()
      modifies this`streamIndex, this`streams, this`workers
      ensures Valid() && View() == Register(perf.params, old(View()), conn)
    {
      var isSending := streamIndex < perf.numSendStreams;
      if perf.role == Server && perf.params.direction == Bidirectional {
        isSending := !isSending;
      }
      var workerId, receiver := streamIndex, |published|;
      streams := streams + [DataStream(conn, isSending, Waiting(receiver))];
      workers := workers + {workerId};
      streamIndex := streamIndex + 1;
    }

    /** Opens the missing data connections one after the other; `joins` answers the attempts. */
    method CreateStreams(joins: seq<Option<nat>>) returns (ok: bool)
      requires Valid() && perf.role.Client?
      requires |streams| + |joins| >= TotalStreams(perf.params)
      modifies this`streamIndex, this`streams, this`workers, this`pc
      ensures Valid() && View() == JoinAll(perf.params, old(View()), joins)
      ensures !ok ==> pc.Aborted?
      ensures ok ==> pc == old(pc) && |streams| >= TotalStreams(perf.params)
    {
      var totalNeededStreams := perf.numSendStreams + perf.numReceiveStreams;
      var k := 0;
      while streamIndex < totalNeededStreams
        invariant Valid() && k <= |joins| && pc == old(pc)
        invariant |streams| + |joins| - k >= totalNeededStreams == TotalStreams(perf.params)
        invariant JoinAll(perf.params, old(View()), joins) == JoinAll(perf.params, View(), joins[k..])
      {
        assert joins[k..][0] == joins[k] && joins[k..][1..] == joins[k + 1..];
        if joins[k].None? {
          pc := Aborted;
          return false;
        }
        CreateAndRegisterStreamWorker(joins[k].value);
        k := k + 1;
      }
      ok := true;
    }

    /** Only a server accepts streams; with the last one that is missing the test is running. */
    method AcceptStream(conn: nat, written: bool) returns (ok: bool)
      requires Valid() && perf.role.Server?
      modifies this`streamIndex, this`streams, this`workers, this`pc, perf
      ensures Valid() && View() == Settle(Control.AcceptStream(perf.params, old(View()), conn), written)
      ensures ok <==> !pc.Aborted?
    {
      var totalNeededStreams := perf.numSendStreams + perf.numReceiveStreams;
      CreateAndRegisterStreamWorker(conn);
      ok := true;
      pc := Top;
      if |workers| == totalNeededStreams {
        ok := SetState(Running, written);
      }
    }

    /** Takes the worker out of the held ones and files its result, if it has one. */
    method TakeResult(id: nat)
      requires Valid()
      modifies this`workers, this`streamResults, this`lost
      ensures Valid() && View() == Reap(old(View()), id, TaskOf(old(View()), id))
    {
      if id in workers {
        workers := workers - {id};
        if id < |streams| && streams[id].task.Returned? {
          streamResults := streamResults[id := streams[id].task.summary];
        } else {
          lost := lost + {id};
        }
      }
    }

    /** Handles the first message of the queue. */
    method ProcessInternalMessage(written: bool) returns (ok: bool)
      requires Valid() && Ready(View())
      modifies this, perf
      ensures Valid() && View() == Settle(HandleInternal(perf.params, old(View())), written)
      ensures ok <==> !pc.Aborted?
      ensures sentResults == old(sentResults)
    {
      var message := queue[0];
      queue := queue[1..];
      match message {
        case CreateStream(conn) =>
          if perf.role != Server {
            pc := Aborted;
            return false;
          }
          ok := AcceptStream(conn, written);
        case StreamTerminated(id) =>
          TakeResult(id);
          ok := true;
          pc := Top;
          if workers == {} && perf.role == Server {
            ok := SetState(ExchangeResults, written);
          }
        case Stop =>
          ok := SetState(Terminate, written);
      }
    }

    method ProcessServerMessage(message: ServerMessage)
      requires Valid() && perf.role.Client?
      modifies this`pc, perf
      ensures Valid() && View() == FollowServer(old(View()), message)
    {
      if message.SetState? {
        var ok := SetState(message.state, true);
      } else {
        pc := Top;
      }
    }

    /** Waits for every worker that is still held, in whatever order they come out of the map. */
    method CollectStreamResults() returns (localResults: Results)
      requires Valid()
      modifies this`workers, this`streamResults, this`lost
      ensures Valid() && View() == DrainAll(old(View()))
      ensures localResults == streamResults
    {
      while workers != {}
        invariant Valid() && DrainAll(View()) == DrainAll(old(View()))
        invariant View() == old(View()).(workers := workers, results := streamResults, lost := lost)
        decreases |workers|
      {
        var id :| id in workers;
        DrainOneCommutes(View(), id);
        TakeResult(id);
      }
      DrainNone(View());
      localResults := streamResults;
    }

    /** Marks every entry as the peer's. */
    method MarkAsPeer(results: Results) returns (marked: Results)
      ensures marked == AsPeer(results)
    {
      marked := results;
      var left := results.Keys;
      while left != {}
        invariant left <= results.Keys == marked.Keys
        invariant forall id :: id in results ==>
                    marked[id] == if id in left then results[id] else results[id].(isPeer := true)
        decreases |left|
      {
        var id :| id in left;
        marked := marked[id := marked[id].(isPeer := true)];
        left := left - {id};
      }
    }

    /** A client sends its results and reads the server's; a server reads before it sends. */
    method ExchangeStreamResults(e: Closing) returns (ok: bool)
      requires Valid()
      modifies this`pc, this`remoteResults, this`sentResults, perf`sent
      ensures Valid() && View() == Exchanged(old(View()), e)
      ensures ok <==> pc.Done?
      ensures sentResults == old(sentResults)
                + if perf.role.Client? && e.written then [ClientResults(streamResults)] else []
      ensures perf.sent == old(perf.sent)
                + if perf.role.Server? && e.written && e.fromClient.Some? && e.fromClient.value.ClientResults?
                  then [ServerResults(streamResults)] else []
    {
      ok, pc := false, Aborted;
      if perf.role == Client {
        if !e.written {
          return;
        }
        sentResults := sentResults + [ClientResults(streamResults)];
        if e.fromServer.None? || !e.fromServer.value.ServerResults? {
          return;
        }
        var remote := MarkAsPeer(e.fromServer.value.results);
        remoteResults := Some(remote);
      } else {
        if e.fromClient.None? || !e.fromClient.value.ClientResults? {
          return;
        }
        var remote := MarkAsPeer(e.fromClient.value.results);
        remoteResults := Some(remote);
        if !e.written {
          return;
        }
        perf.sent := perf.sent + [ServerResults(streamResults)];
      }
      ok, pc := true, Done;
    }

    /** A message from another task: dropped when the queue is full or the controller is gone. */
    method Deliver(message: ControllerMessage)
      requires Valid()
      modifies this`queue
      ensures Valid() && View() == TrySend(old(View()), message)
    {
      if pc != Done && pc != Aborted && |queue| < INTERNAL_PORT_BUFFER {
        queue := queue + [message];
      }
    }

    /** Gives way to the other tasks: workers progress, and messages are sent. */
    method GiveWay(w: World)
      requires Valid()
      modifies this`queue, this`streams
      ensures Valid() && View() == Elapse(old(View()), w)
    {
      streams := WithTasks(streams, w.tasks);
      var k := 0;
      assert w.sent[k..] == w.sent;
      while k < |w.sent|
        invariant 0 <= k <= |w.sent| && Valid()
        invariant Elapse(old(View()), w) == SendAll(View(), w.sent[k..])
      {
        assert w.sent[k..][0] == w.sent[k] && w.sent[k..][1..] == w.sent[k + 1..];
        Deliver(w.sent[k]);
        k := k + 1;
      }
    }

    /** Acts on what the wait came up with. */
    method ActOn(choice: Choice, written: bool)
      requires Valid()
      modifies this, perf
      ensures Valid() && View() == Act(perf.params, old(View()), choice, written)
      ensures sentResults == old(sentResults)
    {
      match choice {
        case Internal =>
          if IsReady() {
            var ok := ProcessInternalMessage(written);
          }
        case FromServer(m) =>
          if perf.role == Client {
            ProcessServerMessage(m);
          }
        case ControlLost =>
          if perf.role == Client {
            pc := Aborted;
          }
        case ShutdownSignal =>
          var ok := SetState(Terminate, written);
      }
    }

    predicate IsReady()
      reads this, perf
      ensures IsReady() <==> Ready(View())
    {
      && queue != []
      && (queue[0].StreamTerminated? && queue[0].id in workers ==>
            queue[0].id >= |streams| || streams[queue[0].id].task.Over())
    }

    /** Publishes to the workers that still subscribe; with none left there is nobody to send to. */
    method Publish(message: WorkerMessage) returns (ok: bool)
      modifies this`published
      ensures ok <==> HasReceiver(streams)
      ensures published == if ok then old(published) + [message] else old(published)
    {
      var k := 0;
      while k < |streams| && streams[k].task.Over()
        invariant 0 <= k <= |streams| && forall i :: 0 <= i < k ==> streams[i].task.Over()
      {
        k := k + 1;
      }
      ok := k < |streams|;
      if ok {
        assert !streams[k].task.Over();
        published := published + [message];
      }
    }

    /** Starts the load on entering Running, and notes a shutdown that has already been asked for. */
    method WakeUp(shutdown: bool) returns (ok: bool)
      requires Valid() && pc.Top?
      modifies this
      ensures Valid() && View() == Wake(old(View()), shutdown)
      ensures ok <==> !pc.Aborted?
      ensures sentResults == old(sentResults)
    {
      ok := true;
      if perf.state == Running && oldState != Running {
        ok := Publish(StartLoad);
        if !ok {
          pc := Aborted;
          return;
        }
      }
      oldState := perf.state;
      if shutdown {
        Deliver(Stop);
      }
      pc := Select;
    }

    /** One pass of the event loop. */
    method LoopBody(t: Turn)
      requires Valid() && pc.Top?
      requires perf.role.Client? && perf.state.CreateStreams? ==> |streams| + |t.joins| >= TotalStreams(perf.params)
      modifies this, perf
      ensures Valid() && View() == Pass(perf.params, perf.cookie, old(View()), t)
      ensures sentResults == old(sentResults)
    {
      match perf.state {
        case Start =>
          if perf.role == Server {
            var ok := SetState(State.CreateStreams(perf.cookie), t.written);
            return;
          }
        case CreateStreams(_) =>
          if perf.role == Client {
            var ok := CreateStreams(t.joins);
            if !ok {
              return;
            }
          }
        case Running =>
        case _ =>
          published := published + [StopLoad];
          pc := Draining;
          return;
      }
      var awake := WakeUp(t.shutdown);
      if !awake {
        return;
      }
      GiveWay(t.world);
      ActOn(t.choice, t.written);
    }

    /**
     * The whole life of a controller, given what its surroundings do in every pass of its loop and
     * once it has left it; it may still be waiting when `turns` is used up.
     */
    method RunController(turns: seq<Turn>, e: Closing) returns (ok: bool)
      requires Valid() && pc.Top?
      requires forall t :: t in turns ==> |t.joins| >= TotalStreams(perf.params)
      modifies this, perf
      ensures Valid() && View() == Close(Passes(perf.params, perf.cookie, old(View()), turns), e)
      ensures ok <==> pc.Done?
    {
      var k := 0;
      while pc == Top && k < |turns|
        invariant 0 <= k <= |turns| && Valid()
        invariant Passes(perf.params, perf.cookie, old(View()), turns) ==
                  Passes(perf.params, perf.cookie, View(), turns[k..])
      {
        assert turns[k..][0] == turns[k] && turns[k..][1..] == turns[k + 1..];
        LoopBody(turns[k]);
        k := k + 1;
      }
      if pc == Draining {
        GiveWay(World([], e.tasks));
        var localResults := CollectStreamResults();
        if perf.state == ExchangeResults {
          var exchanged := ExchangeStreamResults(e);
        } else {
          pc := Done;
        }
      }
      ok := pc == Done;
    }
  }
}
