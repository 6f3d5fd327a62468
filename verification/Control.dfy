/**
 * One controller as a value: the state that run_controller and its helpers update, and one function
 * for each thing the controller does between two points at which other tasks may run.
 */
module Control {
  import opened Messages
  import W = Worker

  // ---- How many streams there are, and who sends on which ----

  /** A server sends on as many streams as its client receives on. */
  function NumSendStreams(params: Parameters, role: Role): nat {
    match role
    case Client => if params.direction.ServerToClient? then 0 else params.parallel
    case Server => if params.direction.ClientToServer? then 0 else params.parallel
  }

  function NumReceiveStreams(params: Parameters, role: Role): nat {
    NumSendStreams(params, if role.Client? then Server else Client)
  }

  function TotalStreams(params: Parameters): nat {
    NumSendStreams(params, Client) + NumReceiveStreams(params, Client)
  }

  /** Each side decides from its own number of a stream whether it sends on it. */
  predicate IsSending(params: Parameters, role: Role, index: nat) {
    var first := index < NumSendStreams(params, role);
    if role.Server? && params.direction.Bidirectional? then !first else first
  }

  /** Both sides count the same streams, and of every stream exactly one side is the sender. */
  lemma OneSenderPerStream(params: Parameters, index: nat)
    requires index < TotalStreams(params)
    ensures NumSendStreams(params, Server) + NumReceiveStreams(params, Server) == TotalStreams(params)
    ensures IsSending(params, Client, index) != IsSending(params, Server, index)
  {
  }

  /** Which end of stream `index` a side is meant to be, by the direction of the test alone. */
  predicate MeantToSend(params: Parameters, role: Role, index: nat) {
    match params.direction
    case ClientToServer => role.Client?
    case ServerToClient => role.Server?
    case Bidirectional => role.Client? <==> index < params.parallel
  }

  /** The direction of a test is the direction its data goes: the sides' own decisions add up to it. */
  lemma SendsAsMeant(params: Parameters, role: Role, index: nat)
    requires index < TotalStreams(params)
    ensures IsSending(params, role, index) <==> MeantToSend(params, role, index)
    ensures TotalStreams(params) == if params.direction.Bidirectional? then 2 * params.parallel else params.parallel
  {
  }

  /** On how many of its first `n` streams a side sends. */
  function SendingBelow(params: Parameters, role: Role, n: nat): nat {
    if n == 0 then 0 else SendingBelow(params, role, n - 1) + (if IsSending(params, role, n - 1) then 1 else 0)
  }

  lemma {:induction false} SendingCount(params: Parameters, role: Role, n: nat)
    requires n <= TotalStreams(params)
    ensures var sends := NumSendStreams(params, role);
            SendingBelow(params, role, n)
            == if role.Server? && params.direction.Bidirectional? then (if n < sends then 0 else n - sends)
               else (if n < sends then n else sends)
  {
    if n > 0 {
      SendingCount(params, role, n - 1);
    }
  }

  /** A side sends on as many streams as its count of sending streams says, although it decides stream by stream. */
  lemma SendsAsManyAsCounted(params: Parameters, role: Role)
    ensures SendingBelow(params, role, TotalStreams(params)) == NumSendStreams(params, role)
  {
    SendingCount(params, role, TotalStreams(params));
  }

  // ---- The controller ----

  /** One stream worker, as a task; `cursor` is how much of the broadcast it has consumed. */
  datatype Task = Waiting(cursor: nat) | Loading(cursor: nat, meter: W.Meter) | Returned(summary: StreamStats) | Failed
  {
    predicate Over() { Returned? || Failed? }
  }

  datatype DataStream = DataStream(conn: nat, isSending: bool, task: Task)

  /** Where a controller is; between two of these points nothing else can touch what it reads. */
  datatype Pc =
    | Top                    // at the head of the event loop
    | Announced(next: State) // server: SetState written, local state not yet assigned
    | AwaitWelcome(conn: nat) // client: connected and said hello on a data connection
    | Select                 // waiting for a message
    | Draining               // in collect_stream_results
    | AwaitResults           // in exchange_results, waiting for the peer's results
    | Replying               // server: has the client's results, has yet to send its own
    | Done
    | Aborted

  datatype Side = Side(
    role: Role,
    pc: Pc,
    state: State,
    oldState: State,
    queue: seq<ControllerMessage>,
    published: seq<WorkerMessage>,
    streams: seq<DataStream>,  // by stream id; their number is the stream index
    workers: set<nat>,         // ids whose join handle is still held
    results: Results,
    lost: set<nat>,            // history: ids whose worker failed or timed out
    remote: Option<Results>,
    history: seq<State>)       // history: every state this side has been in
  {
    predicate Alive() { !pc.Done? && !pc.Aborted? }
  }

  function InitialSide(role: Role): Side {
    Side(role, Top, Start, Start, [], [], [], {}, map[], {}, None, [Start])
  }

  /** A message for the controller's queue is dropped when the queue is full or the controller is gone. */
  function TrySend(s: Side, m: ControllerMessage): Side {
    if s.Alive() && |s.queue| < INTERNAL_PORT_BUFFER then s.(queue := s.queue + [m]) else s
  }

  function Commit(s: Side, next: State): Side {
    s.(state := next, history := s.history + [next], pc := Top)
  }

  /** set_state up to the point where the server has written the state to its client. */
  function RequestState(s: Side, next: State): Side {
    if s.role.Server? then s.(pc := Announced(next)) else Commit(s, next)
  }

  /** Some worker still subscribes to the broadcast: a task that is over has dropped its receiver. */
  predicate HasReceiver(streams: seq<DataStream>) {
    exists i :: 0 <= i < |streams| && !streams[i].task.Over()
  }

  /**
   * The head of the event loop when the test goes on: starts the load on entering Running. Publishing
   * to nobody is an error, and the controller gives up.
   */
  function Wake(s: Side, shutdown: bool): Side {
    var load := s.state.Running? && !s.oldState.Running?;
    if load && !HasReceiver(s.streams) then s.(pc := Aborted) else
    var r := s.(published := if load then s.published + [StartLoad] else s.published, oldState := s.state);
    var t := if shutdown then TrySend(r, Stop) else r;
    t.(pc := Select)
  }

  /** The head of the event loop when the test is over: tells the workers, then drains them. */
  function Finish(s: Side): Side {
    s.(published := s.published + [StopLoad], pc := Draining)
  }

  function Register(params: Parameters, s: Side, conn: nat): Side {
    var id := |s.streams|;
    s.(streams := s.streams + [DataStream(conn, IsSending(params, s.role, id), Waiting(|s.published|))],
       workers := s.workers + {id})
  }

  function AcceptStream(params: Parameters, s: Side, conn: nat): Side {
    var r := Register(params, s, conn);
    if |r.workers| == TotalStreams(params) then RequestState(r, Running) else r.(pc := Top)
  }

  /** Takes the result of worker `id`, whose task has settled as `task`, out of the workers. */
  function Reap(s: Side, id: nat, task: Task): Side {
    if id !in s.workers then s
    else if task.Returned? then s.(workers := s.workers - {id}, results := s.results[id := task.summary])
    else s.(workers := s.workers - {id}, lost := s.lost + {id})
  }

  /** A stream has terminated: the server moves on only when no worker is left. */
  function StreamEnded(s: Side, id: nat, task: Task): Side {
    var r := Reap(s, id, task);
    if r.workers == {} && r.role.Server? then RequestState(r, ExchangeResults) else r.(pc := Top)
  }

  function TaskOf(s: Side, id: nat): Task {
    if id < |s.streams| then s.streams[id].task else Failed
  }

  /** Handles the first message of the queue; only a server may be asked to accept a stream. */
  function HandleInternal(params: Parameters, s: Side): Side
    requires s.queue != []
  {
    var r := s.(queue := s.queue[1..]);
    match s.queue[0]
    case CreateStream(conn) => if s.role.Server? then AcceptStream(params, r, conn) else r.(pc := Aborted)
    case StreamTerminated(id) => StreamEnded(r, id, TaskOf(r, id))
    case Stop => RequestState(r, Terminate)
  }

  /** A client follows the server's state; any other message is ignored. */
  function FollowServer(s: Side, m: ServerMessage): Side {
    match m
    case SetState(state) => RequestState(s, state)
    case _ => s.(pc := Top)
  }

  /** The drain waits for worker `id` until it settles or five seconds have passed. */
  function DrainOne(s: Side, id: nat): Side {
    Reap(s, id, TaskOf(s, id))
  }

  // ---- What every one of these steps keeps ----

  ghost function Ids(n: nat): (r: set<nat>)
    ensures (forall i: nat :: i in r <==> i < n) && |r| == n
  {
    if n == 0 then {} else Ids(n - 1) + {n - 1}
  }

  /** Every stream is in exactly one place: still held, with a result, or lost. */
  ghost predicate Partition(s: Side) {
    && (forall i: nat :: i < |s.streams| <==> i in s.workers || i in s.results || i in s.lost)
    && s.workers !! s.results.Keys && s.workers !! s.lost && s.results.Keys !! s.lost
  }

  /** A result is what its worker returned, filed under its own id. */
  ghost predicate ResultsReturned(s: Side) {
    forall i :: i in s.results ==> i < |s.streams| && s.streams[i].task == Returned(s.results[i])
  }
}
