/** The values that travel between the parties of a test, and the limits they agree on. */
module Messages {

  datatype Option<+T> = None | Some(value: T)

  /** Capacity of a controller's message queue. */
  const INTERNAL_PORT_BUFFER: nat := 5
  /** Number of bytes in the length prefix of a control frame. */
  const MESSAGE_LENGTH_SIZE_BYTES: nat := 4
  /** Largest payload a reader accepts, in bytes. */
  const MAX_CONTROL_MESSAGE_SIZE: nat := 20 * 1024 * 1024
  const U16_LIMIT: nat := 0x1_0000
  const U32_LIMIT: nat := 0x1_0000_0000

  datatype Role = Client | Server

  datatype Direction = ClientToServer | ServerToClient | Bidirectional

  /** The parameters of a test that its logic depends on; times are in seconds. */
  datatype Parameters = Parameters(
    direction: Direction,
    duration: nat,
    parallel: nat,
    blockSize: nat,
    interval: nat,
    maxLength: Option<nat>)

  datatype StreamStats = StreamStats(
    id: nat,
    index: Option<nat>,
    duration: nat, // milliseconds
    bytesTransferred: nat,
    retransmits: Option<nat>,
    cwnd: Option<nat>,
    isSending: bool,
    isPeer: bool,
    isSummary: bool)

  type Results = map<nat, StreamStats>

  datatype State = Start | CreateStreams(cookie: string) | Running | ExchangeResults | Terminate

  datatype ClientMessage =
    | Hello(cookie: string)
    | SendParameters(params: Parameters)
    | ClientResults(results: Results)

  datatype ServerMessage = Welcome | SetState(state: State) | ServerResults(results: Results)

  datatype ServerError = PerfTestAlreadyInFlight

  /** The client has no error to send: its error enumeration is empty in the source. */
  datatype ClientEnvelope = ClientEnvelope(message: ClientMessage)

  datatype ServerEnvelope = ServerMessage(message: ServerMessage) | ServerFailure(error: ServerError)

  datatype WorkerMessage = StartLoad | StopLoad

  datatype ControllerMessage = CreateStream(conn: nat) | StreamTerminated(id: nat) | Stop

  /** Marks every entry of a received result map as the peer's. */
  function AsPeer(results: Results): (r: Results)
    ensures r.Keys == results.Keys
  {
    map id | id in results :: results[id].(isPeer := true)
  }
}
