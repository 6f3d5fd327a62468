# Verified model of the two-party throughput test

A test runs between a client and a server. They share a control connection, over which the server
dictates the state of the test (Start, CreateStreams, Running, ExchangeResults, Terminate) and both
exchange their results at the end. The client opens the data connections one after the other; each
side numbers them as they reach it and decides from that number alone whether it sends or receives.
A worker per data connection moves bytes until its time or its byte limit is up. On the server an
accept loop hands data connections to the controller of the test in flight, through a queue of five
places that drops what does not fit.

This project models that system in Dafny and proves what it guarantees. It has five layers.

- **Values and framing.** `Messages` holds the messages, `Framing` the length-prefixed frames and a
  connection whose reads arrive in pieces of any size, `Broadcast` the one-place channel from a
  controller to its workers.
- **Workers.** `Worker` is the measuring loop, as a function of everything its environment does and
  as an object proved to compute that function; `WorkerLaws` is what every run of it satisfies, and
  `WorkerOutcome` tells its outcome from sums over its whole script.
- **Controllers.** `Control` has the stream counts and one function for each thing a controller
  does; `EventLoop` composes them into whole passes and whole lives; `Perf` and `Controller` are the
  objects, each method proved to do exactly what the function says.
- **The accept loop.** `AcceptLoop` covers any sequence of inbound connections, strangers included;
  `TestLife` proves of the controllers what the accept loop counts on.
- **The joint protocol.** `Protocol` puts a server, a client, their control connection, every data
  connection byte by byte, every worker and the accept loop into one state machine with 24 kinds of
  step, interleaved in any order. `Invariant` is the inductive invariant; `SideSafety`,
  `HistorySafety`, `ExchangeSafety`, `ConnSafety`, `BytesSafety` and `Safety` prove that every step
  keeps it. `Theorems` draws the conclusions for all reachable states. `Refinement` and `WorkerRuns`
  show that what a controller object, the accept loop and a measuring loop do is made of steps of this
  machine.
- **Progress.** `Queues`, `Ranking`, `Progress` and `Completion` prove that a healthy run always
  completes; `Gap`, `Overload` and `NobodyLeft` show what happens without its conditions. A run is healthy
  if nobody shuts it down, spoils a handshake or loses a control connection, if no worker of the server
  fails, if the client keeps a worker until its load has started, and if the server assigns a state
  before the accept loop looks at it.

Run `dafny verify dfyconfig.toml` to check everything.

## Assumptions about the surroundings

- A connection is a reliable first-in first-out byte stream in each direction. A read or write that
  times out moves no bytes, and a timeout of 100 ms takes at least 100 ms. The clock never goes back.
- A broadcast subscriber that is overtaken by more than one message is told that it lags.
- Control frames are read whole. (A client reads its control connection inside a `select!`, and a
  read that is cancelled half-way is not covered.)
- Only the test's own client presents the test's cookie. Connections that present other cookies, or
  nothing readable, may arrive at any time.
- There is at least one stream, and the total number of streams fits into 16 bits.
- The payload encoding is any pair of functions of which the second undoes the first, and the
  handshake messages encode to at most the largest control message.
- Without a byte limit, every run of a worker's loop body takes some time on the clock: the bound of a
  healthy run (`Progress.Advances`) and `WorkerLaws.LoopEndsByClock` need it, and nothing else does.
- The accept loop holds the lock on the test's state from the moment it has seen CreateStreams until
  it has tried to enqueue the stream (the temporary in the `if let` of src/server.rs:174 lives that
  long, under the 2024 edition that Cargo.toml declares).

## Four places where the code does less than one might expect

- The byte limit is not a maximum. The loop is left only once strictly more than the limit has moved,
  and the last call may add a whole block (`WorkerLaws.RunBalances` bounds the overshoot,
  `WorkerLaws.OvershootReached` shows that every parameter set that can move data can reach it). The
  limit is kept exactly by tests with a block size of 0 (`WorkerLaws.LimitKeptIff`).
- The server writes a new state to its client before it assigns that state. A client that connects in
  between is turned away and gives up, in a run with no failure of any kind (`Gap.GapAborts`). A test
  one of whose connections is turned away can never run (`Gap.GapIsFatal`). As long as nobody stops
  the test, this happens exactly while CreateStreams is announced and not yet assigned
  (`Gap.TurnedAwayIffUncommitted`).
- A test with more streams than the queue has places can lose one although nothing goes wrong, and is
  then stuck for good (`Overload.OverflowIsFatal`). With at most five streams nothing is ever
  refused, and the bound is exact (`Overload.NothingRefusedIff`).
- Publishing StartLoad can fail for want of a receiver. A worker allocates its block buffer before it
  first listens (src/stream_workers.rs:57), and a block that cannot be allocated, for instance one
  larger than the address space, kills it there; the controller still counts it. The publication
  finds a receiver exactly if some worker of the side has not failed
  (`Theorems.StartLoadReceivedIff`), and for every test there is a run in which none is left
  (`NobodyLeft.LoadFindsNobody`).

The measuring loop with a byte limit runs its body at most `maxLength + 10 * duration + 2` times,
the run that leaves the loop included, and `WorkerLaws.LoopLimitReached` shows that no smaller bound
holds.

## Model

| member | source | states |
|---|---|---|
| Framing.U32RoundTrip | src/net_util.rs:92-105 | the length a writer puts into the header is the length a reader takes out of it |
| Framing.U32Header | src/net_util.rs:92-105 | no two headers stand for the same length |
| Framing.U32BigEndian | src/net_util.rs:92-105 | headers are big-endian: the first differing byte decides which length is smaller |
| Framing.ReadFrameExact | src/net_util.rs:105-134 | a read yields a payload exactly when the wire starts with that payload's frame and the payload is within the limit; it takes that frame and nothing after it |
| Framing.ReadableIffWithinLimit | src/net_util.rs:89-109 | a payload the writer accepts is readable if and only if it is within the reader's limit; beyond it the reader stops after exactly four bytes |
| Framing.StrictPrefixNeverDecoded | src/net_util.rs:105-128 | a frame that is cut short anywhere is never decoded |
| Framing.FramesRoundTrip | src/net_util.rs:79-136 | successive reads return exactly the payloads written, in order, and leave exactly the bytes that follow |
| Framing.ByteStream.ReadSome | src/net_util.rs:119-120 | one socket read: any number of the bytes that are there, up to the limit, in order |
| Framing.ByteStream.ReadU32 | src/net_util.rs:105 | the header is four bytes, however they arrive |
| Framing.ByteStream.ReadControlMessage | src/net_util.rs:100-136 | the reader returns exactly the payload whose frame heads the stream and leaves exactly the rest, however the network cuts it up; every other stream gives its own error |
| Framing.ReportReadsWell | src/net_util.rs:105-135 | what the reader answers in each case, told from the bytes alone: the payload, too large after four bytes, closed inside a body, or an I/O error |
| Framing.ReadsWellExactly | src/net_util.rs:105-135 | only the payload of the frame at the head of the stream is ever returned |
| Framing.SendAndReceive | src/net_util.rs:79-136 | what one end writes the other end reads, and nothing of what follows; a payload beyond the limit is refused after its header |
| Framing.ByteStream.WriteControlMessage | src/net_util.rs:79-98 | the writer emits the frame; a write that fails emits a prefix of it |
| Framing.EnvelopesRoundTrip | src/net_util.rs:17-77 | messages and errors arrive as what they were sent as, with any bytes after them left in place |
| Broadcast.Receive | src/controller.rs:48 | a subscriber gets the oldest message it has not seen, and lags exactly when more than one is waiting |
| Worker.StreamWorker.LoopBody | src/stream_workers.rs:93-157 | one run of the loop body has the verdict of the specification, and the loop's variables are its meter |
| Worker.StreamWorker.SendCurrentStats | src/stream_workers.rs:198-211 | the last, partial report |
| Worker.StreamWorker.LeaveLoop | src/stream_workers.rs:158-195 | last report, then summary |
| Worker.StreamWorker.MeasureLoop | src/stream_workers.rs:80-159 | the loop computes the specified run for everything the environment may do |
| Worker.StreamWorker.RunWorker | src/stream_workers.rs:55-196 | a worker measures only after StartLoad, and then as specified |
| WorkerLaws.IterateKeepsAccounts | src/stream_workers.rs:93-157 | the accounting invariant of the loop: bytes, numbering, time and the overshoot bound |
| WorkerLaws.RunBalances | src/stream_workers.rs:84-195 | reports sum to the summary's bytes and are numbered without gap; truncated durations sum to at most the summary's and lose less than a millisecond each; every report but the last spans the interval; the overshoot is at most a block |
| WorkerOutcome.FailsExactly | src/stream_workers.rs:93-161 | a started worker fails if and only if the first turn that ends its loop is a failed receive, a broken stream or a refused report, or its last report is refused |
| WorkerOutcome.ReturnsExactly | src/stream_workers.rs:93-195 | otherwise it returns the bytes moved by then over the time since it started, every interval reported, and the loop was left for the first reason that holds |
| WorkerOutcome.StopReturns | src/stream_workers.rs:114 | a worker that is told to stop before its time and bytes are up stops for that and returns what it has moved |
| WorkerOutcome.WorksUntilTimeIsUp | src/stream_workers.rs:93-97 | without a byte limit, and with nothing going wrong, a worker works exactly until more than the duration has passed |
| WorkerOutcome.WorksOnlyWhenStarted | src/stream_workers.rs:71-78 | any first message but StartLoad ends a worker before it reports anything |
| WorkerOutcome.ReportsOnTime | src/stream_workers.rs:143-156 | a report goes out in the very turn that completes an interval |
| WorkerOutcome.SummarySpan | src/stream_workers.rs:188 | the duration of a summary is the time from the start to the end in whole milliseconds |
| WorkerLaws.LoopEnds | src/stream_workers.rs:93-142 | with a byte limit the loop ends within a bound fixed by the parameters |
| WorkerLaws.LoopEndsByClock | src/stream_workers.rs:94-97 | without a byte limit, and with time passing in every run of the body, the loop ends once the duration is used up |
| WorkerLaws.LoopLimitReached | src/stream_workers.rs:93-142 | that bound is exact |
| WorkerLaws.OvershootReached | src/stream_workers.rs:98-131 | limit plus block size is reached, for all parameters that can move data |
| WorkerLaws.LimitKeptIff | src/stream_workers.rs:98-131 | every run of a worker keeps the byte limit if and only if the block size is 0 |
| Control.OneSenderPerStream | src/controller.rs:239-243 | both sides count the same streams, and exactly one side sends on each |
| Control.SendsAsMeant | src/controller.rs:239-243 | a side's own decision is what the direction of the test says, and the total is one or two streams for each parallel one |
| Control.SendsAsManyAsCounted | src/perf.rs:61-73 | deciding stream by stream, a side sends on as many streams as its role-swapped count says |
| Perf.Perf.constructor | src/perf.rs:61-88 | by direction and role, which of the two counts are the parallel streams; a server has the client's the other way round |
| Perf.Perf.Announce | src/perf.rs:92-98 | the first half of a change of state: a server writes it, and may fail to |
| Perf.Perf.SetState | src/perf.rs:91-103 | announce, then assign; a server that cannot tell its client stays where it is |
| EventLoop.DrainOrderIrrelevant | src/controller.rs:272-286 | in whatever order the workers come out of the map, the drain has the same outcome |
| EventLoop.DrainFilesAll | src/controller.rs:272-286 | the drain files the result of exactly those held workers that have returned, and keeps what was filed before |
| EventLoop.ElapseDelivers | src/controller.rs:147-171 | while a controller waits its workers get on, and of the messages sent to it the first ones get in as long as there is room |
| EventLoop.ClientFollowsState | src/controller.rs:163-164 | a waiting client that is sent a state is in that state |
| EventLoop.ClientIgnoresRest | src/controller.rs:347-353 | it ignores any other message, and gives up if the connection is lost |
| EventLoop.ShutdownTerminates | src/controller.rs:153-168 | a shutdown brings a side to Terminate, or ends a server that cannot tell its client |
| EventLoop.PassesCompose | src/controller.rs:64-172 | a run of the loop is one pass after the other |
| EventLoop.JoinAllCompletes | src/controller.rs:179-191 | the client opens exactly the missing connections, in order; asked again, it opens none |
| EventLoop.BooksStayBalanced | src/controller.rs:61-175 | whatever its surroundings do, a controller ends with every stream held, filed or lost, exactly one of them, and with none held if it has finished |
| Controller.Controller.constructor | src/controller.rs:46-58 | a new controller |
| Controller.Controller.SetState | src/perf.rs:91-103 | a change of state, as the controller sees it |
| Controller.Controller.CreateAndRegisterStreamWorker | src/controller.rs:236-270 | numbering, direction, subscription and registration of a stream |
| Controller.Controller.CreateStreams | src/controller.rs:179-191 | the loop opens what is missing, until one attempt fails |
| Controller.Controller.AcceptStream | src/controller.rs:356-366 | registers a stream and announces Running with the last one |
| Controller.Controller.TakeResult | src/controller.rs:327-334 | a worker leaves the held ones and its result, if any, is filed |
| Controller.Controller.ProcessInternalMessage | src/controller.rs:323-345 | the first message of the queue, each kind of it |
| Controller.Controller.ProcessServerMessage | src/controller.rs:347-353 | a client follows the server's state and ignores anything else |
| Controller.Controller.CollectStreamResults | src/controller.rs:272-286 | the draining loop, in an order it does not choose |
| Controller.Controller.MarkAsPeer | src/controller.rs:300-309 | every entry is marked, one by one, and nothing else changes |
| Controller.Controller.ExchangeStreamResults | src/controller.rs:289-320 | client writes then reads, server reads then writes, with every failure |
| Controller.Controller.Deliver | src/controller.rs:142-144 | a message is dropped when the queue is full or the controller is gone |
| Controller.Controller.GiveWay | src/controller.rs:147-171 | what other tasks do to a waiting controller |
| Controller.Controller.ActOn | src/controller.rs:147-171 | what comes first is handled, for each role |
| Controller.Controller.Publish | src/controller.rs:90-93 | publishing succeeds exactly if some worker still subscribes |
| Controller.Controller.WakeUp | src/controller.rs:90-145 | StartLoad is published on entering Running and only then; the controller gives up if nobody receives it |
| Controller.Controller.LoopBody | src/controller.rs:64-172 | one pass of the event loop |
| Controller.Controller.RunController | src/controller.rs:61-175 | the whole life of a controller |
| AcceptLoop.SingleTestInFlight | src/server.rs:48-106 | after any connections whatever at most one test is alive, weak reference and channel are that test's, and every queued stream was admitted under its cookie while it was creating streams |
| AcceptLoop.UnwrapsNeverFail | src/server.rs:60-67 | whenever the reference can be upgraded, the channel is there and is the same test's |
| AcceptLoop.AdmittedExactly | src/server.rs:134-199 | exactly which connections become streams, and which start a test |
| AcceptLoop.VerdictsExactly | src/server.rs:167-201 | what becomes of any connection while a test is alive |
| AcceptLoop.ToldExactly | src/server.rs:60-68 | the live test is told to stop if and only if a connection spoils its handshake while it creates streams, and gets the connection if and only if it is admitted; nothing else changes |
| AcceptLoop.ErrorsExactly | src/server.rs:134-165 | which error each failed handshake ends in |
| AcceptLoop.StartedTest | src/server.rs:88-92 | a new test has the cookie of its hello, starts from the beginning, and is the one the loop knows |
| AcceptLoop.AllAreServed | src/server.rs:51-114 | every connection is served, in the order of arrival |
| AcceptLoop.ServeAllComposes | src/server.rs:51-114 | serving is one connection after the other |
| AcceptLoop.SpoiledOnlyWhileCreating | src/server.rs:62-68 | a connection can make the live test terminate only while it creates streams, and only by failing its handshake |
| TestLife.MoveKeeps | src/controller.rs:61-366 | nothing a server controller does makes it leave its cookie, come back to life or find a stream nobody admitted |
| TestLife.LifeKeeps | src/controller.rs:61-175 | the same for its whole life, from any passes of its loop to its end |
| TestLife.OneTestWithControllers | src/server.rs:48-106 | the single-test guarantees for the accept loop together with the controllers it dispatches, stopped at any point of their own code |
| AcceptLoop.Listener.ReadCookie | src/server.rs:159-165 | a hello's cookie, or the error that another message or a failed read stands for |
| AcceptLoop.Listener.CreatePerf | src/server.rs:134-157 | the handshake of a new test, with its errors |
| AcceptLoop.Listener.TrySendTo | src/server.rs:183-185 | a lossy send to a test's controller |
| AcceptLoop.Listener.HandleCreateStream | src/server.rs:167-201 | a connection while a test is in flight |
| AcceptLoop.Listener.Accept | src/server.rs:57-108 | one inbound connection |
| AcceptLoop.Listener.Listen | src/server.rs:48-116 | the accept loop over any sequence of connections |
| Refinement.HeadIsSteps | src/controller.rs:64-145 | the head of a controller's event loop is the one or two steps of the joint protocol that belong to its state |
| Refinement.JoinIsSteps | src/controller.rs:186-234 | an attempt to open a data connection is a Connect and, later, a ReadWelcome or the end of the client |
| Refinement.JoinAllComposes | src/controller.rs:186-189 | attempt by attempt, the client goes on from where its earlier attempts have left it |
| Refinement.ConnectingHeadIsSteps | src/controller.rs:84-88 | after its attempts, a client that had connections to open wakes up in one step, or has given up |
| Refinement.ActIsSteps | src/controller.rs:147-171 | acting on what the wait came up with is the step that belongs to it, and for a server that announces a state the step that settles it |
| Refinement.ReadyExactly | src/controller.rs:150-151 | a controller handles a message exactly when it can take it in the joint protocol |
| Refinement.CloseIsSteps | src/controller.rs:95-136 | the drain is one Drain for every worker held, and the rest the steps that the exchange, with every failure of it, calls for |
| Refinement.ServeIsSteps | src/server.rs:57-201 | what the accept loop does with any connection, the client's or a stranger's, is the named steps that belong to its handshake, and the client finds the accept loop's answer |
| WorkerRuns.WorkerPlays | src/stream_workers.rs:93-195 | any run of the joint protocol leaves a working worker exactly as its measuring loop would on its own share of the run, unless it is killed from outside |
| Safety.StepKeepsInv | src/controller.rs:61-366 | every step of any party keeps the invariant |
| Safety.ReachableInv | src/controller.rs:61-366 | the invariant holds in every state of every run |
| BytesSafety.HelloReads | src/server.rs:159-165 | the server reads exactly the client's hello, whatever follows it |
| BytesSafety.WelcomeReads | src/controller.rs:219-227 | the client reads exactly the welcome, even when measured data already follows it |
| BytesSafety.ReplyReads | src/controller.rs:227 | whatever the client can read as a reply is the welcome or the refusal, whole |
| ConnSafety.NumberingAgrees | src/controller.rs:239-269 | with every stream in place, the server's numbers are the client's |
| Theorems.StreamsPair | src/controller.rs:186-246 | once Running is announced, stream i of either side is connection i, and exactly one side sends on it |
| Theorems.DroppedNeverRuns | src/server.rs:182-198 | one refused or lost connection, and Running is never announced, in any continuation |
| Theorems.ReceiverNeverAhead | src/stream_workers.rs:121-135 | for every stream summarised on both sides one side sent, and the receiver counted at most what the sender did |
| Theorems.DirectionHolds | src/perf.rs:61-73 | every stream, and every result, of either side sends exactly if the direction of the test says so |
| Theorems.BytesFlowOneWay | src/stream_workers.rs:121-135 | in a one-way test the bytes summarised at the receiving side are at most those at the sending side |
| Theorems.SideNeverFarOver | src/stream_workers.rs:98-131 | the summed overshoot of a side |
| Theorems.ExchangeOnlyWhenComplete | src/controller.rs:326-337 | the server announces the exchange only with the result of every stream and of no other |
| Theorems.HandlerNeverFailed | src/controller.rs:328-333 | the branch for a worker that announced itself and failed is never taken |
| Theorems.UnreapedNeverExchanges | src/controller.rs:261-267 | a server worker that fails, or whose announcement is dropped, keeps the server out of the exchange in every continuation |
| Theorems.StatesAgree | src/perf.rs:91-103 | the client's history is a prefix of what the server announced, the server is at the last or last but one announced state, and both only move forward |
| Theorems.BroadcastOnce | src/controller.rs:90-128 | at most StartLoad, once and with every stream subscribed, and then StopLoad, once; a waiting controller has published StartLoad exactly if the test is running, and one that has left its loop has published StopLoad |
| Theorems.StopIsHeard | src/stream_workers.rs:107-119 | a worker at work hears of a published StopLoad in its next turn, which is its last, and returns if its last report is taken |
| Theorems.StopIsObeyed | src/controller.rs:153-168 | a local shutdown, and a Stop at the head of the queue, make a server announce Terminate and a client enter it |
| Theorems.ShutdownIsQueued | src/controller.rs:141-145 | a shutdown noticed at the head of the loop is queued if there is room |
| Theorems.ClientFollows | src/controller.rs:347-353 | a client enters every state it is sent |
| Theorems.DrainFiles | src/controller.rs:276-283 | of a worker taken out by the drain the result is filed exactly if it has returned |
| Theorems.AnnouncementFiles | src/controller.rs:326-334 | the announcement of a held worker makes its side file its result |
| Theorems.StartLoadReceivedIff | src/controller.rs:90-93 | publishing StartLoad finds a receiver if and only if some worker of the side has not failed; then every such worker starts, and otherwise the controller gives up |
| NobodyLeft.LoadFindsNobody | src/stream_workers.rs:55-78 | for every test some run in which only workers of the server die at their start makes that publication fail, and no continuation reaches the exchange |
| Theorems.OvertakenWorkerFails | src/stream_workers.rs:71-78 | a worker that has not started fails on its first message if and only if StopLoad has been published |
| Theorems.ExchangeAgrees | src/controller.rs:289-320 | each side ends with the other's results, changed only in the peer mark, and every entry is filed under its own id |
| Theorems.NeverBothReading | src/controller.rs:289-320 | the sides never both wait to read |
| Theorems.ExchangeNeverUnexpected | src/controller.rs:303-311 | neither side ever reads anything but results where it expects results |
| Theorems.BooksBalance | src/controller.rs:244-334 | held, filed and lost ids partition the streams, which never exceed the total |
| Gap.TurnedAwayIffUncommitted | src/perf.rs:91-102 | the client is turned away exactly while CreateStreams is announced and not assigned |
| Gap.GapAborts | src/server.rs:193-198 | a run without any failure in which the client is turned away and gives up |
| Gap.GapIsFatal | src/controller.rs:359-364 | whenever a connection of the test is turned away, in whatever run, Running is never announced afterwards |
| Queues.FewAnnouncements | src/controller.rs:263-265 | announcements of different streams never fill the queue when every stream has a place |
| Progress.RoomForStream | src/server.rs:183-185 | in a healthy run the stream about to be enqueued has a place |
| Progress.RoomForAnnouncement | src/controller.rs:263-265 | in a healthy run the announcement of a worker has a place |
| Progress.StepStaysFine | src/controller.rs:61-366 | healthy steps keep a run healthy |
| Completion.StepDecreases | src/controller.rs:61-366 | every healthy step brings the run closer to its end |
| Completion.SomeStepPossible | src/controller.rs:61-366 | as long as the exchange is not complete some healthy step is possible |
| Completion.HealthyRunsComplete | src/controller.rs:61-366 | a healthy run with at most five streams is bounded and stops only with both sides holding each other's results |
| Completion.HealthyRunsRefuseNothing | src/constant.rs:15 | with at most five streams no message of a healthy run is refused |
| Overload.NothingRefusedIff | src/constant.rs:15 | no stream of any healthy run is refused if and only if there are at most five |
| Overload.OverflowIsFatal | src/server.rs:183-185 | with more, some healthy run loses a stream and can never reach Running |

## Left out

- Payload encoding (serde_json) is a parameter, `Framing.Codec`; a payload that cannot be decoded is
  unreadable, and the assertion that a payload's length fits into 32 bits is a precondition.
- Sockets, addresses, socket options, command line, logging, printing and the TCP statistics call are
  not modelled; retransmits and congestion window are arbitrary values.
- The client's opening handshake (src/client.rs) is the initial condition of the joint protocol.
- The background task that keeps reading after a receiving worker has finished counts nothing.
- Buffer contents are not modelled: measured bytes all carry the value 0, and only counts matter.
- Integers are unbounded: a stream count beyond 16 bits is excluded by precondition, and the wrap-around of
  the 64-bit byte, report and millisecond counters is not modelled.
- Panics and join errors of a worker, the failed allocation of its buffer included, count as a worker that
  fails, which it may do at any time; the consumer of the statistics
  channel appears only as the choice whether a report is accepted, and the hand-over of all results to it
  after the exchange is not modelled.
- A control read that is cancelled by another branch of `select!` in the middle of a frame is not
  covered.
- The publication of StopLoad is recorded even when no worker is left to receive it; the source
  ignores the error.
- Unconditional liveness is not claimed: failing workers of the server, strangers that spoil a
  handshake, shutdowns, and the situations above can abort or stall a run.
- Controller.Controller.TakeResult: a worker that announced its end and then failed to be joined counts as lost,
  where the source gives up; `Theorems.HandlerNeverFailed` shows that there is no such worker.
- Controller.Controller.RunController: the hand-over of the results to the statistics channel after the exchange, and
  its failure, are not modelled.
- Controller.Controller.GiveWay: what other tasks do is an argument, so the object does not run its workers itself.
- Controller.Controller.CreateStreams: the outcome of each connection attempt is an argument; the handshake on the
  connection, byte by byte, is part of the joint protocol.
- AcceptLoop.Listener.Accept: messages arrive already decoded, and dispatched controllers are values that may change
  in any way that keeps their cookie, so aliasing between the loop and a controller object is not modelled.
- Safety.StepKeepsInv: a server that fails to write a state counts as having announced it and then aborted.
