/**
 * With more streams than the queue has places, a run can lose a stream without anything going
 * wrong, so the bound on the number of streams is exact.
 */
module Overload {
  import opened Messages
  import opened Control
  import opened Framing
  import opened Protocol
  import opened Invariant
  import ConnSafety
  import opened BytesSafety
  import opened Safety
  import opened Theorems
  import opened Gap
  import opened Progress
  import opened Completion

  lemma {:induction false} HealthyAppend(c: Config, n: Net, first: seq<Step>, step: Step)
    requires HealthyRun(c, n, first) && CanRun(c, n, first) && Possible(c, After(c, n, first), step)
    ensures HealthyRun(c, n, first + [step]) && CanRun(c, n, first + [step])
    ensures After(c, n, first + [step]) == Apply(c, After(c, n, first), step)
    decreases |first|
  {
    if first == [] {
      assert first + [step] == [step];
    } else {
      assert (first + [step])[1..] == first[1..] + [step];
      HealthyAppend(c, Apply(c, n, first[0]), first[1..], step);
    }
  }

  /** The client has opened `j` streams; the server, at the head of its loop, has yet to accept any. */
  predicate Opened(c: Config, n: Net, j: nat) {
    && n.client.role.Client? && n.client.pc.Top? && n.client.state == CreateStreams(c.cookie) && |n.client.streams| == j
    && n.server.role.Server? && n.server.pc.Top? && n.server.state == CreateStreams(c.cookie) && n.server.streams == []
    && |n.server.queue| == j && n.gate.Open? && |n.conns| == j
  }

  /** The next connection of the client has been welcomed, and is about to be enqueued. */
  predicate Knocking(c: Config, n: Net, j: nat) {
    && n.client.role.Client? && n.client.pc == AwaitWelcome(j) && n.client.state == CreateStreams(c.cookie)
    && |n.client.streams| == j
    && n.server.role.Server? && n.server.pc.Top? && n.server.state == CreateStreams(c.cookie) && n.server.streams == []
    && |n.server.queue| == j && n.gate == Welcoming(j) && |n.conns| == j + 1
    && n.conns[j] == Conn(Pipe(c.hello, |c.hello|), Pipe(c.welcome, 0), true)
  }

  lemma Opens(c: Config) returns (steps: seq<Step>)
    requires ValidConfig(c)
    ensures HealthyRun(c, Init(), steps) && CanRun(c, Init(), steps) && Opened(c, After(c, Init(), steps), 0)
  {
    steps := [];
    HealthyAppend(c, Init(), steps, AnnounceStart);
    steps := steps + [AnnounceStart];
    HealthyAppend(c, Init(), steps, CommitState);
    steps := steps + [CommitState];
    HealthyAppend(c, Init(), steps, WakeUp(Client, false));
    steps := steps + [WakeUp(Client, false)];
    HealthyAppend(c, Init(), steps, Follow);
    steps := steps + [Follow];
  }

  lemma Accepts(c: Config, n: Net, j: nat)
    requires ValidConfig(c) && n.gate == Checking(j) && j < |n.conns| && n.server.state == CreateStreams(c.cookie)
    requires n.conns[j] == Conn(Pipe(c.hello, 0), Pipe([], 0), true)
    ensures Possible(c, n, CheckCookie)
    ensures var welcomed := Conn(Pipe(c.hello, |c.hello|), Pipe(c.welcome, 0), true);
            Apply(c, n, CheckCookie) == n.(conns := n.conns[j := welcomed], gate := Welcoming(j))
  {
    HelloReads(c, n.conns[j]);
    assert [] + c.welcome == c.welcome;
  }

  lemma Knocks(c: Config, start: Net, before: seq<Step>, j: nat) returns (steps: seq<Step>)
    requires ValidConfig(c) && HealthyRun(c, start, before) && CanRun(c, start, before)
    requires Opened(c, After(c, start, before), j) && j < c.Total()
    ensures HealthyRun(c, start, steps) && CanRun(c, start, steps) && Knocking(c, After(c, start, steps), j)
  {
    HealthyAppend(c, start, before, Connect);
    HealthyAppend(c, start, before + [Connect], Admit(j));
    steps := before + [Connect] + [Admit(j)];
    Accepts(c, After(c, start, steps), j);
    HealthyAppend(c, start, steps, CheckCookie);
    steps := steps + [CheckCookie];
  }

  lemma Joins(c: Config, n: Net, j: nat)
    requires ValidConfig(c) && n.client.pc == AwaitWelcome(j) && j < |n.conns|
    requires n.conns[j] == Conn(Pipe(c.hello, |c.hello|), Pipe(c.welcome, 0), true)
    ensures Possible(c, n, ReadWelcome)
    ensures Apply(c, n, ReadWelcome).client == Register(c.params, n.client, j).(pc := Top)
  {
    WelcomeReads(c, n.conns[j]);
  }

  lemma Enters(c: Config, n: Net, j: nat)
    requires ValidConfig(c) && Knocking(c, n, j) && j < INTERNAL_PORT_BUFFER
    ensures Possible(c, n, Enqueue) && Possible(c, Apply(c, n, Enqueue), ReadWelcome)
    ensures Opened(c, Apply(c, Apply(c, n, Enqueue), ReadWelcome), j + 1)
  {
    Joins(c, Apply(c, n, Enqueue), j);
  }

  /** One more connection, with room for it in the queue. */
  lemma OpensNext(c: Config, start: Net, before: seq<Step>, j: nat) returns (steps: seq<Step>)
    requires ValidConfig(c) && HealthyRun(c, start, before) && CanRun(c, start, before)
    requires Opened(c, After(c, start, before), j) && j < c.Total() && j < INTERNAL_PORT_BUFFER
    ensures HealthyRun(c, start, steps) && CanRun(c, start, steps) && Opened(c, After(c, start, steps), j + 1)
  {
    steps := Knocks(c, start, before, j);
    Enters(c, After(c, start, steps), j);
    HealthyAppend(c, start, steps, Enqueue);
    HealthyAppend(c, start, steps + [Enqueue], ReadWelcome);
    steps := steps + [Enqueue] + [ReadWelcome];
  }

  lemma {:induction false} OpensMany(c: Config, j: nat) returns (steps: seq<Step>)
    requires ValidConfig(c) && j <= c.Total() && j <= INTERNAL_PORT_BUFFER
    ensures HealthyRun(c, Init(), steps) && CanRun(c, Init(), steps) && Opened(c, After(c, Init(), steps), j)
  {
    if j == 0 {
      steps := Opens(c);
    } else {
      var before := OpensMany(c, j - 1);
      steps := OpensNext(c, Init(), before, j - 1);
    }
  }

  /** Five streams fill the queue, and the sixth finds no room. */
  lemma QueueOverflows(c: Config) returns (steps: seq<Step>)
    requires ValidConfig(c) && c.Total() > INTERNAL_PORT_BUFFER
    ensures HealthyRun(c, Init(), steps) && CanRun(c, Init(), steps)
    ensures Knocking(c, After(c, Init(), steps), INTERNAL_PORT_BUFFER)
  {
    steps := OpensMany(c, INTERNAL_PORT_BUFFER);
    steps := Knocks(c, Init(), steps, INTERNAL_PORT_BUFFER);
  }

  /** The connection that is about to be enqueued, if there is one, has a place. */
  predicate RoomAtGate(n: Net) {
    n.gate.Welcoming? ==> |n.server.queue| < INTERNAL_PORT_BUFFER
  }

  /** The queue has room for a stream at every point of every healthy run. */
  ghost predicate AlwaysRoom(c: Config) {
    forall steps :: HealthyRun(c, Init(), steps) ==>
      CanRun(c, Init(), steps) && RoomAtGate(After(c, Init(), steps))
  }

  /** The bound is exact: no stream is refused if and only if the queue has a place for each. */
  lemma NothingRefusedIff(c: Config)
    requires ValidConfig(c)
    ensures AlwaysRoom(c) <==> c.Total() <= INTERNAL_PORT_BUFFER
  {
    if c.Total() <= INTERNAL_PORT_BUFFER {
      forall steps | HealthyRun(c, Init(), steps)
        ensures CanRun(c, Init(), steps)
                && RoomAtGate(After(c, Init(), steps))
      {
        HealthyRunsRefuseNothing(c, steps);
      }
    } else {
      var steps := QueueOverflows(c);
      assert HealthyRun(c, Init(), steps);
    }
  }

  lemma LostWhenFull(n: Net, j: nat)
    requires n.gate == Welcoming(j) && j < |n.conns| && n.conns[j].taken && n.server.streams == []
    requires |n.server.queue| >= INTERNAL_PORT_BUFFER && CreateStream(j) !in n.server.queue
    ensures Dropped(n.(server := TrySend(n.server, CreateStream(j)), gate := Open), j)
  {
    ConnSafety.QueueConnsMember(n.server.queue, j);
  }

  /** And a stream that is refused is fatal: the test can never reach Running. */
  lemma OverflowIsFatal(c: Config) returns (steps: seq<Step>)
    requires ValidConfig(c) && c.Total() > INTERNAL_PORT_BUFFER
    ensures HealthyRun(c, Init(), steps) && CanRun(c, Init(), steps)
    ensures forall more :: CanRun(c, After(c, Init(), steps), more) ==>
            Running !in After(c, After(c, Init(), steps), more).script
  {
    var before := QueueOverflows(c);
    var n, j := After(c, Init(), before), INTERNAL_PORT_BUFFER;
    HealthyAppend(c, Init(), before, Enqueue);
    steps := before + [Enqueue];
    InitHolds(c);
    RunKeepsInv(c, Init(), before);
    RunKeepsInv(c, Init(), steps);
    QueuedOnce(c, n, j);
    LostWhenFull(n, j);
    forall more | CanRun(c, After(c, Init(), steps), more)
      ensures Running !in After(c, After(c, Init(), steps), more).script
    {
      DroppedNeverRuns(c, After(c, Init(), steps), j, more);
    }
  }

  /** A connection in the accept loop's hands is not in the queue. */
  lemma QueuedOnce(c: Config, n: Net, j: nat)
    requires Inv(c, n) && n.gate == Welcoming(j)
    ensures CreateStream(j) !in n.server.queue
  {
    ConnSafety.QueueConnsMember(n.server.queue, j);
    var front := |n.server.streams|;
    assert Arrivals(n)[|Arrivals(n)| - 1] == j;
    forall i | 0 <= i < |QueueConns(n.server.queue)| ensures QueueConns(n.server.queue)[i] != j {
      assert Arrivals(n)[front + i] == QueueConns(n.server.queue)[i];
    }
  }
}
