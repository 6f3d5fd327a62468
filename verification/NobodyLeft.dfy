/**
 * A worker allocates its block buffer before it first listens for StartLoad, and a block that cannot
 * be allocated kills it. When every worker of the server dies like that, the server still counts
 * them all, announces Running, and has nobody to publish StartLoad to.
 */
module NobodyLeft {
  import opened Messages
  import opened Control
  import opened Protocol
  import opened Theorems
  import opened Gap
  import opened Refinement
  import opened Overload

  /** All the server's workers have died at the start. */
  predicate AllDead(streams: seq<DataStream>) {
    forall id :: 0 <= id < |streams| ==> streams[id].task.Failed?
  }

  /** The client has opened `j` streams and the server has accepted them all; every worker there is dead. */
  ghost predicate Doomed(c: Config, n: Net, j: nat) {
    && n.client.role.Client? && n.client.pc.Top? && n.client.state == CreateStreams(c.cookie)
    && |n.client.streams| == j
    && n.server.role.Server? && n.server.state == CreateStreams(c.cookie) && n.server.queue == []
    && n.server.pc == (if j == c.Total() then Announced(Running) else Top)
    && |n.server.streams| == j && AllDead(n.server.streams) && n.server.workers == Ids(j)
    && !n.server.oldState.Running? && n.gate.Open? && |n.conns| == j
  }

  /** The next connection has been welcomed; the client, or nobody, has yet to go on. */
  ghost predicate Arriving(c: Config, n: Net, j: nat, gate: Gate, queue: seq<ControllerMessage>, pc: Pc) {
    && n.client.role.Client? && n.client.pc == pc && n.client.state == CreateStreams(c.cookie)
    && |n.client.streams| == (if pc.Top? then j + 1 else j)
    && n.server.role.Server? && n.server.pc.Top? && n.server.state == CreateStreams(c.cookie)
    && n.server.queue == queue
    && |n.server.streams| == j && AllDead(n.server.streams) && n.server.workers == Ids(j)
    && !n.server.oldState.Running? && n.gate == gate && |n.conns| == j + 1
  }

  /** A run in which nothing fails but workers of the server, and nobody shuts anything down. */
  predicate OnlyWorkersDie(steps: seq<Step>) {
    forall step :: step in steps ==>
      && !step.Abort? && !step.ShutDown? && !step.GateFails? && !step.Stray? && !step.TurnAway?
      && (step.WorkerDies? ==> step.role.Server?) && (step.WakeUp? ==> !step.shutdown)
  }

  lemma TwoSteps(c: Config, n: Net, first: Step, second: Step)
    requires Enabled(c, n, first) && Enabled(c, Apply(c, n, first), second)
    ensures CanRun(c, n, [first, second]) && After(c, n, [first, second]) == Apply(c, Apply(c, n, first), second)
  {
    OneStep(c, n, first);
    RunAppend(c, n, [first], second);
    assert [first] + [second] == [first, second];
  }

  lemma ThreeSteps(c: Config, n: Net, first: Step, second: Step, third: Step)
    requires Enabled(c, n, first) && Enabled(c, Apply(c, n, first), second)
    requires Enabled(c, Apply(c, Apply(c, n, first), second), third)
    ensures CanRun(c, n, [first, second, third])
    ensures After(c, n, [first, second, third]) == Apply(c, Apply(c, Apply(c, n, first), second), third)
  {
    TwoSteps(c, n, first, second);
    RunAppend(c, n, [first, second], third);
    assert [first, second] + [third] == [first, second, third];
  }

  lemma Arrives(c: Config, n: Net, j: nat)
    requires ValidConfig(c) && Doomed(c, n, j) && j < c.Total()
    ensures CanRun(c, n, [Connect, Admit(j), CheckCookie])
    ensures var m := After(c, n, [Connect, Admit(j), CheckCookie]);
            && Arriving(c, m, j, Welcoming(j), [], AwaitWelcome(j))
            && m.conns[j] == Conn(Pipe(c.hello, |c.hello|), Pipe(c.welcome, 0), true)
  {
    Accepts(c, Apply(c, Apply(c, n, Connect), Admit(j)), j);
    ThreeSteps(c, n, Connect, Admit(j), CheckCookie);
  }

  lemma Enqueues(c: Config, n: Net, j: nat)
    requires ValidConfig(c) && Arriving(c, n, j, Welcoming(j), [], AwaitWelcome(j))
    requires n.conns[j] == Conn(Pipe(c.hello, |c.hello|), Pipe(c.welcome, 0), true)
    ensures CanRun(c, n, [Enqueue, ReadWelcome])
    ensures Arriving(c, After(c, n, [Enqueue, ReadWelcome]), j, Open, [CreateStream(j)], Top)
  {
    Joins(c, Apply(c, n, Enqueue), j);
    TwoSteps(c, n, Enqueue, ReadWelcome);
  }

  /** The server has accepted stream `j`, whose worker has yet to die. */
  ghost predicate Accepted(c: Config, n: Net, j: nat) {
    && j < |n.server.streams| && n.server.streams[j].task.Waiting?
    && Doomed(c, n.(server := SetTask(n.server, j, Failed)), j + 1)
  }

  lemma Registers(c: Config, s: Side, j: nat)
    requires s.role.Server? && |s.streams| == j < c.Total() && AllDead(s.streams) && s.workers == Ids(j)
    ensures var r := AcceptStream(c.params, s, j);
            && |r.streams| == j + 1 && r.streams[j].task.Waiting? && AllDead(SetTask(r, j, Failed).streams)
            && r.workers == Ids(j + 1) && r.queue == s.queue && r.state == s.state && r.oldState == s.oldState
            && r.role == s.role && r.pc == (if j + 1 == c.Total() then Announced(Running) else Top)
  {
    assert s.workers + {j} == Ids(j + 1);
  }

  /** The server accepts the stream and counts it, and its worker dies. */
  lemma AcceptsStream(c: Config, n: Net, j: nat)
    requires Arriving(c, n, j, Open, [CreateStream(j)], Top) && j < c.Total()
    ensures CanRun(c, n, [WakeUp(Server, false), TakeMessage(Server)])
    ensures Accepted(c, After(c, n, [WakeUp(Server, false), TakeMessage(Server)]), j)
  {
    var awake := Apply(c, n, WakeUp(Server, false));
    assert awake.server == n.server.(oldState := n.server.state, pc := Select);
    Registers(c, awake.server.(queue := []), j);
    assert awake.server.queue[1..] == [];
    TwoSteps(c, n, WakeUp(Server, false), TakeMessage(Server));
  }

  lemma Dies(c: Config, n: Net, j: nat)
    requires Accepted(c, n, j)
    ensures CanRun(c, n, [WorkerDies(Server, j)]) && Doomed(c, After(c, n, [WorkerDies(Server, j)]), j + 1)
  {
    OneStep(c, n, WorkerDies(Server, j));
  }

  function Round(j: nat): seq<Step> {
    [Connect, Admit(j), CheckCookie] + [Enqueue, ReadWelcome] + [WakeUp(Server, false), TakeMessage(Server)]
    + [WorkerDies(Server, j)]
  }

  lemma CleanAppend(first: seq<Step>, second: seq<Step>)
    requires OnlyWorkersDie(first) && OnlyWorkersDie(second)
    ensures OnlyWorkersDie(first + second)
  {
  }

  lemma RoundIsClean(j: nat)
    ensures OnlyWorkersDie(Round(j))
  {
  }

  lemma GoesRound(c: Config, n: Net, j: nat)
    requires ValidConfig(c) && Doomed(c, n, j) && j < c.Total()
    ensures CanRun(c, n, Round(j)) && Doomed(c, After(c, n, Round(j)), j + 1)
  {
    var first, second := [Connect, Admit(j), CheckCookie], [Enqueue, ReadWelcome];
    var third := [WakeUp(Server, false), TakeMessage(Server)];
    Arrives(c, n, j);
    Enqueues(c, After(c, n, first), j);
    RunsCompose(c, n, first, second);
    AcceptsStream(c, After(c, n, first + second), j);
    RunsCompose(c, n, first + second, third);
    Dies(c, After(c, n, first + second + third), j);
    RunsCompose(c, n, first + second + third, [WorkerDies(Server, j)]);
  }

  lemma StartsDoomed(c: Config)
    requires ValidConfig(c)
    ensures var steps := [AnnounceStart, CommitState] + [WakeUp(Client, false), Follow];
            CanRun(c, Init(), steps) && Doomed(c, After(c, Init(), steps), 0)
  {
    TwoSteps(c, Init(), AnnounceStart, CommitState);
    var n := After(c, Init(), [AnnounceStart, CommitState]);
    TwoSteps(c, n, WakeUp(Client, false), Follow);
    RunsCompose(c, Init(), [AnnounceStart, CommitState], [WakeUp(Client, false), Follow]);
  }

  /** The run so far: every worker of the first `j` streams has died. */
  function DyingRun(j: nat): seq<Step> {
    if j == 0 then [AnnounceStart, CommitState] + [WakeUp(Client, false), Follow] else DyingRun(j - 1) + Round(j - 1)
  }

  lemma {:induction false} DyingRunIsClean(j: nat)
    ensures OnlyWorkersDie(DyingRun(j))
  {
    if j > 0 {
      DyingRunIsClean(j - 1);
      RoundIsClean(j - 1);
      CleanAppend(DyingRun(j - 1), Round(j - 1));
    }
  }

  ghost predicate Dooms(c: Config, steps: seq<Step>, j: nat) {
    CanRun(c, Init(), steps) && Doomed(c, After(c, Init(), steps), j)
  }

  lemma OneMoreDies(c: Config, before: seq<Step>, j: nat)
    requires ValidConfig(c) && j < c.Total() && Dooms(c, before, j)
    ensures Dooms(c, before + Round(j), j + 1)
  {
    GoesRound(c, After(c, Init(), before), j);
    RunsCompose(c, Init(), before, Round(j));
  }

  lemma {:induction false} AllDie(c: Config, j: nat)
    requires ValidConfig(c) && j <= c.Total()
    ensures Dooms(c, DyingRun(j), j)
  {
    if j == 0 {
      StartsDoomed(c);
    } else {
      AllDie(c, j - 1);
      OneMoreDies(c, DyingRun(j - 1), j - 1);
      assert DyingRun(j) == DyingRun(j - 1) + Round(j - 1);
    }
  }

  /** What the server does once it has announced Running with all its workers dead. */
  lemma CannotLoad(c: Config, n: Net)
    requires ValidConfig(c) && Doomed(c, n, c.Total())
    ensures Enabled(c, n, CommitState)
    ensures var m := Apply(c, n, CommitState);
            && m.server.state.Running? && !m.server.oldState.Running? && m.server.streams == n.server.streams
            && Enabled(c, m, WakeUp(Server, false))
            && Apply(c, m, WakeUp(Server, false)).server == m.server.(pc := Aborted)
  {
  }

  /**
   * For every test there is a run in which nothing goes wrong but the workers of the server, and in
   * which the publication of StartLoad fails and takes the server's controller with it. No
   * continuation reaches the exchange.
   */
  lemma LoadFindsNobody(c: Config) returns (steps: seq<Step>)
    requires ValidConfig(c)
    ensures CanRun(c, Init(), steps) && OnlyWorkersDie(steps)
    ensures var n := After(c, Init(), steps);
            && n.server.state.Running? && !n.server.oldState.Running? && !SomeoneLeft(n.server.streams)
            && Enabled(c, n, WakeUp(Server, false)) && Apply(c, n, WakeUp(Server, false)).server.pc.Aborted?
            && forall more :: CanRun(c, n, more) ==> ExchangeResults !in After(c, n, more).script
  {
    var before := DyingRun(c.Total());
    AllDie(c, c.Total());
    DyingRunIsClean(c.Total());
    var doomed := After(c, Init(), before);
    CannotLoad(c, doomed);
    RunAppend(c, Init(), before, CommitState);
    steps := before + [CommitState];
    var n := After(c, Init(), steps);
    assert Reachable(c, n);
    assert Unreaped(n, 0);
    forall more | CanRun(c, n, more) ensures ExchangeResults !in After(c, n, more).script {
      UnreapedNeverExchanges(c, n, 0, more);
    }
  }
}
