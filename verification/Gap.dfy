/**
 * The server writes a new state to its client before it assigns that state locally. A client quick
 * enough to connect in between is turned away, and the test cannot recover.
 */
module Gap {
  import opened Messages
  import opened Control
  import opened Framing
  import opened Protocol
  import opened Invariant
  import opened HistorySafety
  import opened ConnSafety
  import opened BytesSafety
  import opened Safety
  import opened Theorems

  /**
   * As long as nobody has stopped the test, the accept loop turns a connection of the test away
   * exactly when the server has announced CreateStreams and not yet committed it.
   */
  lemma TurnedAwayIffUncommitted(c: Config, n: Net, k: nat)
    requires ValidConfig(c) && Reachable(c, n) && Terminate !in n.script
    requires k < |n.conns| && !n.conns[k].taken && n.gate.Open? && n.server.Alive()
    ensures Enabled(c, n, TurnAway(k)) <==> n.server.pc == Announced(CreateStreams(c.cookie))
    ensures Enabled(c, n, Admit(k)) <==> n.server.pc != Announced(CreateStreams(c.cookie))
  {
    ReachableInv(c, n);
    UntakenWhileCreating(c, n, k);
    StartMeansUncommitted(c, n);
  }

  /** With CreateStreams the last state announced, a live server either has it or is about to assign it. */
  lemma StartMeansUncommitted(c: Config, n: Net)
    requires HistoryInv(c, n) && n.script == [Start, CreateStreams(c.cookie)] && n.server.Alive()
    ensures if n.server.pc.Announced? then n.server.pc.next == CreateStreams(c.cookie) && n.server.state.Start?
            else n.server.state == CreateStreams(c.cookie)
  {
    assert n.server.history == n.script[..|n.server.history|];
  }

  lemma {:induction false} RunAppend(c: Config, n: Net, first: seq<Step>, step: Step)
    requires CanRun(c, n, first) && Enabled(c, After(c, n, first), step)
    ensures CanRun(c, n, first + [step]) && After(c, n, first + [step]) == Apply(c, After(c, n, first), step)
    decreases |first|
  {
    if first == [] {
      assert first + [step] == [step];
    } else {
      assert (first + [step])[1..] == first[1..] + [step];
      RunAppend(c, Apply(c, n, first[0]), first[1..], step);
    }
  }

  /** The client has read CreateStreams and is about to connect; the server has yet to commit it. */
  lemma GapOpens(c: Config) returns (n: Net)
    requires ValidConfig(c)
    ensures var steps := [AnnounceStart, WakeUp(Client, false), Follow];
            CanRun(c, Init(), steps) && After(c, Init(), steps) == n
    ensures n.client.pc.Top? && n.client.state.CreateStreams? && n.client.streams == [] && n.client.role.Client?
    ensures n.server.pc.Announced? && n.server.state.Start? && n.gate.Open? && n.conns == []
    ensures n.server.streams == [] && n.server.queue == []
  {
    var n1 := Apply(c, Init(), AnnounceStart);
    var n2 := Apply(c, n1, WakeUp(Client, false));
    n := Apply(c, n2, Follow);
    RunAppend(c, Init(), [], AnnounceStart);
    RunAppend(c, Init(), [AnnounceStart], WakeUp(Client, false));
    RunAppend(c, Init(), [AnnounceStart, WakeUp(Client, false)], Follow);
    assert [] + [AnnounceStart] == [AnnounceStart];
    assert [AnnounceStart] + [WakeUp(Client, false)] == [AnnounceStart, WakeUp(Client, false)];
    assert [AnnounceStart, WakeUp(Client, false)] + [Follow] == [AnnounceStart, WakeUp(Client, false), Follow];
  }

  /** A client that reads the refusal gives up. */
  lemma RefusalAborts(c: Config, n: Net)
    requires ValidConfig(c) && n.client.pc.AwaitWelcome? && n.client.pc.conn < |n.conns|
    requires n.conns[n.client.pc.conn].down == Pipe(c.refusal, 0)
    ensures Enabled(c, n, ReadWelcome)
    ensures var m := Apply(c, n, ReadWelcome);
            m.client == n.client.(pc := Aborted) && m.server == n.server && m.gate == n.gate
            && |m.conns| == |n.conns| && m.conns[n.client.pc.conn].taken == n.conns[n.client.pc.conn].taken
  {
    assert n.conns[n.client.pc.conn].down.Unread() == c.refusal + [];
    EnvelopesRoundTrip(c.codec, ServerFailure(PerfTestAlreadyInFlight), Hello(c.cookie), []);
  }

  /** The connection is turned away, and the client gives up when it reads the refusal. */
  lemma GapCloses(c: Config, n: Net) returns (m: Net)
    requires ValidConfig(c)
    requires n.client.pc.Top? && n.client.state.CreateStreams? && n.client.streams == []
    requires n.server.pc.Announced? && n.server.state.Start? && n.gate.Open? && n.conns == []
    requires n.server.streams == [] && n.server.queue == []
    ensures Enabled(c, n, Connect) && Enabled(c, Apply(c, n, Connect), TurnAway(0))
    ensures Enabled(c, Apply(c, Apply(c, n, Connect), TurnAway(0)), ReadWelcome)
    ensures m == Apply(c, Apply(c, Apply(c, n, Connect), TurnAway(0)), ReadWelcome)
    ensures m.client.pc.Aborted? && m.server == n.server && Dropped(m, 0)
  {
    var turned := Apply(c, Apply(c, n, Connect), TurnAway(0));
    assert turned.conns[0].down.written == c.refusal;
    RefusalAborts(c, turned);
    m := Apply(c, turned, ReadWelcome);
    assert Arrivals(m) == [];
  }

  /** A run without any failure, shutdown or stranger, in which the client is turned away and gives up. */
  lemma GapAborts(c: Config) returns (steps: seq<Step>)
    requires ValidConfig(c)
    ensures steps == [AnnounceStart, WakeUp(Client, false), Follow, Connect, TurnAway(0), ReadWelcome]
    ensures CanRun(c, Init(), steps)
    ensures var n := After(c, Init(), steps); n.client.pc.Aborted? && n.server.Alive() && Dropped(n, 0)
  {
    var n := GapOpens(c);
    var m := GapCloses(c, n);
    var first := [AnnounceStart, WakeUp(Client, false), Follow];
    RunAppend(c, Init(), first, Connect);
    RunAppend(c, Init(), first + [Connect], TurnAway(0));
    RunAppend(c, Init(), first + [Connect] + [TurnAway(0)], ReadWelcome);
    steps := first + [Connect] + [TurnAway(0)] + [ReadWelcome];
  }

  /** Turning a connection of the test away drops it for good. */
  lemma TurnedAwayIsDropped(c: Config, n: Net, k: nat)
    requires ConnsInv(c, n) && ArrivalsInv(c, n) && Enabled(c, n, TurnAway(k))
    ensures Dropped(Apply(c, n, TurnAway(k)), k)
  {
    UntakenApart(c, n, k);
    assert Arrivals(Apply(c, n, TurnAway(k))) == Arrivals(n);
  }

  /** Whenever a connection of the test is turned away, no continuation of the run ever reaches Running. */
  lemma GapIsFatal(c: Config, n: Net, k: nat, more: seq<Step>)
    requires ValidConfig(c) && Reachable(c, n) && Enabled(c, n, TurnAway(k))
    requires CanRun(c, Apply(c, n, TurnAway(k)), more)
    ensures Running !in After(c, Apply(c, n, TurnAway(k)), more).script
  {
    ReachableInv(c, n);
    StepKeepsInv(c, n, TurnAway(k));
    TurnedAwayIsDropped(c, n, k);
    DroppedNeverRuns(c, Apply(c, n, TurnAway(k)), k, more);
  }
}
