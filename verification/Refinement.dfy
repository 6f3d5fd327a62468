/** What a controller object does in its event loop is a sequence of steps of the joint protocol. */
module Refinement {
  import opened Messages
  import opened Control
  import opened EventLoop
  import opened Framing
  import opened Protocol
  import opened Gap
  import opened Invariant
  import opened BytesSafety
  import A = AcceptLoop

  /** A side may act on what has reached it: the server's message is the next one on the control connection. */
  predicate Offered(n: Net, role: Role, choice: Choice) {
    choice.FromServer? && role.Client? ==> n.toClient != [] && n.toClient[0] == choice.message
  }

  /** Where a side stands before it settles the state it has announced, if it has announced one. */
  function Unsettled(params: Parameters, s: Side, choice: Choice): Side {
    match choice
    case Internal => if Ready(s) then HandleInternal(params, s) else s
    case FromServer(m) => if s.role.Client? then FollowServer(s, m) else s
    case ControlLost => if s.role.Client? then s.(pc := Aborted) else s
    case ShutdownSignal => RequestState(s, Terminate)
  }

  lemma OneStep(c: Config, n: Net, step: Step)
    requires Enabled(c, n, step)
    ensures CanRun(c, n, [step]) && After(c, n, [step]) == Apply(c, n, step)
  {
    assert [step][1..] == [];
  }

  /** A side that has announced a state takes one more step, and it is the settling of that state. */
  lemma SettleIsStep(c: Config, n: Net, written: bool)
    requires n.server.role.Server? && n.server.pc.Announced? && n.gate.Open?
    ensures var step := if written then CommitState else Abort(Server);
            Enabled(c, n, step) && Apply(c, n, step).server == Settle(n.server, written)
  {
  }

  /** The one step with which a side acts on what its wait came up with. */
  function FirstSteps(s: Side, role: Role, choice: Choice): seq<Step> {
    match choice
    case Internal => if Ready(s) then [TakeMessage(role)] else []
    case FromServer(_) => if role.Client? then [Follow] else []
    case ControlLost => if role.Client? then [Abort(Client)] else []
    case ShutdownSignal => [ShutDown(role)]
  }

  /** A side is ready to take a message exactly when it can do so in the joint protocol. */
  lemma ReadyExactly(c: Config, n: Net, role: Role)
    requires SideOf(n, role).pc.Select?
    ensures Ready(SideOf(n, role)) <==> Enabled(c, n, TakeMessage(role))
  {
  }

  /** The step with which a server settles the state it has announced, if it has announced one. */
  function SettleSteps(s: Side, written: bool): seq<Step> {
    if !s.pc.Announced? then [] else if written then [CommitState] else [Abort(Server)]
  }

  lemma FirstIsStep(c: Config, n: Net, role: Role, choice: Choice)
    requires SideOf(n, role).role == role && SideOf(n, role).pc.Select? && Offered(n, role, choice)
    ensures var steps := FirstSteps(SideOf(n, role), role, choice);
            && CanRun(c, n, steps) && After(c, n, steps).gate == n.gate
            && SideOf(After(c, n, steps), role) == Unsettled(c.params, SideOf(n, role), choice)
  {
    var steps := FirstSteps(SideOf(n, role), role, choice);
    if steps != [] {
      OneStep(c, n, steps[0]);
    }
  }

  /**
   * What a controller does on coming out of its wait is the one step of the joint protocol that belongs
   * to what came first, and for a server that announces a state with it the step that assigns it.
   */
  lemma ActIsSteps(c: Config, n: Net, role: Role, choice: Choice, written: bool) returns (steps: seq<Step>)
    requires SideOf(n, role).role == role && SideOf(n, role).pc.Select? && n.gate.Open? && Offered(n, role, choice)
    ensures var first := FirstSteps(SideOf(n, role), role, choice);
            CanRun(c, n, first) && steps == first + SettleSteps(SideOf(After(c, n, first), role), written)
    ensures CanRun(c, n, steps) && SideOf(After(c, n, steps), role) == Act(c.params, SideOf(n, role), choice, written)
  {
    var first := FirstSteps(SideOf(n, role), role, choice);
    FirstIsStep(c, n, role, choice);
    var m := After(c, n, first);
    var last := SettleSteps(SideOf(m, role), written);
    steps := first + last;
    if last == [] {
      assert steps == first;
    } else {
      SettleIsStep(c, m, written);
      RunAppend(c, n, first, last[0]);
    }
  }

  /** The steps at the head of the event loop. */
  function HeadSteps(s: Side, role: Role, t: Turn): seq<Step> {
    match s.state
    case Start =>
      if role.Client? then [WakeUp(role, t.shutdown)]
      else [AnnounceStart] + (if t.written then [CommitState] else [Abort(Server)])
    case CreateStreams(_) => [WakeUp(role, t.shutdown)]
    case Running => [WakeUp(role, t.shutdown)]
    case ExchangeResults => [WindUp(role)]
    case Terminate => [WindUp(role)]
  }

  /**
   * The head of the event loop is one step of the joint protocol, or two for a server that starts a
   * test; a client that still has to connect is the subject of ConnectingHeadIsSteps.
   */
  lemma HeadIsSteps(c: Config, n: Net, role: Role, t: Turn)
    requires SideOf(n, role).role == role && SideOf(n, role).pc.Top? && n.gate.Open?
    requires role.Client? && SideOf(n, role).state.CreateStreams? ==> |SideOf(n, role).streams| >= c.Total()
    ensures CanRun(c, n, HeadSteps(SideOf(n, role), role, t))
    ensures var s, r := SideOf(n, role), SideOf(After(c, n, HeadSteps(SideOf(n, role), role, t)), role);
            if r.pc.Select? then
              Pass(c.params, c.cookie, s, t) == Act(c.params, Elapse(r, t.world), t.choice, t.written)
            else r == Pass(c.params, c.cookie, s, t)
  {
    var s := SideOf(n, role);
    if s.state.Start? && role.Server? {
      OneStep(c, n, AnnounceStart);
      var m := Apply(c, n, AnnounceStart);
      SettleIsStep(c, m, t.written);
      RunAppend(c, n, [AnnounceStart], if t.written then CommitState else Abort(Server));
    } else {
      OneStep(c, n, HeadSteps(s, role, t)[0]);
    }
  }

  /** One Drain for every one of `ids`, and nothing else. */
  predicate Drains(steps: seq<Step>, role: Role, ids: set<nat>) {
    && |steps| == |ids| && (forall id :: id in ids ==> Drain(role, id) in steps)
    && forall step :: step in steps ==> step.Drain? && step.role == role && step.id in ids
  }

  /** The drain is one step for every worker still held. */
  lemma {:induction false} DrainIsSteps(c: Config, n: Net, role: Role) returns (steps: seq<Step>)
    requires SideOf(n, role).role == role && SideOf(n, role).pc.Draining?
    ensures Drains(steps, role, SideOf(n, role).workers) && CanRun(c, n, steps)
    ensures After(c, n, steps) == WithSide(n, role, DrainAll(SideOf(n, role)))
    decreases |SideOf(n, role).workers|
  {
    var s := SideOf(n, role);
    if s.workers == {} {
      steps := [];
      DrainNone(s);
    } else {
      var id :| id in s.workers;
      var m := Apply(c, n, Drain(role, id));
      assert SideOf(m, role).workers == s.workers - {id};
      DrainOneCommutes(s, id);
      var rest := DrainIsSteps(c, m, role);
      steps := [Drain(role, id)] + rest;
      assert steps[1..] == rest;
    }
  }

  /** A side that reads a message in the exchange reads the next one for it; a write or a read may fail. */
  predicate Readable(n: Net, role: Role, e: Closing) {
    && (role.Server? && e.fromClient.Some? ==> n.toServer != [] && e.fromClient.value == n.toServer[0])
    && (role.Client? && e.fromServer.Some? ==> n.toClient != [] && e.fromServer.value == n.toClient[0])
  }

  /** The steps of a side that has drained its workers, as far as the exchange of results takes it. */
  function EndSteps(s: Side, role: Role, e: Closing): seq<Step> {
    if !s.state.ExchangeResults? then [DrainEnds(role)]
    else match role
      case Client =>
        if !e.written then [Abort(Client)]
        else [DrainEnds(Client)] + (if e.fromServer.Some? then [TakeResults(Client)] else [Abort(Client)])
      case Server =>
        if e.fromClient.None? then [DrainEnds(Server)] + [Abort(Server)]
        else if !e.fromClient.value.ClientResults? then [DrainEnds(Server)] + [TakeResults(Server)]
        else [DrainEnds(Server)] + [TakeResults(Server)] + (if e.written then [Reply] else [Abort(Server)])
  }

  lemma ClientEndIsSteps(c: Config, n: Net, e: Closing)
    requires n.client.role.Client? && n.client.pc.Draining? && n.client.workers == {} && n.client.state.ExchangeResults?
    requires Readable(n, Client, e)
    ensures var steps := EndSteps(n.client, Client, e);
            CanRun(c, n, steps) && After(c, n, steps).client == Exchanged(n.client, e)
  {
    if !e.written {
      OneStep(c, n, Abort(Client));
    } else {
      OneStep(c, n, DrainEnds(Client));
      RunAppend(c, n, [DrainEnds(Client)], if e.fromServer.Some? then TakeResults(Client) else Abort(Client));
    }
  }

  lemma ServerEndIsSteps(c: Config, n: Net, e: Closing)
    requires n.server.role.Server? && n.server.pc.Draining? && n.server.workers == {} && n.server.state.ExchangeResults?
    requires Readable(n, Server, e)
    ensures var steps := EndSteps(n.server, Server, e);
            CanRun(c, n, steps) && After(c, n, steps).server == Exchanged(n.server, e)
  {
    var next := if e.fromClient.Some? then TakeResults(Server) else Abort(Server);
    OneStep(c, n, DrainEnds(Server));
    RunAppend(c, n, [DrainEnds(Server)], next);
    if e.fromClient.Some? && e.fromClient.value.ClientResults? {
      RunAppend(c, n, [DrainEnds(Server)] + [TakeResults(Server)], if e.written then Reply else Abort(Server));
    }
  }

  /** With every worker out, the rest is at most three steps, and they are those the exchange calls for. */
  lemma EndIsSteps(c: Config, n: Net, role: Role, e: Closing)
    requires SideOf(n, role).role == role && SideOf(n, role).pc.Draining? && SideOf(n, role).workers == {}
    requires SideOf(n, role).state.ExchangeResults? ==> Readable(n, role, e)
    ensures var s, steps := SideOf(n, role), EndSteps(SideOf(n, role), role, e);
            && CanRun(c, n, steps)
            && SideOf(After(c, n, steps), role) == if s.state.ExchangeResults? then Exchanged(s, e) else s.(pc := Done)
  {
    if !SideOf(n, role).state.ExchangeResults? {
      OneStep(c, n, DrainEnds(role));
    } else if role.Client? {
      ClientEndIsSteps(c, n, e);
    } else {
      ServerEndIsSteps(c, n, e);
    }
  }

  lemma {:induction false} RunsCompose(c: Config, n: Net, first: seq<Step>, second: seq<Step>)
    requires CanRun(c, n, first) && CanRun(c, After(c, n, first), second)
    ensures CanRun(c, n, first + second) && After(c, n, first + second) == After(c, After(c, n, first), second)
    decreases |first|
  {
    if first == [] {
      assert first + second == second;
    } else {
      assert (first + second)[1..] == first[1..] + second;
      RunsCompose(c, Apply(c, n, first[0]), first[1..], second);
    }
  }

  /**
   * What a controller does once it has left its loop is a run of the joint protocol as well, with
   * every failure of the exchange. `e` finds the workers as they are: others move in steps of their own.
   */
  lemma CloseIsSteps(c: Config, n: Net, role: Role, e: Closing) returns (drain: seq<Step>)
    requires SideOf(n, role).role == role && SideOf(n, role).pc.Draining?
    requires WithTasks(SideOf(n, role).streams, e.tasks) == SideOf(n, role).streams
    requires SideOf(n, role).state.ExchangeResults? ==> Readable(n, role, e)
    ensures Drains(drain, role, SideOf(n, role).workers)
    ensures var steps := drain + EndSteps(SideOf(n, role), role, e);
            CanRun(c, n, steps) && SideOf(After(c, n, steps), role) == Close(SideOf(n, role), e)
  {
    var s := SideOf(n, role);
    drain := DrainIsSteps(c, n, role);
    EndIsSteps(c, After(c, n, drain), role, e);
    RunsCompose(c, n, drain, EndSteps(s, role, e));
    assert s.(streams := s.streams) == s;
  }

  // ---- Opening data connections ----

  /**
   * One attempt to open a data connection is a Connect, and later a ReadWelcome or the end of the
   * client; in between, others may move as long as they leave the client waiting.
   */
  lemma JoinIsSteps(c: Config, n: Net, m: Net, welcomed: bool)
    requires Enabled(c, n, Connect) && m.client == Apply(c, n, Connect).client
    requires welcomed ==> Enabled(c, m, ReadWelcome)
                          && ClientReads(c.codec, m.conns[|n.conns|].down.Unread()).Message?
    ensures var step := if welcomed then ReadWelcome else Abort(Client);
            && Enabled(c, m, step)
            && Apply(c, m, step).client == JoinAll(c.params, n.client, [if welcomed then Some(|n.conns|) else None])
    ensures Enabled(c, m, ReadWelcome) && ClientReads(c.codec, m.conns[|n.conns|].down.Unread()).Refused? ==>
              Apply(c, m, ReadWelcome).client == JoinAll(c.params, n.client, [None])
  {
    assert [Some(|n.conns|)][1..] == [];
  }

  /** Attempt by attempt: the client goes on from where its earlier attempts have left it. */
  lemma {:induction false} JoinAllComposes(params: Parameters, s: Side, first: seq<Option<nat>>, rest: seq<Option<nat>>)
    requires forall j :: j in first ==> j.Some?
    ensures JoinAll(params, s, first + rest) == JoinAll(params, JoinAll(params, s, first), rest)
    decreases |first|
  {
    if first == [] {
      assert first + rest == rest;
    } else if |s.streams| < TotalStreams(params) {
      assert first[0] in first && forall j :: j in first[1..] ==> j in first;
      assert (first + rest)[0] == first[0] && (first + rest)[1..] == first[1..] + rest;
      JoinAllComposes(params, Register(params, s, first[0].value), first[1..], rest);
    }
  }

  /** A client that had connections to open has made its attempts; the head of its loop is one step more. */
  lemma ConnectingHeadIsSteps(c: Config, s: Side, n: Net, t: Turn)
    requires s.role.Client? && s.pc.Top? && s.state.CreateStreams?
    requires |s.streams| + |t.joins| >= c.Total() && n.client == JoinAll(c.params, s, t.joins)
    ensures n.client.pc.Aborted? ==> Pass(c.params, c.cookie, s, t) == n.client
    ensures !n.client.pc.Aborted? ==>
              && Enabled(c, n, WakeUp(Client, t.shutdown))
              && var r := Apply(c, n, WakeUp(Client, t.shutdown)).client;
                 Pass(c.params, c.cookie, s, t) == Act(c.params, Elapse(r, t.world), t.choice, t.written)
  {
    JoinAllShape(c.params, s, t.joins);
  }

  lemma {:induction false} JoinAllShape(params: Parameters, s: Side, joins: seq<Option<nat>>)
    requires |s.streams| + |joins| >= TotalStreams(params)
    ensures var r := JoinAll(params, s, joins);
            && r == s.(streams := r.streams, workers := r.workers, pc := r.pc)
            && (r.pc == s.pc || r.pc.Aborted?) && (!r.pc.Aborted? ==> |r.streams| >= TotalStreams(params))
    decreases |joins|
  {
    if |s.streams| < TotalStreams(params) && joins[0].Some? {
      JoinAllShape(params, Register(params, s, joins[0].value), joins[1..]);
    }
  }

  // ---- The accept loop ----

  /** The test's own client is let in: three steps, and its stream is on its way to the controller. */
  lemma AdmitIsSteps(c: Config, n: Net, k: nat)
    requires ValidConfig(c) && n.gate.Open? && n.server.Alive() && n.server.state == CreateStreams(c.cookie)
    requires k < |n.conns| && !n.conns[k].taken && ConnFits(c, n.conns[k])
    ensures var steps := [Admit(k)] + [CheckCookie] + [Enqueue];
            && CanRun(c, n, steps)
            && var m := After(c, n, steps);
               && m.server == TrySend(n.server, CreateStream(k)) && m.gate.Open? && m.client == n.client
               && k < |m.conns| && m.conns[k].down.written == c.welcome
  {
    HelloReads(c, n.conns[k]);
    var n1 := Apply(c, n, Admit(k));
    assert n1.conns[k].up == n.conns[k].up;
    OneStep(c, n, Admit(k));
    RunAppend(c, n, [Admit(k)], CheckCookie);
    RunAppend(c, n, [Admit(k)] + [CheckCookie], Enqueue);
  }

  /** A connection whose handshake fails: two steps, and the test is told to stop. */
  lemma SpoilIsSteps(c: Config, n: Net, k: nat)
    requires n.gate.Open? && n.server.Alive() && n.server.state.CreateStreams?
    requires k < |n.conns| && !n.conns[k].taken && ConnFits(c, n.conns[k])
    ensures var steps := [Admit(k)] + [GateFails];
            && CanRun(c, n, steps)
            && var m := After(c, n, steps);
               && m.server == TrySend(n.server, Stop) && m.gate.Open? && m.client == n.client
               && k < |m.conns| && m.conns[k].down.written == []
  {
    OneStep(c, n, Admit(k));
    RunAppend(c, n, [Admit(k)], GateFails);
  }

  lemma TurnAwayIsStep(c: Config, n: Net, k: nat)
    requires n.gate.Open? && !(n.server.Alive() && n.server.state.CreateStreams?)
    requires k < |n.conns| && !n.conns[k].taken && ConnFits(c, n.conns[k])
    ensures CanRun(c, n, [TurnAway(k)])
    ensures var m := After(c, n, [TurnAway(k)]);
            && m.server == n.server && m.gate.Open? && m.client == n.client
            && k < |m.conns| && m.conns[k].down.written == c.refusal
  {
    OneStep(c, n, TurnAway(k));
  }

  lemma NewTestIsStep(c: Config, n: Net, k: nat)
    requires n.gate.Open? && !n.server.Alive()
    requires k < |n.conns| && !n.conns[k].taken && ConnFits(c, n.conns[k])
    ensures CanRun(c, n, [NewTestInstead(k)])
    ensures var m := After(c, n, [NewTestInstead(k)]);
            && m.server == n.server && m.gate.Open? && m.client == n.client
            && k < |m.conns| && m.conns[k].down.written == c.welcome
  {
    OneStep(c, n, NewTestInstead(k));
  }

  /** What the accept loop has written in answer to a connection. */
  function Answer(c: Config, v: A.Verdict, e: A.Inbound): seq<byte> {
    match v
    case Streamed(_, _, _) => c.welcome
    case TurnedAway(_) => c.refusal
    case Spoiled(_, _) => []
    case Started(_) => c.welcome
    case Rejected(_) => if e.first.Some? && e.first.value.Hello? && e.welcomed then c.welcome else []
  }

  /** Among the tests of the accept loop, number `i` is the one of the joint protocol; nobody else moves. */
  predicate Hosts(c: Config, n: Net, a: A.Loop, i: nat, e: A.Inbound) {
    && A.OneTest(a) && i < |a.tests| && a.tests[i] == A.Test(c.cookie, n.server) && e.before == e.during == a.tests
  }

  /** A connection of the test's own client, not yet taken: it brings the hello, if anything can be read. */
  predicate OwnConnection(c: Config, n: Net, e: A.Inbound) {
    && e.conn < |n.conns| && !n.conns[e.conn].taken && ConnFits(c, n.conns[e.conn])
    && (e.first.None? || e.first == Some(Hello(c.cookie)))
  }

  /** The steps that a connection of the test's own client brings about. */
  function OwnSteps(c: Config, n: Net, a: A.Loop, e: A.Inbound): seq<Step> {
    var k := e.conn;
    if n.server.Alive() then
      if !n.server.state.CreateStreams? then [TurnAway(k)]
      else if e.first == Some(Hello(c.cookie)) && e.welcomed then [Admit(k)] + [CheckCookie] + [Enqueue]
      else [Admit(k)] + [GateFails]
    else
      match A.Judge(a, e)
      case TurnedAway(_) => [TurnAway(k)]
      case Spoiled(_, _) => []
      case v => if Answer(c, v, e) == c.welcome then [NewTestInstead(k)] else []
  }

  /** The steps that a stranger's connection brings about. */
  function StrangerSteps(n: Net, e: A.Inbound): seq<Step> {
    var spoils := e.first.None? || !e.first.value.Hello?;
    if n.server.Alive() && n.server.state.CreateStreams? && spoils then [Stray] else []
  }

  lemma OwnWhileAlive(c: Config, n: Net, a: A.Loop, i: nat, e: A.Inbound)
    requires ValidConfig(c) && n.gate.Open? && Hosts(c, n, a, i, e) && OwnConnection(c, n, e) && n.server.Alive()
    ensures var steps := OwnSteps(c, n, a, e);
            && CanRun(c, n, steps)
            && var r, m := A.Serve(a, e), After(c, n, steps);
               && r.tests[i].side == m.server && m.gate.Open? && m.client == n.client
               && e.conn < |m.conns| && m.conns[e.conn].down.written == Answer(c, A.Judge(a, e), e)
  {
    if !n.server.state.CreateStreams? {
      TurnAwayIsStep(c, n, e.conn);
    } else if e.first.Some? && e.welcomed {
      AdmitIsSteps(c, n, e.conn);
    } else {
      SpoilIsSteps(c, n, e.conn);
    }
  }

  lemma OwnWhenGone(c: Config, n: Net, a: A.Loop, i: nat, e: A.Inbound)
    requires ValidConfig(c) && n.gate.Open? && Hosts(c, n, a, i, e) && OwnConnection(c, n, e) && !n.server.Alive()
    ensures var steps := OwnSteps(c, n, a, e);
            && CanRun(c, n, steps)
            && var r, m := A.Serve(a, e), After(c, n, steps);
               && r.tests[i].side == m.server && m.gate.Open? && m.client == n.client
               && e.conn < |m.conns| && m.conns[e.conn].down.written == Answer(c, A.Judge(a, e), e)
  {
    var steps := OwnSteps(c, n, a, e);
    if steps == [TurnAway(e.conn)] {
      TurnAwayIsStep(c, n, e.conn);
    } else if steps == [NewTestInstead(e.conn)] {
      NewTestIsStep(c, n, e.conn);
    }
  }

  /** A stranger moves nothing of the test unless it spoils a handshake while streams are created. */
  lemma StrangerIsSteps(c: Config, n: Net, a: A.Loop, i: nat, e: A.Inbound)
    requires n.gate.Open? && Hosts(c, n, a, i, e) && e.first != Some(Hello(c.cookie))
    ensures var steps := StrangerSteps(n, e);
            && CanRun(c, n, steps)
            && var r, m := A.Serve(a, e), After(c, n, steps);
               r.tests[i].side == m.server && m == n.(server := m.server)
  {
    if StrangerSteps(n, e) != [] {
      OneStep(c, n, Stray);
    }
  }

  /**
   * Whatever connection the accept loop serves, what it does to the test of the joint protocol is made
   * of the steps of that protocol that belong to it: at most three for one of the test's own client,
   * which finds exactly the accept loop's answer on it, and at most one for a stranger's.
   */
  lemma ServeIsSteps(c: Config, n: Net, a: A.Loop, i: nat, e: A.Inbound, own: bool)
    requires ValidConfig(c) && n.gate.Open? && Hosts(c, n, a, i, e)
    requires if own then OwnConnection(c, n, e) else e.first != Some(Hello(c.cookie))
    ensures var steps := if own then OwnSteps(c, n, a, e) else StrangerSteps(n, e);
            && CanRun(c, n, steps)
            && var r, m := A.Serve(a, e), After(c, n, steps);
               && r.tests[i].side == m.server && m.gate.Open? && m.client == n.client
               && (own ==> e.conn < |m.conns| && m.conns[e.conn].down.written == Answer(c, A.Judge(a, e), e))
  {
    if !own {
      StrangerIsSteps(c, n, a, i, e);
    } else if n.server.Alive() {
      OwnWhileAlive(c, n, a, i, e);
    } else {
      OwnWhenGone(c, n, a, i, e);
    }
  }
}
