/**
 * The server's accept loop over any sequence of connections: which of them start a test, which
 * become a stream of the test in flight, and which are turned away.
 */
module AcceptLoop {
  import opened Messages
  import opened Control

  /** A test the server has dispatched; its controller runs on its own. */
  datatype Test = Test(cookie: string, side: Side)
  {
    predicate Alive() { side.Alive() }

    /** A server's controller, which creates streams under its own cookie, now or as soon as it assigns the state. */
    predicate OwnCookie() {
      side.role.Server? && Own(side.state) && (side.pc.Announced? ==> Own(side.pc.next))
    }

    predicate Own(state: State) { state.CreateStreams? ==> state.cookie == cookie }
  }

  datatype Error = UnexpectedClientMessage(message: ClientMessage) | ReadFailed | WriteFailed

  datatype Result<+T> = Ok(value: T) | Err(error: Error)

  /** What became of an inbound connection. */
  datatype Verdict =
    | Streamed(test: nat, presented: string, state: State) // handed to the test's controller
    | TurnedAway(test: nat)
    | Spoiled(test: nat, error: Error)                     // the test is told to terminate
    | Started(test: nat)
    | Rejected(error: Error)

  datatype Entry = Entry(conn: nat, verdict: Verdict)

  /**
   * What happens around one inbound connection: the tests as they are when it is accepted, the
   * first message it brings, the tests once that has been read, whether the welcome could be
   * written, and the second message.
   */
  datatype Inbound = Inbound(
    conn: nat,
    before: seq<Test>,
    first: Option<ClientMessage>,
    during: seq<Test>,
    welcomed: bool,
    second: Option<ClientMessage>)

  /** `inFlight` is the weak reference to a test's state, `channel` the sender to its controller. */
  datatype Loop = Loop(tests: seq<Test>, inFlight: Option<nat>, channel: Option<nat>, log: seq<Entry>)

  const IDLE := Loop([], None, None, [])

  /** A weak reference can be upgraded as long as the controller that owns the state is alive. */
  function Upgrade(tests: seq<Test>, inFlight: Option<nat>): (r: Option<nat>)
    ensures r.Some? ==> r == inFlight && r.value < |tests|
  {
    if inFlight.Some? && inFlight.value < |tests| && tests[inFlight.value].Alive() then inFlight else None
  }

  function CookieOf(first: Option<ClientMessage>): Result<string> {
    match first
    case None => Err(ReadFailed)
    case Some(Hello(cookie)) => Ok(cookie)
    case Some(m) => Err(UnexpectedClientMessage(m))
  }

  function ParametersOf(second: Option<ClientMessage>): Result<Parameters> {
    match second
    case None => Err(ReadFailed)
    case Some(SendParameters(params)) => Ok(params)
    case Some(m) => Err(UnexpectedClientMessage(m))
  }

  function Tell(tests: seq<Test>, k: Option<nat>, m: ControllerMessage): (r: seq<Test>)
    ensures |r| == |tests|
  {
    if k.None? || k.value >= |tests| then tests
    else tests[k.value := tests[k.value].(side := TrySend(tests[k.value].side, m))]
  }

  /** What becomes of a connection that arrives while test `k` is in flight. */
  function StreamVerdict(k: nat, state: State, e: Inbound): Verdict {
    if !state.CreateStreams? then TurnedAway(k) else
    match CookieOf(e.first)
    case Err(error) => Spoiled(k, error)
    case Ok(presented) =>
      if presented != state.cookie then TurnedAway(k)
      else if !e.welcomed then Spoiled(k, WriteFailed)
      else Streamed(k, presented, state)
  }

  /** What becomes of a connection that arrives while no test is in flight. */
  function TestVerdict(number: nat, e: Inbound): Verdict {
    match CookieOf(e.first)
    case Err(error) => Rejected(error)
    case Ok(_) =>
      if !e.welcomed then Rejected(WriteFailed) else
      match ParametersOf(e.second)
      case Err(error) => Rejected(error)
      case Ok(_) => Started(number)
  }

  function Judge(a: Loop, e: Inbound): Verdict {
    var k := Upgrade(e.before, a.inFlight);
    if k.Some? then StreamVerdict(k.value, e.before[k.value].side.state, e) else TestVerdict(|e.during|, e)
  }

  /** One inbound connection, from its acceptance to the next. */
  function Serve(a: Loop, e: Inbound): Loop {
    var v := Judge(a, e);
    var log := a.log + [Entry(e.conn, v)];
    match v
    case Streamed(_, _, _) => Loop(Tell(e.during, a.channel, CreateStream(e.conn)), a.inFlight, a.channel, log)
    case Spoiled(_, _) => Loop(Tell(e.during, a.channel, Stop), a.inFlight, a.channel, log)
    case Started(number) =>
      Loop(e.during + [Test(CookieOf(e.first).value, InitialSide(Server))], Some(number), Some(number), log)
    case _ => Loop(e.during, a.inFlight, a.channel, log)
  }

  function ServeAll(a: Loop, events: seq<Inbound>): Loop
    decreases |events|
  {
    if events == [] then a else ServeAll(Serve(a, events[0]), events[1..])
  }

  // ---- What the controllers may do meanwhile ----

  /** A controller keeps to its own cookie, does not come back to life, and is brought streams by this loop only. */
  predicate Evolves(x: Test, y: Test) {
    && y.cookie == x.cookie
    && (y.Alive() ==> x.Alive())
    && y.OwnCookie()
    && forall m :: m in y.side.queue && m.CreateStream? ==> m in x.side.queue
  }

  predicate AllEvolve(x: seq<Test>, y: seq<Test>) {
    |x| == |y| && forall i :: 0 <= i < |x| ==> Evolves(x[i], y[i])
  }

  /** The tests evolve; the state of the test in flight is locked while the first message is read. */
  predicate ValidEvent(a: Loop, e: Inbound) {
    && AllEvolve(a.tests, e.before) && AllEvolve(e.before, e.during)
    && var k := Upgrade(e.before, a.inFlight);
       k.Some? && e.before[k.value].side.state.CreateStreams? ==>
         e.during[k.value].side.state == e.before[k.value].side.state
  }

  predicate ValidEvents(a: Loop, events: seq<Inbound>)
    decreases |events|
  {
    events == [] || (ValidEvent(a, events[0]) && ValidEvents(Serve(a, events[0]), events[1..]))
  }

  // ---- One test at a time ----

  /** The latest test is the one the loop knows, and no other is alive. */
  predicate OneTest(a: Loop) {
    && a.inFlight == a.channel == (if a.tests == [] then None else Some(|a.tests| - 1))
    && (forall i :: 0 <= i < |a.tests| - 1 ==> !a.tests[i].Alive())
    && (forall i :: 0 <= i < |a.tests| ==> a.tests[i].OwnCookie())
  }

  /** The log holds an entry for connection `conn` as a stream of test `k`, under that test's cookie. */
  ghost predicate AdmittedFor(a: Loop, conn: nat, k: nat)
    requires k < |a.tests|
  {
    Entry(conn, Streamed(k, a.tests[k].cookie, CreateStreams(a.tests[k].cookie))) in a.log
  }

  ghost predicate StreamsAdmitted(a: Loop) {
    && (forall k, conn :: 0 <= k < |a.tests| && CreateStream(conn) in a.tests[k].side.queue ==> AdmittedFor(a, conn, k))
    && forall x :: x in a.log && x.verdict.Streamed? ==>
         && x.verdict.test < |a.tests| && x.verdict.presented == a.tests[x.verdict.test].cookie
         && x.verdict.state == CreateStreams(x.verdict.presented)
  }

  lemma EvolveTwice(x: seq<Test>, y: seq<Test>, z: seq<Test>)
    requires AllEvolve(x, y) && AllEvolve(y, z)
    ensures AllEvolve(x, z)
  {
    forall i | 0 <= i < |x| ensures Evolves(x[i], z[i]) {
      assert Evolves(x[i], y[i]) && Evolves(y[i], z[i]);
    }
  }

  lemma EvolvedKeepsOneTest(a: Loop, tests: seq<Test>)
    requires OneTest(a) && AllEvolve(a.tests, tests)
    ensures OneTest(a.(tests := tests))
  {
  }

  lemma ServeKeepsOneTest(a: Loop, e: Inbound)
    requires OneTest(a) && ValidEvent(a, e)
    ensures OneTest(Serve(a, e))
  {
    EvolveTwice(a.tests, e.before, e.during);
    EvolvedKeepsOneTest(a, e.before);
    EvolvedKeepsOneTest(a, e.during);
  }

  /** Another entry in the log, and nothing new in any queue. */
  lemma EvolvedKeepsAdmitted(a: Loop, tests: seq<Test>, x: Entry)
    requires StreamsAdmitted(a) && AllEvolve(a.tests, tests) && !x.verdict.Streamed?
    ensures StreamsAdmitted(a.(tests := tests, log := a.log + [x]))
  {
    var r := a.(tests := tests, log := a.log + [x]);
    forall k, conn | 0 <= k < |tests| && CreateStream(conn) in tests[k].side.queue ensures AdmittedFor(r, conn, k) {
      assert Evolves(a.tests[k], tests[k]) && AdmittedFor(a, conn, k);
    }
  }

  /** A message to one test: a new stream needs its entry in the log. */
  lemma TellKeepsAdmitted(a: Loop, to: Option<nat>, m: ControllerMessage, x: Entry)
    requires StreamsAdmitted(a)
    requires x.verdict.Streamed? || m.CreateStream? ==>
               to.Some? && to.value < |a.tests| && m == CreateStream(x.conn)
               && x.verdict == Streamed(to.value, a.tests[to.value].cookie, CreateStreams(a.tests[to.value].cookie))
    ensures StreamsAdmitted(a.(tests := Tell(a.tests, to, m), log := a.log + [x]))
  {
    var r := a.(tests := Tell(a.tests, to, m), log := a.log + [x]);
    forall k, conn | 0 <= k < |r.tests| && CreateStream(conn) in r.tests[k].side.queue ensures AdmittedFor(r, conn, k) {
      if CreateStream(conn) in a.tests[k].side.queue {
        assert AdmittedFor(a, conn, k);
      }
    }
  }

  lemma StartKeepsAdmitted(a: Loop, test: Test, x: Entry)
    requires StreamsAdmitted(a) && test.side == InitialSide(Server) && !x.verdict.Streamed?
    ensures StreamsAdmitted(Loop(a.tests + [test], Some(|a.tests|), Some(|a.tests|), a.log + [x]))
  {
    var r := Loop(a.tests + [test], Some(|a.tests|), Some(|a.tests|), a.log + [x]);
    forall k, conn | 0 <= k < |r.tests| && CreateStream(conn) in r.tests[k].side.queue ensures AdmittedFor(r, conn, k) {
      assert AdmittedFor(a, conn, k);
    }
  }

  lemma ServeKeepsAdmitted(a: Loop, e: Inbound)
    requires OneTest(a) && StreamsAdmitted(a) && ValidEvent(a, e)
    ensures StreamsAdmitted(Serve(a, e))
  {
    var v := Judge(a, e);
    var x, b := Entry(e.conn, v), a.(tests := e.during);
    EvolveTwice(a.tests, e.before, e.during);
    if v.Streamed? {
      assert Evolves(a.tests[v.test], e.before[v.test]);
      EvolvedKeepsAdmitted(a, e.during, Entry(0, TurnedAway(0)));
      assert StreamsAdmitted(b);
      TellKeepsAdmitted(b, a.channel, CreateStream(e.conn), x);
    } else {
      EvolvedKeepsAdmitted(a, e.during, x);
      if v.Spoiled? {
        EvolvedKeepsAdmitted(a, e.during, Entry(0, TurnedAway(0)));
        TellKeepsAdmitted(b, a.channel, Stop, x);
      } else if v.Started? {
        StartKeepsAdmitted(b, Test(CookieOf(e.first).value, InitialSide(Server)), x);
      }
    }
  }

  lemma {:induction false} RunIsSafe(a: Loop, events: seq<Inbound>)
    requires OneTest(a) && StreamsAdmitted(a) && ValidEvents(a, events)
    ensures OneTest(ServeAll(a, events)) && StreamsAdmitted(ServeAll(a, events))
    decreases |events|
  {
    if events != [] {
      ServeKeepsOneTest(a, events[0]);
      ServeKeepsAdmitted(a, events[0]);
      RunIsSafe(Serve(a, events[0]), events[1..]);
    }
  }

  /**
   * After any connections whatever: no two tests are alive; while one is, the weak reference and the
   * channel are both that test's; and every stream in a test's queue was admitted under that test's
   * cookie, while that test was creating streams.
   */
  lemma SingleTestInFlight(events: seq<Inbound>)
    requires ValidEvents(IDLE, events)
    ensures var a := ServeAll(IDLE, events);
            && (forall i, j :: 0 <= i < j < |a.tests| ==> !(a.tests[i].Alive() && a.tests[j].Alive()))
            && (forall i :: 0 <= i < |a.tests| && a.tests[i].Alive() ==> a.inFlight == a.channel == Some(i))
            && (forall k, conn :: 0 <= k < |a.tests| && CreateStream(conn) in a.tests[k].side.queue ==>
                AdmittedFor(a, conn, k))
  {
    RunIsSafe(IDLE, events);
  }

  /** The channel is there, and is the test's own, whenever the reference can be upgraded: no unwrap fails. */
  lemma UnwrapsNeverFail(events: seq<Inbound>, e: Inbound)
    requires ValidEvents(IDLE, events) && ValidEvent(ServeAll(IDLE, events), e)
    ensures var a := ServeAll(IDLE, events);
            Upgrade(e.before, a.inFlight).Some? ==> a.channel == Upgrade(e.before, a.inFlight)
  {
    RunIsSafe(IDLE, events);
  }

  ghost predicate LiveTest(tests: seq<Test>, k: nat) { k < |tests| && tests[k].Alive() }

  lemma StreamedExactly(a: Loop, e: Inbound, k: nat)
    requires OneTest(a.(tests := e.before))
    ensures var v := Judge(a, e);
            (v.Streamed? && v.test == k)
            <==> LiveTest(e.before, k) && e.before[k].side.state == CreateStreams(e.before[k].cookie)
                 && e.first == Some(Hello(e.before[k].cookie)) && e.welcomed
  {
  }

  lemma StartedExactly(a: Loop, e: Inbound)
    requires OneTest(a.(tests := e.before))
    ensures Judge(a, e).Started?
            <==> (forall i: nat :: !LiveTest(e.before, i))
                 && e.first.Some? && e.first.value.Hello? && e.welcomed
                 && e.second.Some? && e.second.value.SendParameters?
  {
    var live := Upgrade(e.before, a.inFlight);
    assert live.Some? ==> LiveTest(e.before, live.value);
  }

  /**
   * Exactly which connections become streams, and which start a test: a stream presents the cookie
   * of the live test while that test creates streams, and a test starts only when none is alive.
   */
  lemma AdmittedExactly(events: seq<Inbound>, e: Inbound, k: nat)
    requires ValidEvents(IDLE, events) && ValidEvent(ServeAll(IDLE, events), e)
    ensures var v := Judge(ServeAll(IDLE, events), e);
            && ((v.Streamed? && v.test == k)
                <==> LiveTest(e.before, k) && e.before[k].side.state == CreateStreams(e.before[k].cookie)
                     && e.first == Some(Hello(e.before[k].cookie)) && e.welcomed)
            && (v.Started?
                <==> (forall i: nat :: !LiveTest(e.before, i))
                     && e.first.Some? && e.first.value.Hello? && e.welcomed
                     && e.second.Some? && e.second.value.SendParameters?)
  {
    var a := ServeAll(IDLE, events);
    RunIsSafe(IDLE, events);
    EvolvedKeepsOneTest(a, e.before);
    StreamedExactly(a, e, k);
    StartedExactly(a, e);
  }

  /** A handshake that a test creating streams cannot complete: nothing readable, no hello, or no welcome written. */
  predicate Spoils(e: Inbound, cookie: string) {
    e.first.None? || !e.first.value.Hello? || (e.first.value.cookie == cookie && !e.welcomed)
  }

  /** What becomes of a connection while a test is alive, in every case. */
  lemma VerdictsExactly(events: seq<Inbound>, e: Inbound, k: nat)
    requires ValidEvents(IDLE, events) && ValidEvent(ServeAll(IDLE, events), e) && LiveTest(e.before, k)
    ensures var v := Judge(ServeAll(IDLE, events), e);
            var creating := e.before[k].side.state == CreateStreams(e.before[k].cookie);
            && (v.Streamed? || v.TurnedAway? || v.Spoiled?) && v.test == k
            && (v.Streamed? <==> creating && e.first == Some(Hello(e.before[k].cookie)) && e.welcomed)
            && (v.Spoiled? <==> creating && Spoils(e, e.before[k].cookie))
  {
    var a := ServeAll(IDLE, events);
    RunIsSafe(IDLE, events);
    EvolvedKeepsOneTest(a, e.before);
    StreamedExactly(a, e, k);
  }

  /** Every connection is served, in the order of their arrival. */
  lemma {:induction false} AllAreServed(a: Loop, events: seq<Inbound>)
    ensures var r := ServeAll(a, events);
            && |r.log| == |a.log| + |events| && a.log <= r.log
            && forall i :: 0 <= i < |events| ==> r.log[|a.log| + i].conn == events[i].conn
    decreases |events|
  {
    if events != [] {
      var next := Serve(a, events[0]);
      AllAreServed(next, events[1..]);
      var r := ServeAll(a, events);
      assert r.log[|a.log|] == next.log[|a.log|];
      forall i | 1 <= i < |events| ensures r.log[|a.log| + i].conn == events[i].conn {
        assert r.log[|next.log| + (i - 1)].conn == events[1..][i - 1].conn;
      }
    }
  }

  /** What has been served has no bearing on what comes but through the state the loop is in. */
  lemma {:induction false} ServeAllComposes(a: Loop, first: seq<Inbound>, rest: seq<Inbound>)
    ensures ServeAll(a, first + rest) == ServeAll(ServeAll(a, first), rest)
    ensures |first| == 1 ==> ServeAll(a, first) == Serve(a, first[0])
    decreases |first|
  {
    if first == [] {
      assert first + rest == rest;
    } else {
      assert (first + rest)[0] == first[0] && (first + rest)[1..] == first[1..] + rest;
      ServeAllComposes(Serve(a, first[0]), first[1..], rest);
    }
  }

  /** A live test is told to terminate only by a connection that arrives while it creates streams. */
  lemma SpoiledOnlyWhileCreating(events: seq<Inbound>, e: Inbound)
    requires ValidEvents(IDLE, events) && ValidEvent(ServeAll(IDLE, events), e)
    ensures var v := Judge(ServeAll(IDLE, events), e);
            v.Spoiled? ==>
              && LiveTest(e.before, v.test)
              && e.before[v.test].side.state == CreateStreams(e.before[v.test].cookie)
              && (e.first.None? || !e.first.value.Hello? || !e.welcomed)
  {
    var a := ServeAll(IDLE, events);
    RunIsSafe(IDLE, events);
    EvolvedKeepsOneTest(a, e.before);
  }

  /**
   * What reaches the queue of the live test, with room in it: a request to stop if and only if the
   * test is creating streams and the connection spoils its handshake, the connection if and only if
   * it is admitted, and nothing otherwise. No other test's queue, and nothing else of any test, changes.
   */
  lemma ToldExactly(events: seq<Inbound>, e: Inbound, k: nat)
    requires ValidEvents(IDLE, events) && ValidEvent(ServeAll(IDLE, events), e)
    requires LiveTest(e.before, k) && e.during[k].Alive() && |e.during[k].side.queue| < INTERNAL_PORT_BUFFER
    ensures var r, q := Serve(ServeAll(IDLE, events), e), e.during[k].side.queue;
            && |r.tests| == |e.during| && (forall i :: 0 <= i < |r.tests| && i != k ==> r.tests[i] == e.during[i])
            && r.tests[k] == e.during[k].(side := e.during[k].side.(queue := r.tests[k].side.queue))
            && (r.tests[k].side.queue == q + [Stop]
                <==> e.before[k].side.state == CreateStreams(e.before[k].cookie) && Spoils(e, e.before[k].cookie))
            && (r.tests[k].side.queue == q + [CreateStream(e.conn)]
                <==> e.before[k].side.state == CreateStreams(e.before[k].cookie)
                     && e.first == Some(Hello(e.before[k].cookie)) && e.welcomed)
            && r.tests[k].side.queue in {q, q + [Stop], q + [CreateStream(e.conn)]}
  {
    var a := ServeAll(IDLE, events);
    RunIsSafe(IDLE, events);
    EvolvedKeepsOneTest(a, e.before);
    ToldByVerdict(a, e, k);
  }

  lemma ToldByVerdict(a: Loop, e: Inbound, k: nat)
    requires OneTest(a.(tests := e.before)) && |e.during| == |e.before|
    requires LiveTest(e.before, k) && e.during[k].Alive() && |e.during[k].side.queue| < INTERNAL_PORT_BUFFER
    ensures var r, q := Serve(a, e), e.during[k].side.queue;
            && |r.tests| == |e.during| && (forall i :: 0 <= i < |r.tests| && i != k ==> r.tests[i] == e.during[i])
            && r.tests[k] == e.during[k].(side := e.during[k].side.(queue := r.tests[k].side.queue))
            && (r.tests[k].side.queue == q + [Stop]
                <==> e.before[k].side.state == CreateStreams(e.before[k].cookie) && Spoils(e, e.before[k].cookie))
            && (r.tests[k].side.queue == q + [CreateStream(e.conn)]
                <==> e.before[k].side.state == CreateStreams(e.before[k].cookie)
                     && e.first == Some(Hello(e.before[k].cookie)) && e.welcomed)
            && r.tests[k].side.queue in {q, q + [Stop], q + [CreateStream(e.conn)]}
  {
    var q := e.during[k].side.queue;
    assert (q + [Stop])[|q|] == Stop && (q + [CreateStream(e.conn)])[|q|] == CreateStream(e.conn);
    assert |q + [Stop]| == |q| + 1 == |q + [CreateStream(e.conn)]|;
  }

  /** A test that cannot be told, because its queue is full or it is gone, is left as it is. */
  lemma NotTold(a: Loop, e: Inbound, k: nat)
    requires OneTest(a.(tests := e.before)) && |e.during| == |e.before| && LiveTest(e.before, k)
    requires !e.during[k].Alive() || |e.during[k].side.queue| >= INTERNAL_PORT_BUFFER
    ensures Serve(a, e).tests == e.during
  {
  }

  /** A new test has the cookie its client said hello with, and starts from the beginning; no other is touched. */
  lemma StartedTest(a: Loop, e: Inbound)
    requires Judge(a, e).Started?
    ensures e.first.Some? && e.first.value.Hello?
    ensures Serve(a, e).tests == e.during + [Test(e.first.value.cookie, InitialSide(Server))]
    ensures Serve(a, e).inFlight == Serve(a, e).channel == Some(|e.during|)
  {
  }

  /** Why a connection came to nothing: what was wrong with its messages, or that it could not be answered. */
  lemma ErrorsExactly(a: Loop, e: Inbound)
    ensures var v := Judge(a, e);
            (v.Spoiled? || v.Rejected?) ==>
              && (v.error == ReadFailed <==> e.first.None? || (e.first.value.Hello? && e.welcomed && e.second.None?))
              && (v.error == WriteFailed <==> e.first.Some? && e.first.value.Hello? && !e.welcomed)
              && (forall m :: v.error == UnexpectedClientMessage(m) <==>
                    (e.first == Some(m) && !m.Hello?)
                    || (e.first.Some? && e.first.value.Hello? && e.welcomed
                        && e.second == Some(m) && !m.SendParameters?))
  {
  }

  // ---- The loop itself ----

  class Listener {
    var tests: seq<Test> // the controllers dispatched so far, as their own tasks leave them
    var inFlightTestState: Option<nat>
    var controllerChannel: Option<nat>
    var log: seq<Entry>

    ghost function View(): Loop
      reads this
    {
      Loop(tests, inFlightTestState, controllerChannel, log)
    }

    constructor ()
      ensures View() == IDLE
    {
      tests, inFlightTestState, controllerChannel, log := [], None, None, [];
    }

    method ReadCookie(first: Option<ClientMessage>) returns (r: Result<string>)
      ensures r == CookieOf(first)
    {
      if first.None? {
        return Err(ReadFailed);
      }
      if first.value.Hello? {
        return Ok(first.value.cookie);
      }
      r := Err(UnexpectedClientMessage(first.value));
    }

    /** The handshake of a new test's control connection: its cookie and its parameters. */
    method CreatePerf(e: Inbound) returns (r: Result<(string, Parameters)>)
      ensures r.Ok? <==> TestVerdict(0, e).Started?
      ensures r.Ok? ==> e.first == Some(Hello(r.value.0)) && e.second == Some(SendParameters(r.value.1))
      ensures r.Err? ==> TestVerdict(0, e) == Rejected(r.error)
    {
      var cookie := ReadCookie(e.first);
      if cookie.Err? {
        return Err(cookie.error);
      }
      if !e.welcomed {
        return Err(WriteFailed);
      }
      if e.second.None? {
        return Err(ReadFailed);
      }
      if !e.second.value.SendParameters? {
        return Err(UnexpectedClientMessage(e.second.value));
      }
      r := Ok((cookie.value, e.second.value.params));
    }

    method TrySendTo(k: nat, message: ControllerMessage)
      requires k < |tests|
      modifies this`tests
      ensures tests == Tell(old(tests), Some(k), message)
    {
      tests := tests[k := tests[k].(side := TrySend(tests[k].side, message))];
    }

    /** A connection that arrives while test `k` is in flight. */
    method HandleCreateStream(e: Inbound, k: nat, channel: nat) returns (r: Result<Verdict>)
      requires k < |tests| && channel < |e.during|
      requires tests == e.before
      modifies this`tests
      ensures tests == if StreamVerdict(k, e.before[k].side.state, e).Streamed?
              then Tell(e.during, Some(channel), CreateStream(e.conn))
                       else e.during
      ensures r == match StreamVerdict(k, e.before[k].side.state, e)
                   case Spoiled(_, error) => Err(error)
                   case v => Ok(v)
    {
      var state := tests[k].side.state;
      tests := e.during;
      if !state.CreateStreams? {
        return Ok(TurnedAway(k));
      }
      var clientCookie := ReadCookie(e.first);
      if clientCookie.Err? {
        return Err(clientCookie.error);
      }
      if clientCookie.value != state.cookie {
        return Ok(TurnedAway(k));
      }
      if !e.welcomed {
        return Err(WriteFailed);
      }
      TrySendTo(channel, CreateStream(e.conn));
      r := Ok(Streamed(k, clientCookie.value, state));
    }

    /** One inbound connection. */
    method Accept(e: Inbound)
      requires OneTest(View()) && ValidEvent(View(), e)
      modifies this
      ensures View() == Serve(old(View()), e)
    {
      ghost var a := View();
      EvolvedKeepsOneTest(a, e.before);
      tests := e.before;
      var upgraded := Upgrade(tests, inFlightTestState);
      if upgraded.Some? {
        var k, channel := upgraded.value, controllerChannel.value;
        var r := HandleCreateStream(e, k, channel);
        if r.Err? {
          TrySendTo(channel, Stop);
          log := log + [Entry(e.conn, Spoiled(k, r.error))];
        } else {
          log := log + [Entry(e.conn, r.value)];
        }
      } else {
        tests := e.during;
        var r := CreatePerf(e);
        if r.Ok? {
          var number := |tests|;
          tests := tests + [Test(r.value.0, InitialSide(Server))];
          inFlightTestState, controllerChannel := Some(number), Some(number);
          log := log + [Entry(e.conn, Started(number))];
        } else {
          log := log + [Entry(e.conn, Rejected(r.error))];
        }
      }
    }

    /** The accept loop, on every connection until the listener is shut down. */
    method Listen(events: seq<Inbound>)
      requires View() == IDLE && ValidEvents(IDLE, events)
      modifies this
      ensures View() == ServeAll(IDLE, events)
    {
      var k := 0;
      assert events[..0] == [] && events[0..] == events;
      while k < |events|
        invariant 0 <= k <= |events| && OneTest(View())
        invariant ValidEvents(View(), events[k..]) && ServeAll(IDLE, events) == ServeAll(View(), events[k..])
      {
        assert events[k..][0] == events[k] && events[k..][1..] == events[k + 1..];
        ServeKeepsOneTest(View(), events[k]);
        Accept(events[k]);
        k := k + 1;
      }
    }
  }
}
