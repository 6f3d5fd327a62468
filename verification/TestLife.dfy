/**
 * What the accept loop counts on of the controllers it dispatches, proved of the controller: whatever
 * its surroundings do, a controller keeps to its test's cookie, does not come back to life, and finds
 * no stream in its queue but those the accept loop has put there.
 */
module TestLife {
  import opened Messages
  import opened Control
  import opened EventLoop
  import opened AcceptLoop

  /** One thing a server's controller does, or has done to it, between two points at which others may run. */
  datatype Move =
    | Waits(world: World)
    | Wakes(shutdown: bool)
    | Begins
    | Handles
    | IsShutDown
    | Settles(written: bool)
    | WindsUp
    | Closes(closing: Closing)
    | GivesUp

  /** Of all tasks only the accept loop sends streams. */
  predicate NoStreams(sent: seq<ControllerMessage>) {
    forall m :: m in sent ==> !m.CreateStream?
  }

  predicate Fair(m: Move) {
    m.Waits? ==> NoStreams(m.world.sent)
  }

  /** A controller that is gone does nothing more. */
  function Moved(params: Parameters, cookie: string, s: Side, m: Move): Side {
    if !s.Alive() then s else
    match m
    case Waits(world) => Elapse(s, world)
    case Wakes(shutdown) => Wake(s, shutdown)
    case Begins => RequestState(s, CreateStreams(cookie))
    case Handles => if Ready(s) then HandleInternal(params, s) else s
    case IsShutDown => RequestState(s, Terminate)
    case Settles(written) => Settle(s, written)
    case WindsUp => Finish(s)
    case Closes(closing) => Close(s, closing)
    case GivesUp => s.(pc := Aborted)
  }

  function AllMoved(params: Parameters, cookie: string, s: Side, moves: seq<Move>): Side
    decreases |moves|
  {
    if moves == [] then s else AllMoved(params, cookie, Moved(params, cookie, s, moves[0]), moves[1..])
  }

  /** The side of a test evolves as the accept loop counts on. */
  predicate Keeps(cookie: string, s: Side, r: Side) { Evolves(Test(cookie, s), Test(cookie, r)) }

  lemma KeepsTwice(cookie: string, s: Side, r: Side, q: Side)
    requires Keeps(cookie, s, r) && Keeps(cookie, r, q)
    ensures Keeps(cookie, s, q)
  {
  }

  lemma {:induction false} SendAllKeeps(cookie: string, s: Side, sent: seq<ControllerMessage>)
    requires Test(cookie, s).OwnCookie() && NoStreams(sent)
    ensures Keeps(cookie, s, SendAll(s, sent))
    decreases |sent|
  {
    if sent != [] {
      assert sent[0] in sent && forall m :: m in sent[1..] ==> m in sent;
      SendAllKeeps(cookie, TrySend(s, sent[0]), sent[1..]);
    }
  }

  lemma ElapseKeeps(cookie: string, s: Side, w: World)
    requires Test(cookie, s).OwnCookie() && NoStreams(w.sent)
    ensures Keeps(cookie, s, Elapse(s, w))
  {
    SendAllKeeps(cookie, s.(streams := WithTasks(s.streams, w.tasks)), w.sent);
  }

  lemma SettleKeeps(cookie: string, s: Side, written: bool)
    requires Test(cookie, s).OwnCookie()
    ensures Keeps(cookie, s, Settle(s, written))
  {
  }

  lemma WakeKeeps(cookie: string, s: Side, shutdown: bool)
    requires Test(cookie, s).OwnCookie() && s.Alive()
    ensures Keeps(cookie, s, Wake(s, shutdown))
  {
  }

  /** Handling a message takes it out of the queue; the only states a server asks for then carry no cookie. */
  lemma HandledShape(params: Parameters, s: Side)
    requires s.role.Server? && s.queue != []
    ensures var r := HandleInternal(params, s);
            && r.role == s.role && r.state == s.state && r.queue == s.queue[1..]
            && (r.pc.Announced? ==> !r.pc.next.CreateStreams?)
  {
  }

  lemma HandleKeeps(params: Parameters, cookie: string, s: Side)
    requires Test(cookie, s).OwnCookie() && s.Alive() && s.queue != []
    ensures Keeps(cookie, s, HandleInternal(params, s))
  {
    HandledShape(params, s);
    assert forall m :: m in s.queue[1..] ==> m in s.queue;
  }

  lemma CloseKeeps(cookie: string, s: Side, e: Closing)
    requires Test(cookie, s).OwnCookie()
    ensures Keeps(cookie, s, Close(s, e))
  {
  }

  lemma MoveKeeps(params: Parameters, cookie: string, s: Side, m: Move)
    requires Test(cookie, s).OwnCookie() && Fair(m)
    ensures Keeps(cookie, s, Moved(params, cookie, s, m))
  {
    if s.Alive() {
      match m
      case Waits(world) => ElapseKeeps(cookie, s, world);
      case Wakes(shutdown) => WakeKeeps(cookie, s, shutdown);
      case Handles => if Ready(s) { HandleKeeps(params, cookie, s); }
      case Settles(written) => SettleKeeps(cookie, s, written);
      case Closes(closing) => CloseKeeps(cookie, s, closing);
      case _ =>
    }
  }

  lemma {:induction false} MovesKeep(params: Parameters, cookie: string, s: Side, moves: seq<Move>)
    requires Test(cookie, s).OwnCookie() && forall m :: m in moves ==> Fair(m)
    ensures Keeps(cookie, s, AllMoved(params, cookie, s, moves))
    decreases |moves|
  {
    if moves != [] {
      var r := Moved(params, cookie, s, moves[0]);
      MoveKeeps(params, cookie, s, moves[0]);
      MovesKeep(params, cookie, r, moves[1..]);
      KeepsTwice(cookie, s, r, AllMoved(params, cookie, s, moves));
    }
  }

  // ---- Whole passes and whole lives ----

  lemma ActKeeps(params: Parameters, cookie: string, s: Side, choice: Choice, written: bool)
    requires Test(cookie, s).OwnCookie() && s.Alive()
    ensures Keeps(cookie, s, Act(params, s, choice, written))
  {
    match choice
    case Internal =>
      if Ready(s) {
        var r := HandleInternal(params, s);
        HandleKeeps(params, cookie, s);
        SettleKeeps(cookie, r, written);
        KeepsTwice(cookie, s, r, Settle(r, written));
      }
    case ShutdownSignal => SettleKeeps(cookie, RequestState(s, Terminate), written);
    case _ =>
  }

  lemma WaitsKeep(params: Parameters, cookie: string, s: Side, t: Turn)
    requires Test(cookie, s).OwnCookie() && s.Alive() && NoStreams(t.world.sent)
    ensures Keeps(cookie, s, EventLoop.Waits(params, s, t))
  {
    var awake := Wake(s, t.shutdown);
    WakeKeeps(cookie, s, t.shutdown);
    if awake.pc.Select? {
      var w := Elapse(awake, t.world);
      ElapseKeeps(cookie, awake, t.world);
      ActKeeps(params, cookie, w, t.choice, t.written);
      KeepsTwice(cookie, s, awake, w);
      KeepsTwice(cookie, s, w, Act(params, w, t.choice, t.written));
    }
  }

  lemma PassKeeps(params: Parameters, cookie: string, s: Side, t: Turn)
    requires Test(cookie, s).OwnCookie() && s.pc.Top? && NoStreams(t.world.sent)
    ensures Keeps(cookie, s, Pass(params, cookie, s, t))
  {
    match s.state
    case Start => SettleKeeps(cookie, RequestState(s, CreateStreams(cookie)), t.written);
    case CreateStreams(_) => WaitsKeep(params, cookie, s, t);
    case Running => WaitsKeep(params, cookie, s, t);
    case _ =>
  }

  lemma {:induction false} PassesKeep(params: Parameters, cookie: string, s: Side, turns: seq<Turn>)
    requires Test(cookie, s).OwnCookie() && forall t :: t in turns ==> NoStreams(t.world.sent)
    ensures Keeps(cookie, s, Passes(params, cookie, s, turns))
    decreases |turns|
  {
    if turns != [] && s.pc.Top? {
      var r := Pass(params, cookie, s, turns[0]);
      PassKeeps(params, cookie, s, turns[0]);
      PassesKeep(params, cookie, r, turns[1..]);
      KeepsTwice(cookie, s, r, Passes(params, cookie, s, turns));
    }
  }

  /** The whole life of a server's controller is one the accept loop can count on. */
  lemma LifeKeeps(params: Parameters, cookie: string, s: Side, turns: seq<Turn>, e: Closing)
    requires Test(cookie, s).OwnCookie() && forall t :: t in turns ==> NoStreams(t.world.sent)
    ensures Keeps(cookie, s, Close(Passes(params, cookie, s, turns), e))
  {
    var r := Passes(params, cookie, s, turns);
    PassesKeep(params, cookie, s, turns);
    CloseKeeps(cookie, r, e);
    KeepsTwice(cookie, s, r, Close(r, e));
  }

  // ---- The accept loop with its controllers ----

  /** `y` is what a controller has made of `x`, stopped at any point. */
  ghost predicate Lives(x: Test, y: Test) {
    exists params, moves ::
      && (forall m :: m in moves ==> Fair(m))
      && y == Test(x.cookie, AllMoved(params, x.cookie, x.side, moves))
  }

  ghost predicate AllLive(x: seq<Test>, y: seq<Test>) {
    |x| == |y| && forall i :: 0 <= i < |x| ==> Lives(x[i], y[i])
  }

  /** The controllers run on; the one whose state the accept loop has locked does not assign it meanwhile. */
  ghost predicate DrivenEvent(a: Loop, e: Inbound) {
    && AllLive(a.tests, e.before) && AllLive(e.before, e.during)
    && var k := Upgrade(e.before, a.inFlight);
       k.Some? && e.before[k.value].side.state.CreateStreams? ==>
         e.during[k.value].side.state == e.before[k.value].side.state
  }

  ghost predicate DrivenEvents(a: Loop, events: seq<Inbound>)
    decreases |events|
  {
    events == [] || (DrivenEvent(a, events[0]) && DrivenEvents(Serve(a, events[0]), events[1..]))
  }

  lemma AllLiveEvolve(x: seq<Test>, y: seq<Test>)
    requires AllLive(x, y) && forall i :: 0 <= i < |x| ==> x[i].OwnCookie()
    ensures AllEvolve(x, y) && forall i :: 0 <= i < |y| ==> y[i].OwnCookie()
  {
    forall i | 0 <= i < |x| ensures Evolves(x[i], y[i]) {
      assert Lives(x[i], y[i]);
      var params, moves :| (forall m :: m in moves ==> Fair(m))
                           && y[i] == Test(x[i].cookie, AllMoved(params, x[i].cookie, x[i].side, moves));
      MovesKeep(params, x[i].cookie, x[i].side, moves);
    }
  }

  lemma DrivenIsValid(a: Loop, e: Inbound)
    requires OneTest(a) && DrivenEvent(a, e)
    ensures ValidEvent(a, e)
  {
    AllLiveEvolve(a.tests, e.before);
    AllLiveEvolve(e.before, e.during);
  }

  lemma {:induction false} DrivenRunIsValid(a: Loop, events: seq<Inbound>)
    requires OneTest(a) && DrivenEvents(a, events)
    ensures ValidEvents(a, events)
    decreases |events|
  {
    if events != [] {
      DrivenIsValid(a, events[0]);
      ServeKeepsOneTest(a, events[0]);
      DrivenRunIsValid(Serve(a, events[0]), events[1..]);
    }
  }

  /**
   * The accept loop together with the controllers it dispatches, over any connections: at most one
   * test is alive, the loop's reference and channel are that test's, and every stream in a queue was
   * admitted under its test's cookie. Nothing is assumed of a controller but its own code.
   */
  lemma OneTestWithControllers(events: seq<Inbound>)
    requires DrivenEvents(IDLE, events)
    ensures var a := ServeAll(IDLE, events);
            && (forall i, j :: 0 <= i < j < |a.tests| ==> !(a.tests[i].Alive() && a.tests[j].Alive()))
            && (forall i :: 0 <= i < |a.tests| && a.tests[i].Alive() ==> a.inFlight == a.channel == Some(i))
            && (forall k, conn :: 0 <= k < |a.tests| && CreateStream(conn) in a.tests[k].side.queue ==>
                  AdmittedFor(a, conn, k))
  {
    DrivenRunIsValid(IDLE, events);
    SingleTestInFlight(events);
  }
}
