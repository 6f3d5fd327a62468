/**
 * Every run of the joint protocol, seen by one worker: whatever the other parties do in between, what
 * becomes of the worker is what its measuring loop makes of its own share of the run.
 */
module WorkerRuns {
  import opened Messages
  import opened Control
  import opened Protocol
  import W = Worker

  predicate Ticking(step: Step, role: Role, id: nat) {
    step.Measure? && step.role == role && step.id == id
  }

  /** The share of a run that stream `id` of a side has in it: one tick for every run of its loop body. */
  function Ticks(role: Role, id: nat, steps: seq<Step>): seq<W.Tick> {
    if steps == [] then []
    else if Ticking(steps[0], role, id) then [steps[0].tick] + Ticks(role, id, steps[1..])
    else Ticks(role, id, steps[1..])
  }

  /** What happens after the last run of the loop body. */
  function LastEnding(role: Role, id: nat, steps: seq<Step>, e: W.Ending): W.Ending {
    if steps == [] then e
    else if Ticking(steps[0], role, id) then LastEnding(role, id, steps[1..], steps[0].ending)
    else LastEnding(role, id, steps[1..], e)
  }

  predicate Touches(step: Step, role: Role, id: nat) {
    step.ByWorker() && step.role == role && step.id == id
  }

  /** A stream stays where it is, with its direction; its task changes only at its own steps. */
  predicate SameStream(s: Side, r: Side, id: nat) {
    id < |s.streams| <= |r.streams| && r.streams[id] == s.streams[id]
  }

  lemma AcceptLoopLeavesStream(c: Config, n: Net, role: Role, id: nat, step: Step)
    requires Enabled(c, n, step) && id < |SideOf(n, role).streams| && step.ByAcceptLoop()
    ensures SameStream(SideOf(n, role), SideOf(Apply(c, n, step), role), id)
  {
  }

  lemma WorkerLeavesStream(c: Config, n: Net, role: Role, id: nat, step: Step)
    requires Enabled(c, n, step) && id < |SideOf(n, role).streams| && step.ByWorker() && !Touches(step, role, id)
    ensures SameStream(SideOf(n, role), SideOf(Apply(c, n, step), role), id)
  {
  }

  lemma ControllerLeavesStream(c: Config, n: Net, role: Role, id: nat, step: Step)
    requires Enabled(c, n, step) && id < |SideOf(n, role).streams| && step.ByController()
    ensures SameStream(SideOf(n, role), SideOf(Apply(c, n, step), role), id)
  {
  }

  lemma OthersLeaveStream(c: Config, n: Net, role: Role, id: nat, step: Step)
    requires Enabled(c, n, step) && id < |SideOf(n, role).streams| && !Touches(step, role, id)
    ensures SameStream(SideOf(n, role), SideOf(Apply(c, n, step), role), id)
  {
    if step.ByWorker() {
      WorkerLeavesStream(c, n, role, id, step);
    } else if step.ByAcceptLoop() {
      AcceptLoopLeavesStream(c, n, role, id, step);
    } else {
      ControllerLeavesStream(c, n, role, id, step);
    }
  }

  /** A worker that is over stays as it is, and measures nothing more. */
  lemma {:induction false} OverStays(c: Config, n: Net, role: Role, id: nat, steps: seq<Step>, e: W.Ending)
    requires CanRun(c, n, steps) && id < |SideOf(n, role).streams| && SideOf(n, role).streams[id].task.Over()
    ensures SameStream(SideOf(n, role), SideOf(After(c, n, steps), role), id)
    ensures Ticks(role, id, steps) == [] && LastEnding(role, id, steps, e) == e
    decreases |steps|
  {
    if steps != [] {
      assert !Touches(steps[0], role, id);
      OthersLeaveStream(c, n, role, id, steps[0]);
      OverStays(c, Apply(c, n, steps[0]), role, id, steps[1..], e);
    }
  }

  /** The worker's share of a run, from where it stands, and what the run has made of its task, agree. */
  predicate Agrees(run: W.Run, task: Task) {
    match run.outcome
    case StillRunning => task.Loading? && task.meter.reports == run.reports
    case Finished(summary) => task == Returned(summary)
    case Failed(_) => task.Failed?
  }

  lemma OneTick(c: Config, n: Net, role: Role, id: nat, t: W.Tick, e: W.Ending)
    requires CanMeasure(c, n, role, id, t)
    ensures var s, r := SideOf(n, role), SideOf(ApplyMeasure(c, n, role, id, t, e), role);
            && id < |r.streams| == |s.streams| && EndpointOf(c, r, id) == EndpointOf(c, s, id)
            && var v, task := W.Iterate(EndpointOf(c, s, id), s.streams[id].task.meter, t), r.streams[id].task;
               && (v.Continue? ==> task.Loading? && task.meter == v.meter)
               && (v.Leave? ==> Agrees(W.Conclude(EndpointOf(c, s, id), v.meter, v.reason, e), task) && task.Over())
               && (v.Abandon? ==> task.Failed?)
  {
  }

  lemma PlayTick(ep: W.Endpoint, m: W.Meter, t: W.Tick, rest: seq<W.Tick>, e: W.Ending)
    ensures var run, v := W.Play(ep, m, [t] + rest, e), W.Iterate(ep, m, t);
            && (v.Continue? ==> run == W.Later(W.Play(ep, v.meter, rest, e), 1))
            && (v.Leave? ==> run == W.Conclude(ep, v.meter, v.reason, e))
            && (v.Abandon? ==> run.outcome == W.Failed(v.error))
  {
    assert ([t] + rest)[1..] == rest;
  }

  /**
   * Any run of the protocol in which a working worker is not killed from outside leaves it exactly as
   * its measuring loop would on its own ticks alone: still at work with the same reports sent, back
   * with the same summary, or failed.
   */
  lemma {:induction false} WorkerPlays(c: Config, n: Net, role: Role, id: nat, steps: seq<Step>, e: W.Ending)
    requires CanRun(c, n, steps) && WorkerDies(role, id) !in steps
    requires id < |SideOf(n, role).streams| && SideOf(n, role).streams[id].task.Loading?
    ensures var s, r := SideOf(n, role), SideOf(After(c, n, steps), role);
            && id < |r.streams|
            && Agrees(W.Play(EndpointOf(c, s, id), s.streams[id].task.meter, Ticks(role, id, steps),
                             LastEnding(role, id, steps, e)), r.streams[id].task)
    decreases |steps|, 1
  {
    if steps != [] {
      var step, m := steps[0], Apply(c, n, steps[0]);
      assert forall x :: x in steps[1..] ==> x in steps;
      if Touches(step, role, id) {
        WorkerTicks(c, n, role, id, steps);
      } else {
        OthersLeaveStream(c, n, role, id, step);
        WorkerPlays(c, m, role, id, steps[1..], e);
      }
    }
  }

  /** The worker's own step comes first. */
  lemma {:induction false} WorkerTicks(c: Config, n: Net, role: Role, id: nat, steps: seq<Step>)
    requires CanRun(c, n, steps) && WorkerDies(role, id) !in steps && steps != [] && Touches(steps[0], role, id)
    requires id < |SideOf(n, role).streams| && SideOf(n, role).streams[id].task.Loading?
    ensures var s, r := SideOf(n, role), SideOf(After(c, n, steps), role);
            && id < |r.streams|
            && Agrees(W.Play(EndpointOf(c, s, id), s.streams[id].task.meter, Ticks(role, id, steps),
                             LastEnding(role, id, steps, steps[0].ending)), r.streams[id].task)
    decreases |steps|, 0
  {
    assert steps[0] in steps && forall x :: x in steps[1..] ==> x in steps;
    assert steps[0].Measure?;
    var s, t, e := SideOf(n, role), steps[0].tick, steps[0].ending;
    var m, rest := Apply(c, n, steps[0]), steps[1..];
    OneTick(c, n, role, id, t, e);
    PlayTick(EndpointOf(c, s, id), s.streams[id].task.meter, t, Ticks(role, id, rest), LastEnding(role, id, rest, e));
    if SideOf(m, role).streams[id].task.Loading? {
      WorkerPlays(c, m, role, id, rest, e);
    } else {
      OverStays(c, m, role, id, rest, e);
    }
  }
}
