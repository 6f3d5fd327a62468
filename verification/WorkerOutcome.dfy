/**
 * What comes of a worker, told from its whole script: which turn of the loop is the last, why, what has
 * been reported by then and what is returned. Times and bytes are sums over the script; the loop itself
 * is not mentioned.
 */
module WorkerOutcome {
  import opened Messages
  import opened Worker
  import WorkerLaws

  // ---- Sums over a script ----

  /** How long turns `j` to `k` take together. */
  function Time(script: seq<Tick>, j: nat, k: nat): nat
    requires j <= k <= |script|
    decreases k
  {
    if j == k then 0 else Time(script, j, k - 1) + script[k - 1].wait + script[k - 1].took
  }

  /** How many bytes they move. */
  function Bytes(script: seq<Tick>, j: nat, k: nat): nat
    requires j <= k <= |script|
    decreases k
  {
    if j == k then 0 else Bytes(script, j, k - 1) + (if script[k - 1].io.Moved? then script[k - 1].io.count else 0)
  }

  lemma {:induction false} SumsAdd(script: seq<Tick>, j: nat, k: nat)
    requires j <= k <= |script|
    ensures Time(script, 0, k) == Time(script, 0, j) + Time(script, j, k)
    ensures Bytes(script, 0, k) == Bytes(script, 0, j) + Bytes(script, j, k)
    decreases k
  {
    if j < k {
      SumsAdd(script, j, k - 1);
    }
  }

  // ---- When reports are due ----

  /** Where the interval that turn `k` belongs to began: behind the last turn whose report was due. */
  function Mark(params: Parameters, script: seq<Tick>, k: nat): (r: nat)
    requires k <= |script|
    ensures r <= k
    decreases k, 0
  {
    if k == 0 then 0 else if Due(params, script, k - 1) then k else Mark(params, script, k - 1)
  }

  /** With turn `k`, a whole interval has passed. */
  predicate Due(params: Parameters, script: seq<Tick>, k: nat)
    requires k < |script|
    decreases k, 1
  {
    Time(script, Mark(params, script, k), k + 1) >= Seconds(params.interval)
  }

  /** No report is late: less than an interval has passed since the last. */
  lemma {:induction false} ReportsOnTime(params: Parameters, script: seq<Tick>, k: nat)
    requires k <= |script|
    ensures Mark(params, script, k) < k ==> Time(script, Mark(params, script, k), k) < Seconds(params.interval)
  {
    if k > 0 && !Due(params, script, k - 1) {
      ReportsOnTime(params, script, k - 1);
    }
  }

  /** The reports of the first `k` turns: one for every turn in which an interval is complete. */
  function Reports(s: Endpoint, script: seq<Tick>, k: nat): seq<StreamStats>
    requires k <= |script|
    decreases k
  {
    if k == 0 then []
    else if !Due(s.params, script, k - 1) then Reports(s, script, k - 1)
    else
      var sent, from, tcp := Reports(s, script, k - 1), Mark(s.params, script, k - 1), script[k - 1].tcp;
      sent + [StreamStats(s.id, Some(|sent|), Time(script, from, k) / 1_000_000, Bytes(script, from, k),
                          tcp.retransmits, tcp.cwnd, s.isSending, false, false)]
  }

  // ---- Which turn is the last ----

  /** The clock has passed the duration when turn `k` looks at it; `gap` is what it had passed before the first. */
  predicate TimeOver(params: Parameters, gap: nat, script: seq<Tick>, k: nat)
    requires k < |script|
  {
    gap + Time(script, 0, k) + script[k].wait > Seconds(params.duration)
  }

  predicate BytesOver(params: Parameters, script: seq<Tick>, k: nat)
    requires k < |script|
  {
    params.maxLength.Some? && Bytes(script, 0, k) > params.maxLength.value
  }

  /** A signal that does not change what a worker does that has started. */
  predicate Unheeded(signal: Signal) { signal.Quiet? || signal == Got(StartLoad) }

  /** Nothing in turn `k` ends the loop. */
  predicate GoesOn(params: Parameters, gap: nat, script: seq<Tick>, k: nat)
    requires k < |script|
  {
    && !TimeOver(params, gap, script, k) && !BytesOver(params, script, k)
    && Unheeded(script[k].signal)
    && (script[k].io.TimedOut? || (script[k].io.Moved? && script[k].io.count > 0))
    && (Due(params, script, k) ==> script[k].accepted)
  }

  /** The first turn that ends the loop, or the end of the script. */
  function Last(params: Parameters, gap: nat, script: seq<Tick>, from: nat): (k: nat)
    requires from <= |script|
    ensures from <= k <= |script| && (k < |script| ==> !GoesOn(params, gap, script, k))
    ensures forall i :: from <= i < k ==> GoesOn(params, gap, script, i)
    decreases |script| - from
  {
    if from == |script| || !GoesOn(params, gap, script, from) then from else Last(params, gap, script, from + 1)
  }

  /** The loop's checks of clock and bytes in turn `k` let it through to its signals. */
  predicate Checked(params: Parameters, gap: nat, script: seq<Tick>, k: nat)
    requires k < |script|
  {
    !TimeOver(params, gap, script, k) && !BytesOver(params, script, k)
  }

  /** Turn `k` fails the worker: a failed receive, a broken stream, or an interval report that nobody takes. */
  predicate Fails(params: Parameters, gap: nat, script: seq<Tick>, k: nat)
    requires k < |script|
  {
    && Checked(params, gap, script, k) && script[k].signal != Got(StopLoad)
    && (script[k].signal.ReceiveFailed? || script[k].io.Broken?
        || (script[k].io != Moved(0) && Due(params, script, k) && !script[k].accepted))
  }

  /** How much of turn `k`, the last, has passed when the loop is left. */
  function Rest(t: Tick, reason: Reason): nat {
    t.wait + if reason.ConnectionClosed? then t.took else 0
  }

  /** What a worker returns that has left its loop in turn `k`. */
  function Returns(s: Endpoint, gap: nat, script: seq<Tick>, k: nat, reason: Reason, e: Worker.Ending): StreamStats
    requires k < |script|
  {
    StreamStats(s.id, None, (gap + Time(script, 0, k) + Rest(script[k], reason) + e.wait + e.took) / 1_000_000,
                Bytes(script, 0, k), e.lastTcp.retransmits, e.lastTcp.cwnd, s.isSending, false, true)
  }

  /** Its last report, on the interval that was not complete. */
  function LastOne(s: Endpoint, script: seq<Tick>, k: nat, reason: Reason, e: Worker.Ending): StreamStats
    requires k < |script|
  {
    var from := Mark(s.params, script, k);
    var span := Time(script, from, k) + Rest(script[k], reason) + e.wait;
    StreamStats(s.id, Some(|Reports(s, script, k)|), span / 1_000_000, Bytes(script, from, k),
                e.tcp.retransmits, e.tcp.cwnd, s.isSending, false, false)
  }

  /** Why the loop is left in turn `k`: clock before bytes, bytes before signals, signals before the stream. */
  predicate Why(params: Parameters, gap: nat, script: seq<Tick>, k: nat, reason: Reason)
    requires k < |script|
  {
    match reason
    case TimeIsUp => TimeOver(params, gap, script, k)
    case BytesAreUp => !TimeOver(params, gap, script, k) && BytesOver(params, script, k)
    case ToldToStop => Checked(params, gap, script, k) && script[k].signal == Got(StopLoad)
    case ConnectionClosed =>
      Checked(params, gap, script, k) && Unheeded(script[k].signal) && script[k].io == Moved(0)
  }

  // ---- The loop does just that ----

  /** The meter after `k` turns. */
  function MeterAt(s: Endpoint, startTime: nat, gap: nat, script: seq<Tick>, k: nat): Meter
    requires k <= |script|
  {
    var from := Mark(s.params, script, k);
    Meter(startTime, startTime + gap, startTime + gap + Time(script, 0, from), startTime + gap + Time(script, 0, k),
          |Reports(s, script, k)|, Bytes(script, from, k), Bytes(script, 0, k), Reports(s, script, k))
  }

  lemma TalliedAt(s: Endpoint, startTime: nat, gap: nat, script: seq<Tick>, k: nat)
    requires k < |script|
    ensures var from, m := Mark(s.params, script, k), Tallied(MeterAt(s, startTime, gap, script, k), script[k]);
            && m == Meter(startTime, startTime + gap, startTime + gap + Time(script, 0, from),
                          startTime + gap + Time(script, 0, k + 1), |Reports(s, script, k)|, Bytes(script, from, k + 1),
                          Bytes(script, 0, k + 1), Reports(s, script, k))
            && m.clock - m.intervalStart == Time(script, from, k + 1)
            && (ReportDue(s, m) <==> Due(s.params, script, k))
  {
    SumsAdd(script, Mark(s.params, script, k), k + 1);
  }

  lemma TurnGoesOn(s: Endpoint, startTime: nat, gap: nat, script: seq<Tick>, k: nat)
    requires k < |script| && GoesOn(s.params, gap, script, k)
    ensures Iterate(s, MeterAt(s, startTime, gap, script, k), script[k])
            == Continue(MeterAt(s, startTime, gap, script, k + 1))
  {
    TalliedAt(s, startTime, gap, script, k);
  }

  lemma TurnFails(s: Endpoint, startTime: nat, gap: nat, script: seq<Tick>, k: nat)
    requires k < |script|
    ensures Iterate(s, MeterAt(s, startTime, gap, script, k), script[k]).Abandon? <==> Fails(s.params, gap, script, k)
    ensures var v, t := Iterate(s, MeterAt(s, startTime, gap, script, k), script[k]), script[k];
            v.Abandon? ==>
              v.error == if t.signal.ReceiveFailed? then ReceiveError
                         else if t.io.Broken? then StreamIoError else StatsClosed
  {
    TalliedAt(s, startTime, gap, script, k);
  }

  lemma TurnLeaves(s: Endpoint, startTime: nat, gap: nat, script: seq<Tick>, k: nat)
    requires k < |script| && !GoesOn(s.params, gap, script, k) && !Fails(s.params, gap, script, k)
    ensures var m := MeterAt(s, startTime, gap, script, k);
            var v := Iterate(s, m, script[k]);
            && v.Leave? && v.meter == m.(clock := m.clock + Rest(script[k], v.reason))
            && Why(s.params, gap, script, k, v.reason)
  {
    var m, t := MeterAt(s, startTime, gap, script, k), script[k];
    assert t.signal.Got? ==> t.signal.message.StartLoad? || t.signal.message.StopLoad?;
    if Checked(s.params, gap, script, k) && Unheeded(t.signal) {
      assert t.io == Moved(0);
      assert Iterate(s, m, t) == Leave(m.(clock := m.clock + t.wait + t.took), ConnectionClosed);
    }
  }

  lemma {:induction false} PlaysOn(s: Endpoint, goal: Run, startTime: nat, gap: nat, script: seq<Tick>,
                                   e: Worker.Ending, j: nat, k: nat)
    requires j <= k <= |script| && forall i :: j <= i < k ==> GoesOn(s.params, gap, script, i)
    requires LeadsTo(s, goal, MeterAt(s, startTime, gap, script, j), script, j, e)
    ensures LeadsTo(s, goal, MeterAt(s, startTime, gap, script, k), script, k, e)
    decreases k - j
  {
    if j < k {
      TurnGoesOn(s, startTime, gap, script, j);
      PlayStep(s, goal, MeterAt(s, startTime, gap, script, j), script, j, e);
      PlaysOn(s, goal, startTime, gap, script, e, j + 1, k);
    }
  }

  /** The run of a worker that was told to start, as far as its last turn. */
  lemma RunUpTo(s: Endpoint, startTime: nat, gap: nat, script: seq<Tick>, e: Worker.Ending)
    ensures var k := Last(s.params, gap, script, 0);
            LeadsTo(s, PlayAll(s, Got(StartLoad), startTime, gap, script, e), MeterAt(s, startTime, gap, script, k),
                    script, k, e)
  {
    var k, goal := Last(s.params, gap, script, 0), PlayAll(s, Got(StartLoad), startTime, gap, script, e);
    assert script[0..] == script && MeterAt(s, startTime, gap, script, 0) == NewMeter(startTime, gap);
    PlaysOn(s, goal, startTime, gap, script, e, 0, k);
  }

  /** A worker whose script ends before its loop does is still at work. */
  lemma StillAtWork(s: Endpoint, startTime: nat, gap: nat, script: seq<Tick>, e: Worker.Ending)
    requires Last(s.params, gap, script, 0) == |script|
    ensures var run := PlayAll(s, Got(StartLoad), startTime, gap, script, e);
            run.outcome.StillRunning? && run.bodies == |script| && run.reports == Reports(s, script, |script|)
  {
    RunUpTo(s, startTime, gap, script, e);
    PlayEnds(s, PlayAll(s, Got(StartLoad), startTime, gap, script, e), MeterAt(s, startTime, gap, script, |script|),
             script, e);
  }

  /** What follows the loop, if it is left in turn `k`. */
  lemma ConcludesAt(s: Endpoint, startTime: nat, gap: nat, script: seq<Tick>, e: Worker.Ending, k: nat, reason: Reason)
    requires k < |script|
    ensures var m, rest := MeterAt(s, startTime, gap, script, k), Rest(script[k], reason);
            var until := startTime + gap + Time(script, 0, k) + rest + e.wait;
            Conclude(s, m.(clock := m.clock + rest), reason, e)
            == if !e.accepted then Run(Failed(StatsClosed), Reports(s, script, k), 1, Some(reason), until)
               else Run(Finished(Returns(s, gap, script, k, reason, e)),
                        Reports(s, script, k) + [LastOne(s, script, k, reason, e)], 1, Some(reason), until)
  {
    SumsAdd(script, Mark(s.params, script, k), k);
  }

  /** What the last turn comes to, if it fails the worker. */
  lemma FailsInTurn(s: Endpoint, goal: Run, startTime: nat, gap: nat, script: seq<Tick>, e: Worker.Ending, k: nat)
    requires k < |script| && Fails(s.params, gap, script, k)
    requires LeadsTo(s, goal, MeterAt(s, startTime, gap, script, k), script, k, e)
    ensures goal.bodies == k + 1 && goal.reason.None? && goal.reports == Reports(s, script, k)
    ensures goal.outcome == Failed(if script[k].signal.ReceiveFailed? then ReceiveError
                                   else if script[k].io.Broken? then StreamIoError else StatsClosed)
  {
    TurnFails(s, startTime, gap, script, k);
    PlayStep(s, goal, MeterAt(s, startTime, gap, script, k), script, k, e);
  }

  /** What the last turn comes to, if the loop is left in it. */
  lemma LeavesInTurn(s: Endpoint, goal: Run, startTime: nat, gap: nat, script: seq<Tick>, e: Worker.Ending, k: nat)
    requires k < |script| && !GoesOn(s.params, gap, script, k) && !Fails(s.params, gap, script, k)
    requires LeadsTo(s, goal, MeterAt(s, startTime, gap, script, k), script, k, e)
    ensures goal.bodies == k + 1 && goal.reason.Some? && Why(s.params, gap, script, k, goal.reason.value)
    ensures goal.until == startTime + gap + Time(script, 0, k) + Rest(script[k], goal.reason.value) + e.wait
    ensures if !e.accepted then goal.outcome == Failed(StatsClosed) && goal.reports == Reports(s, script, k)
            else goal.outcome == Finished(Returns(s, gap, script, k, goal.reason.value, e))
                 && goal.reports == Reports(s, script, k) + [LastOne(s, script, k, goal.reason.value, e)]
  {
    var m := MeterAt(s, startTime, gap, script, k);
    TurnLeaves(s, startTime, gap, script, k);
    PlayStep(s, goal, m, script, k, e);
    ConcludesAt(s, startTime, gap, script, e, k, Iterate(s, m, script[k]).reason);
  }

  /** Everything about the run of a worker that was told to start. */
  predicate EndsWell(s: Endpoint, run: Run, startTime: nat, gap: nat, script: seq<Tick>, e: Worker.Ending, k: nat)
    requires k <= |script|
  {
    if k == |script| then run.outcome.StillRunning? && run.bodies == k && run.reports == Reports(s, script, k)
    else
      && run.bodies == k + 1
      && if Fails(s.params, gap, script, k) then
           && run.reason.None? && run.reports == Reports(s, script, k)
           && run.outcome == Failed(if script[k].signal.ReceiveFailed? then ReceiveError
                                    else if script[k].io.Broken? then StreamIoError else StatsClosed)
         else
           && run.reason.Some? && Why(s.params, gap, script, k, run.reason.value)
           && run.until == startTime + gap + Time(script, 0, k) + Rest(script[k], run.reason.value) + e.wait
           && if !e.accepted then run.outcome == Failed(StatsClosed) && run.reports == Reports(s, script, k)
              else run.outcome == Finished(Returns(s, gap, script, k, run.reason.value, e))
                   && run.reports == Reports(s, script, k) + [LastOne(s, script, k, run.reason.value, e)]
  }

  lemma LastTurn(s: Endpoint, startTime: nat, gap: nat, script: seq<Tick>, e: Worker.Ending)
    ensures EndsWell(s, PlayAll(s, Got(StartLoad), startTime, gap, script, e), startTime, gap, script, e,
                     Last(s.params, gap, script, 0))
  {
    var k, goal := Last(s.params, gap, script, 0), PlayAll(s, Got(StartLoad), startTime, gap, script, e);
    RunUpTo(s, startTime, gap, script, e);
    if k == |script| {
      StillAtWork(s, startTime, gap, script, e);
    } else if Fails(s.params, gap, script, k) {
      FailsInTurn(s, goal, startTime, gap, script, e, k);
    } else {
      LeavesInTurn(s, goal, startTime, gap, script, e, k);
    }
  }

  /**
   * A worker that was told to start fails if and only if the first turn that ends its loop is a failed
   * receive, a broken stream or a refused report, or else its last report is refused.
   */
  lemma FailsExactly(s: Endpoint, startTime: nat, gap: nat, script: seq<Tick>, e: Worker.Ending)
    ensures var run, k := PlayAll(s, Got(StartLoad), startTime, gap, script, e), Last(s.params, gap, script, 0);
            && (run.outcome.Failed? <==> k < |script| && (Fails(s.params, gap, script, k) || !e.accepted))
            && (run.outcome.StillRunning? <==> k == |script|)
            && (run.outcome.Failed? ==> run.reports == Reports(s, script, k) && run.bodies == k + 1)
            && (run.outcome.Failed? && Fails(s.params, gap, script, k) ==>
                  run.outcome.error == if script[k].signal.ReceiveFailed? then ReceiveError
                                       else if script[k].io.Broken? then StreamIoError else StatsClosed)
            && (run.outcome.Failed? && !Fails(s.params, gap, script, k) ==> run.outcome.error == StatsClosed)
  {
    LastTurn(s, startTime, gap, script, e);
  }

  /**
   * A worker that was told to start, whose loop is left and whose last report is taken, returns the
   * bytes it has moved by then, over the time that has passed since it started, having reported every
   * interval. The loop is left for the first of the reasons that holds.
   */
  lemma ReturnsExactly(s: Endpoint, startTime: nat, gap: nat, script: seq<Tick>, e: Worker.Ending)
    ensures var run, k := PlayAll(s, Got(StartLoad), startTime, gap, script, e), Last(s.params, gap, script, 0);
            && (run.outcome.Finished? <==> k < |script| && !Fails(s.params, gap, script, k) && e.accepted)
            && (run.outcome.Finished? ==>
                  && run.reason.Some? && Why(s.params, gap, script, k, run.reason.value)
                  && run.outcome.summary == Returns(s, gap, script, k, run.reason.value, e)
                  && run.reports == Reports(s, script, k) + [LastOne(s, script, k, run.reason.value, e)]
                  && run.bodies == k + 1)
  {
    LastTurn(s, startTime, gap, script, e);
  }

  /** A worker that hears StopLoad before its time and its bytes are up stops for it, and returns what it has moved. */
  lemma StopReturns(s: Endpoint, startTime: nat, gap: nat, script: seq<Tick>, e: Worker.Ending)
    requires var k := Last(s.params, gap, script, 0);
             k < |script| && script[k].signal == Got(StopLoad) && Checked(s.params, gap, script, k) && e.accepted
    ensures var run, k := PlayAll(s, Got(StartLoad), startTime, gap, script, e), Last(s.params, gap, script, 0);
            && run.reason == Some(ToldToStop) && run.outcome.Finished?
            && run.outcome.summary.bytesTransferred == Bytes(script, 0, k)
  {
    ReturnsExactly(s, startTime, gap, script, e);
  }

  /** Without a byte limit, and with nothing going wrong and nobody stopping it, a worker works until its time is up. */
  lemma WorksUntilTimeIsUp(s: Endpoint, startTime: nat, gap: nat, script: seq<Tick>, e: Worker.Ending)
    requires s.params.maxLength.None?
    requires forall t :: t in script ==>
               && Unheeded(t.signal) && t.accepted
               && (t.io.TimedOut? || (t.io.Moved? && t.io.count > 0))
    ensures PlayAll(s, Got(StartLoad), startTime, gap, script, e).outcome.StillRunning?
            <==> forall k :: 0 <= k < |script| ==> !TimeOver(s.params, gap, script, k)
  {
    var k := Last(s.params, gap, script, 0);
    FailsExactly(s, startTime, gap, script, e);
    if k < |script| {
      assert script[k] in script;
      assert TimeOver(s.params, gap, script, k);
    } else {
      forall i | 0 <= i < |script| ensures !TimeOver(s.params, gap, script, i) {
        assert GoesOn(s.params, gap, script, i);
      }
    }
  }

  /** What a worker's first message makes of it: only StartLoad lets it work. */
  lemma WorksOnlyWhenStarted(s: Endpoint, first: Signal, startTime: nat, gap: nat, script: seq<Tick>, e: Worker.Ending)
    requires first != Got(StartLoad)
    ensures var run := PlayAll(s, first, startTime, gap, script, e);
            && run.reports == [] && run.bodies == 0
            && run.outcome == match first
                              case Quiet => StillRunning
                              case ReceiveFailed => Failed(ReceiveError)
                              case Got(_) => Failed(WorkerTerminated)
  {
  }

  /** The duration of a summary is the time from the start to the very end, in whole milliseconds. */
  lemma SummarySpan(s: Endpoint, first: Signal, startTime: nat, gap: nat, script: seq<Tick>, e: Worker.Ending)
    ensures var run := PlayAll(s, first, startTime, gap, script, e);
            run.outcome.Finished? ==>
              Millis(run.outcome.summary.duration) <= run.until + e.took - startTime
              < Millis(run.outcome.summary.duration + 1)
  {
    if first == Got(StartLoad) {
      var k := Last(s.params, gap, script, 0);
      LastTurn(s, startTime, gap, script, e);
      var run := PlayAll(s, first, startTime, gap, script, e);
      if run.outcome.Finished? {
        WorkerLaws.DivisionBounds(gap + Time(script, 0, k) + Rest(script[k], run.reason.value) + e.wait + e.took);
      }
    }
  }
}
