/**
 * One data stream's measuring loop. Everything the environment decides (clock, bytes moved,
 * signals, whether a report was accepted) is input; times are nanoseconds of a clock that only
 * moves forward because every input is a delay.
 */
module Worker {
  import opened Messages

  /** Nanoseconds a read or write may take before the loop gives it up: 100 milliseconds. */
  const IO_TIMEOUT: nat := 100_000_000

  function Seconds(n: nat): nat { n * 1_000_000_000 }

  function Millis(n: nat): nat { n * 1_000_000 }

  /** A duration in whole milliseconds, the rest dropped. */
  function AsMillis(d: nat): nat { d / 1_000_000 }

  datatype Signal = Quiet | Got(message: WorkerMessage) | ReceiveFailed

  datatype Io = Moved(count: nat) | TimedOut | Broken

  datatype TcpSample = TcpSample(retransmits: Option<nat>, cwnd: Option<nat>)

  /** What happens during one run of the loop body. */
  datatype Tick = Tick(wait: nat, signal: Signal, io: Io, took: nat, tcp: TcpSample, accepted: bool)

  /** What happens after the loop: the last report, then the summary. */
  datatype Ending = Ending(wait: nat, tcp: TcpSample, accepted: bool, took: nat, lastTcp: TcpSample)

  datatype Endpoint = Endpoint(id: nat, isSending: bool, params: Parameters)

  datatype Meter = Meter(
    startTime: nat,
    firstInterval: nat, // history: where the first interval started
    intervalStart: nat,
    clock: nat,
    index: nat,
    bytes: nat,
    total: nat,
    reports: seq<StreamStats>)

  datatype Reason = TimeIsUp | BytesAreUp | ToldToStop | ConnectionClosed

  datatype WorkerError = WorkerTerminated | ReceiveError | StreamIoError | StatsClosed

  /** What one run of the loop body leads to. */
  datatype BodyResult = Continue(meter: Meter) | Leave(meter: Meter, reason: Reason) | Abandon(error: WorkerError)

  datatype Outcome = Finished(summary: StreamStats) | Failed(error: WorkerError) | StillRunning

  function NewMeter(startTime: nat, gap: nat): Meter {
    Meter(startTime, startTime + gap, startTime + gap, startTime + gap, 0, 0, 0, [])
  }

  /** The network moves at most a block per call, and a call that times out took the whole timeout. */
  predicate ValidTick(params: Parameters, t: Tick) {
    && (t.io.Moved? ==> t.io.count <= params.blockSize)
    && (t.io.TimedOut? ==> t.took >= IO_TIMEOUT)
  }

  predicate ValidScript(params: Parameters, script: seq<Tick>) {
    forall t :: t in script ==> ValidTick(params, t)
  }

  function IntervalStats(s: Endpoint, index: nat, duration: nat, bytes: nat, tcp: TcpSample): StreamStats {
    StreamStats(s.id, Some(index), AsMillis(duration), bytes, tcp.retransmits, tcp.cwnd, s.isSending, false, false)
  }

  /** Whether the loop body gets as far as the socket. */
  predicate ReachesIo(s: Endpoint, m: Meter, t: Tick) {
    && m.clock + t.wait <= m.startTime + Seconds(s.params.duration)
    && (s.params.maxLength.Some? ==> m.total <= s.params.maxLength.value)
    && !t.signal.ReceiveFailed? && t.signal != Got(StopLoad)
  }

  /** The bytes one run of the loop body moves over the socket. */
  function Transferred(s: Endpoint, m: Meter, t: Tick): nat {
    if ReachesIo(s, m, t) && t.io.Moved? then t.io.count else 0
  }

  /** The meter after a read or write that did not end the loop. */
  function Tallied(m: Meter, t: Tick): Meter {
    var count := if t.io.Moved? then t.io.count else 0;
    m.(clock := m.clock + t.wait + t.took, bytes := m.bytes + count, total := m.total + count)
  }

  /** The meter after an interval report. */
  function Restarted(s: Endpoint, m: Meter, tcp: TcpSample): Meter
    requires m.intervalStart <= m.clock
  {
    var stats := IntervalStats(s, m.index, m.clock - m.intervalStart, m.bytes, tcp);
    m.(intervalStart := m.clock, bytes := 0, index := m.index + 1, reports := m.reports + [stats])
  }

  /** A report is due when a whole interval has passed. */
  predicate ReportDue(s: Endpoint, m: Meter) {
    m.intervalStart <= m.clock && m.clock - m.intervalStart >= Seconds(s.params.interval)
  }

  function AfterIo(s: Endpoint, m: Meter, t: Tick): BodyResult {
    if !ReportDue(s, Tallied(m, t)) then Continue(Tallied(m, t))
    else if !t.accepted then Abandon(StatsClosed)
    else Continue(Restarted(s, Tallied(m, t), t.tcp))
  }

  function Iterate(s: Endpoint, m: Meter, t: Tick): BodyResult {
    var checked := m.(clock := m.clock + t.wait);
    if checked.clock > m.startTime + Seconds(s.params.duration) then Leave(checked, TimeIsUp)
    else if s.params.maxLength.Some? && s.params.maxLength.value < m.total then Leave(checked, BytesAreUp)
    else if t.signal.ReceiveFailed? then Abandon(ReceiveError)
    else if t.signal == Got(StopLoad) then Leave(checked, ToldToStop)
    else if t.io.Broken? then Abandon(StreamIoError)
    else if t.io == Moved(0) then Leave(checked.(clock := checked.clock + t.took), ConnectionClosed)
    else AfterIo(s, m, t)
  }

  /** The last, partial report. */
  function LastReport(s: Endpoint, m: Meter, e: Ending): StreamStats {
    var at := m.clock + e.wait;
    IntervalStats(s, m.index, if at >= m.intervalStart then at - m.intervalStart else 0, m.bytes, e.tcp)
  }

  function Summary(s: Endpoint, m: Meter, e: Ending): StreamStats {
    var at := m.clock + e.wait + e.took;
    StreamStats(s.id, None, AsMillis(if at >= m.startTime then at - m.startTime else 0), m.total,
                e.lastTcp.retransmits, e.lastTcp.cwnd, s.isSending, false, true)
  }

  /**
   * A whole run: how it ended, the reports it sent, how often the loop body ran, why the loop was
   * left, and the instant up to which the run was measured.
   */
  datatype Run = Run(outcome: Outcome, reports: seq<StreamStats>, bodies: nat, reason: Option<Reason>, until: nat)

  function Conclude(s: Endpoint, m: Meter, reason: Reason, e: Ending): Run {
    var at := m.clock + e.wait;
    if e.accepted then Run(Finished(Summary(s, m, e)), m.reports + [LastReport(s, m, e)], 1, Some(reason), at)
    else Run(Failed(StatsClosed), m.reports, 1, Some(reason), at)
  }

  /** A run after `count` more runs of the loop body. */
  function Later(run: Run, count: nat): Run {
    run.(bodies := run.bodies + count)
  }

  function Play(s: Endpoint, m: Meter, script: seq<Tick>, e: Ending): Run
    decreases |script|
  {
    if script == [] then Run(StillRunning, m.reports, 0, None, m.clock) else
    match Iterate(s, m, script[0])
    case Continue(next) => Later(Play(s, next, script[1..], e), 1)
    case Leave(left, reason) => Conclude(s, left, reason, e)
    case Abandon(error) => Run(Failed(error), m.reports, 1, None, m.clock)
  }

  /** The worker waits for its first message before it measures anything. */
  function PlayAll(s: Endpoint, first: Signal, startTime: nat, gap: nat, script: seq<Tick>, e: Ending): Run {
    if first.Quiet? then Run(StillRunning, [], 0, None, startTime)
    else if first.ReceiveFailed? then Run(Failed(ReceiveError), [], 0, None, startTime)
    else if first.message != StartLoad then Run(Failed(WorkerTerminated), [], 0, None, startTime)
    else Play(s, NewMeter(startTime, gap), script, e)
  }

  /** After `k` runs of the loop body, what is left to play from `m` still leads to `goal`. */
  predicate LeadsTo(s: Endpoint, goal: Run, m: Meter, script: seq<Tick>, k: nat, e: Ending) {
    k <= |script| && goal == Later(Play(s, m, script[k..], e), k)
  }

  lemma PlayStep(s: Endpoint, goal: Run, m: Meter, script: seq<Tick>, k: nat, e: Ending)
    requires k < |script| && LeadsTo(s, goal, m, script, k, e)
    ensures match Iterate(s, m, script[k])
            case Continue(next) => LeadsTo(s, goal, next, script, k + 1, e)
            case Leave(left, reason) => goal == Later(Conclude(s, left, reason, e), k)
            case Abandon(error) => goal == Run(Failed(error), m.reports, k + 1, None, m.clock)
  {
    assert script[k..][0] == script[k] && script[k..][1..] == script[k + 1..];
  }

  lemma PlayEnds(s: Endpoint, goal: Run, m: Meter, script: seq<Tick>, e: Ending)
    requires LeadsTo(s, goal, m, script, |script|, e)
    ensures goal == Run(StillRunning, m.reports, |script|, None, m.clock)
  {
  }

  class StreamWorker {
    const id: nat
    const isSending: bool
    const params: Parameters
    var sent: seq<StreamStats> // reports handed to the stats channel

    function Self(): Endpoint {
      Endpoint(id, isSending, params)
    }

    constructor (id: nat, isSending: bool, params: Parameters)
      ensures Self() == Endpoint(id, isSending, params) && sent == []
    {
      this.id, this.isSending, this.params, sent := id, isSending, params, [];
    }

    function CurrentStats(index: nat, duration: nat, bytes: nat, tcp: TcpSample): StreamStats {
      StreamStats(id, Some(index), AsMillis(duration), bytes, tcp.retransmits, tcp.cwnd, isSending, false, false)
    }

    method Send(stats: StreamStats, accepted: bool) returns (ok: bool)
      modifies this`sent
      ensures ok == accepted && sent == if ok then old(sent) + [stats] else old(sent)
    {
      if accepted {
        sent := sent + [stats];
      }
      ok := accepted;
    }

    /** The loop's variables as the meter of the specification; the reports are those sent so far. */
    ghost function MeterOf(startTime: nat, firstInterval: nat, intervalStart: nat, clock: nat, index: nat, bytes: nat,
                           total: nat): Meter
      reads this`sent
    {
      Meter(startTime, firstInterval, intervalStart, clock, index, bytes, total, sent)
    }

    /**
     * One run of the loop body. `left` is the reason for leaving the loop, if it was left; `error` is
     * the failure of the worker, if it failed.
     */
    method LoopBody(startTime: nat, intervalStart: nat, clock: nat, reportIndex: nat, bytes: nat, total: nat,
                    t: Tick, ghost m: Meter)
      returns (currentIntervalStart: nat, now: nat, index: nat, bytesTransferred: nat, totalBytesTransferred: nat,
               left: Option<Reason>, error: Option<WorkerError>)
      requires startTime <= intervalStart <= clock
      requires m == MeterOf(startTime, m.firstInterval, intervalStart, clock, reportIndex, bytes, total)
      modifies this`sent
      ensures left.None? || error.None?
      ensures Iterate(Self(), m, t) == Verdict(m, currentIntervalStart, now, index, bytesTransferred,
                                               totalBytesTransferred, left, error)
      ensures error.None? ==> startTime <= currentIntervalStart <= now
      ensures error.Some? || left.Some? ==> sent == old(sent)
    {
      currentIntervalStart, now, index := intervalStart, clock + t.wait, reportIndex;
      bytesTransferred, totalBytesTransferred, left, error := bytes, total, None, None;
      if now - startTime > Seconds(params.duration) {
        left := Some(TimeIsUp);
        return;
      }
      if params.maxLength.Some? && params.maxLength.value < totalBytesTransferred {
        left := Some(BytesAreUp);
        return;
      }
      if t.signal.ReceiveFailed? {
        error := Some(ReceiveError);
        return;
      }
      if t.signal == Got(StopLoad) {
        left := Some(ToldToStop);
        return;
      }
      if t.io.Broken? {
        error := Some(StreamIoError);
        return;
      }
      now := now + t.took;
      if t.io.Moved? {
        if t.io.count > 0 {
          bytesTransferred := bytesTransferred + t.io.count;
          totalBytesTransferred := totalBytesTransferred + t.io.count;
        } else {
          left := Some(ConnectionClosed);
          return;
        }
      }
      var currentDuration := now - currentIntervalStart;
      if currentDuration >= Seconds(params.interval) {
        var stats := CurrentStats(index, currentDuration, bytesTransferred, t.tcp);
        var ok := Send(stats, t.accepted);
        if !ok {
          error := Some(StatsClosed);
          return;
        }
        currentIntervalStart := now;
        bytesTransferred := 0;
        index := index + 1;
      }
    }

    /** The specification's verdict that the results of one run of the loop body stand for. */
    ghost function Verdict(m: Meter, intervalStart: nat, clock: nat, index: nat, bytes: nat, total: nat,
                           left: Option<Reason>, error: Option<WorkerError>): BodyResult
      reads this`sent
    {
      var after := MeterOf(m.startTime, m.firstInterval, intervalStart, clock, index, bytes, total);
      if error.Some? then Abandon(error.value) else if left.Some? then Leave(after, left.value) else Continue(after)
    }

    /** The last, partial report. */
    method SendCurrentStats(index: nat, duration: nat, bytes: nat, tcp: TcpSample, accepted: bool) returns (ok: bool)
      modifies this`sent
      ensures ok == accepted
      ensures sent == if ok then old(sent) + [IntervalStats(Self(), index, duration, bytes, tcp)] else old(sent)
    {
      var stats := CurrentStats(index, duration, bytes, tcp);
      ok := Send(stats, accepted);
    }

    /** Everything after the loop: the last report, then the summary. */
    method LeaveLoop(startTime: nat, intervalStart: nat, clock: nat, index: nat, bytes: nat, total: nat, e: Ending,
                     ghost m: Meter, ghost reason: Reason)
      returns (outcome: Outcome)
      requires startTime <= intervalStart <= clock
      requires m == MeterOf(startTime, m.firstInterval, intervalStart, clock, index, bytes, total)
      modifies this`sent
      ensures var run := Conclude(Self(), m, reason, e); outcome == run.outcome && sent == run.reports
    {
      var now := clock + e.wait;
      var ok := SendCurrentStats(index, now - intervalStart, bytes, e.tcp, e.accepted);
      if !ok {
        return Failed(StatsClosed);
      }
      now := now + e.took;
      outcome := Finished(StreamStats(id, None, AsMillis(now - startTime), total, e.lastTcp.retransmits, e.lastTcp.cwnd,
                                      isSending, false, true));
    }

    /** The measuring loop, on everything the environment does; `script` may stop before the loop does. */
    method MeasureLoop(startTime: nat, gap: nat, script: seq<Tick>, e: Ending)
        returns (outcome: Outcome, ghost bodies: nat)
      requires sent == []
      modifies this`sent
      ensures var run := Play(Self(), NewMeter(startTime, gap), script, e);
              outcome == run.outcome && sent == run.reports && bodies == run.bodies
    {
      var index, bytesTransferred, totalBytesTransferred := 0, 0, 0;
      var currentIntervalStart := startTime + gap;
      var now := currentIntervalStart;
      ghost var meter := NewMeter(startTime, gap);
      ghost var goal := Play(Self(), meter, script, e);
      bodies := 0;
      var k := 0;
      assert script[0..] == script;
      while true
        invariant 0 <= k <= |script| && bodies == k
        invariant startTime <= currentIntervalStart <= now
        invariant meter == MeterOf(startTime, startTime + gap, currentIntervalStart, now, index, bytesTransferred,
                                   totalBytesTransferred)
        invariant LeadsTo(Self(), goal, meter, script, k, e)
        decreases |script| - k
      {
        if k == |script| {
          PlayEnds(Self(), goal, meter, script, e);
          return StillRunning, bodies;
        }
        PlayStep(Self(), goal, meter, script, k, e);
        var left, error;
        currentIntervalStart, now, index, bytesTransferred, totalBytesTransferred, left, error :=
          LoopBody(startTime, currentIntervalStart, now, index, bytesTransferred, totalBytesTransferred,
                   script[k], meter);
        k, bodies := k + 1, bodies + 1;
        if error.Some? {
          return Failed(error.value), bodies;
        }
        meter := MeterOf(startTime, startTime + gap, currentIntervalStart, now, index, bytesTransferred,
                         totalBytesTransferred);
        if left.Some? {
          outcome := LeaveLoop(startTime, currentIntervalStart, now, index, bytesTransferred, totalBytesTransferred, e,
                               meter, left.value);
          return;
        }
      }
    }

    /** Runs the worker: it measures only once it has been told to start. */
    method RunWorker(first: Signal, startTime: nat, gap: nat, script: seq<Tick>, e: Ending)
      returns (outcome: Outcome, ghost bodies: nat)
      requires sent == []
      modifies this`sent
      ensures var run := PlayAll(Self(), first, startTime, gap, script, e);
              outcome == run.outcome && sent == run.reports && bodies == run.bodies
    {
      if first.Quiet? {
        return StillRunning, 0;
      }
      if first.ReceiveFailed? {
        return Failed(ReceiveError), 0;
      }
      if first.message != StartLoad {
        return Failed(WorkerTerminated), 0;
      }
      outcome, bodies := MeasureLoop(startTime, gap, script, e);
    }
  }
}
