/** What every run of a worker's measuring loop keeps, whatever the environment does. */
module WorkerLaws {
  import opened Messages
  import opened Worker

  function SumBytes(reports: seq<StreamStats>): nat {
    if reports == [] then 0 else SumBytes(reports[..|reports| - 1]) + reports[|reports| - 1].bytesTransferred
  }

  function SumDurations(reports: seq<StreamStats>): nat {
    if reports == [] then 0 else SumDurations(reports[..|reports| - 1]) + reports[|reports| - 1].duration
  }

  lemma SumsAppend(reports: seq<StreamStats>, last: StreamStats)
    ensures SumBytes(reports + [last]) == SumBytes(reports) + last.bytesTransferred
    ensures SumDurations(reports + [last]) == SumDurations(reports) + last.duration
  {
    assert (reports + [last])[..|reports|] == reports;
  }

  /** Reports 0, 1, 2, ... of this stream, without gap or repetition. */
  predicate Numbered(s: Endpoint, reports: seq<StreamStats>) {
    forall k :: 0 <= k < |reports| ==>
      && reports[k].index == Some(k) && reports[k].id == s.id && reports[k].isSending == s.isSending
      && !reports[k].isPeer && !reports[k].isSummary
  }

  /**
   * Truncated durations against the exact time they cover: together they lose less than a
   * millisecond a report, and never gain.
   */
  predicate Covers(reports: seq<StreamStats>, span: int) {
    && Millis(SumDurations(reports)) <= span
    && (if reports == [] then span == 0 else span < Millis(SumDurations(reports) + |reports|))
  }

  predicate FullIntervals(params: Parameters, reports: seq<StreamStats>) {
    forall k :: 0 <= k < |reports| ==> reports[k].duration >= params.interval * 1000
  }

  /** Reports in order, each over a full interval, that cover `span` nanoseconds. */
  predicate Ledger(s: Endpoint, reports: seq<StreamStats>, span: int) {
    Numbered(s, reports) && Covers(reports, span) && FullIntervals(s.params, reports)
  }

  /** The loop invariant of the measuring loop. */
  predicate Accounts(s: Endpoint, m: Meter) {
    && m.startTime <= m.firstInterval <= m.intervalStart <= m.clock
    && m.index == |m.reports| && Ledger(s, m.reports, m.intervalStart - m.firstInterval)
    && SumBytes(m.reports) + m.bytes == m.total
    && (s.params.maxLength.Some? ==> m.total <= s.params.maxLength.value + s.params.blockSize)
  }

  lemma NewMeterAccounts(s: Endpoint, startTime: nat, gap: nat)
    ensures Accounts(s, NewMeter(startTime, gap))
  {
  }

  lemma DivisionBounds(a: nat)
    ensures Millis(AsMillis(a)) <= a < Millis(AsMillis(a) + 1)
  {
  }

  lemma CoversAppend(reports: seq<StreamStats>, span: nat, last: StreamStats, length: nat)
    requires Covers(reports, span) && last.duration == AsMillis(length)
    ensures Covers(reports + [last], span + length)
  {
    SumsAppend(reports, last);
    DivisionBounds(length);
  }

  lemma FullInterval(interval: nat, length: nat)
    requires length >= Seconds(interval)
    ensures AsMillis(length) >= interval * 1000
  {
    DivisionBounds(length);
  }

  lemma NumberedAppend(s: Endpoint, reports: seq<StreamStats>, length: nat, bytes: nat, tcp: TcpSample)
    requires Numbered(s, reports)
    ensures Numbered(s, reports + [IntervalStats(s, |reports|, length, bytes, tcp)])
  {
  }

  /** An interval report, added to those before it. */
  lemma ReportKeepsLedger(s: Endpoint, reports: seq<StreamStats>, span: nat, length: nat, bytes: nat, tcp: TcpSample)
    requires Ledger(s, reports, span) && length >= Seconds(s.params.interval)
    ensures var all := reports + [IntervalStats(s, |reports|, length, bytes, tcp)];
            Ledger(s, all, span + length) && SumBytes(all) == SumBytes(reports) + bytes
  {
    var last := IntervalStats(s, |reports|, length, bytes, tcp);
    NumberedAppend(s, reports, length, bytes, tcp);
    CoversAppend(reports, span, last, length);
    SumsAppend(reports, last);
    FullInterval(s.params.interval, length);
  }

  lemma RestartKeepsAccounts(s: Endpoint, m: Meter, tcp: TcpSample)
    requires Accounts(s, m) && ReportDue(s, m)
    ensures Accounts(s, Restarted(s, m, tcp))
  {
    var span, length := m.intervalStart - m.firstInterval, m.clock - m.intervalStart;
    ReportKeepsLedger(s, m.reports, span, length, m.bytes, tcp);
    assert span + length == m.clock - m.firstInterval;
  }

  lemma TallyKeepsAccounts(s: Endpoint, m: Meter, t: Tick)
    requires Accounts(s, m) && ValidTick(s.params, t) && ReachesIo(s, m, t)
    ensures Accounts(s, Tallied(m, t))
  {
  }

  lemma WaitKeepsAccounts(s: Endpoint, m: Meter, clock: nat)
    requires Accounts(s, m) && clock >= m.clock
    ensures Accounts(s, m.(clock := clock))
  {
  }

  lemma AfterIoKeepsAccounts(s: Endpoint, m: Meter, t: Tick)
    requires Accounts(s, m) && ValidTick(s.params, t) && ReachesIo(s, m, t)
    ensures var v := AfterIo(s, m, t);
            v.Continue? ==> Accounts(s, v.meter) && v.meter.startTime == m.startTime
                            && v.meter.firstInterval == m.firstInterval
                            && v.meter.total == m.total + Transferred(s, m, t)
  {
    TallyKeepsAccounts(s, m, t);
    if ReportDue(s, Tallied(m, t)) {
      RestartKeepsAccounts(s, Tallied(m, t), t.tcp);
    }
  }

  lemma IterateKeepsAccounts(s: Endpoint, m: Meter, t: Tick)
    requires Accounts(s, m) && ValidTick(s.params, t)
    ensures var v := Iterate(s, m, t);
            && (!v.Abandon? ==> Accounts(s, v.meter) && v.meter.startTime == m.startTime
                                && v.meter.firstInterval == m.firstInterval
                                && v.meter.total == m.total + Transferred(s, m, t))
            && (v.Leave? && v.reason.BytesAreUp? ==> v.meter.total > s.params.maxLength.value)
  {
    if ReachesIo(s, m, t) {
      AfterIoKeepsAccounts(s, m, t);
    }
    WaitKeepsAccounts(s, m, m.clock + t.wait);
    WaitKeepsAccounts(s, m, m.clock + t.wait + t.took);
  }

  /** What a finished run reports: conservation of bytes, telescoping of time, and the overshoot bound. */
  predicate Balanced(s: Endpoint, firstInterval: nat, run: Run) {
    run.outcome.Finished? ==>
      var summary := run.outcome.summary;
      && summary.id == s.id && summary.isSending == s.isSending && summary.isSummary && !summary.isPeer
      && |run.reports| > 0
      && SumBytes(run.reports) == summary.bytesTransferred
      && Covers(run.reports, run.until - firstInterval)
      && SumDurations(run.reports) <= summary.duration
      && FullIntervals(s.params, run.reports[..|run.reports| - 1])
      && (|run.reports| - 1) * (s.params.interval * 1000) <= summary.duration
      && (s.params.maxLength.Some? ==> summary.bytesTransferred <= s.params.maxLength.value + s.params.blockSize)
      && run.reason.Some?
      && (run.reason.value.BytesAreUp? ==>
            s.params.maxLength.Some? && summary.bytesTransferred > s.params.maxLength.value)
  }

  lemma {:induction false} ManyFullIntervals(params: Parameters, reports: seq<StreamStats>)
    requires FullIntervals(params, reports)
    ensures SumDurations(reports) >= |reports| * (params.interval * 1000)
  {
    if reports != [] {
      var front := reports[..|reports| - 1];
      ManyFullIntervals(params, front);
      assert |reports| * (params.interval * 1000) == |front| * (params.interval * 1000) + params.interval * 1000;
    }
  }

  lemma ConcludeBalances(s: Endpoint, m: Meter, reason: Reason, e: Worker.Ending)
    requires Accounts(s, m)
    requires reason.BytesAreUp? ==> s.params.maxLength.Some? && m.total > s.params.maxLength.value
    ensures var run := Conclude(s, m, reason, e); Balanced(s, m.firstInterval, run) && Numbered(s, run.reports)
  {
    var run := Conclude(s, m, reason, e);
    if e.accepted {
      var last, at := LastReport(s, m, e), m.clock + e.wait;
      CoversAppend(m.reports, m.intervalStart - m.firstInterval, last, at - m.intervalStart);
      SumsAppend(m.reports, last);
      assert run.reports[..|run.reports| - 1] == m.reports;
      ManyFullIntervals(s.params, m.reports);
      DivisionBounds(at + e.took - m.startTime);
      var duration := run.outcome.summary.duration;
      assert Millis(SumDurations(run.reports)) < Millis(duration + 1);
    }
  }

  /** Conservation, numbering, telescoping and overshoot hold of every run, from any point of it. */
  lemma {:induction false} PlayBalances(s: Endpoint, m: Meter, script: seq<Tick>, e: Worker.Ending)
    requires Accounts(s, m) && ValidScript(s.params, script)
    ensures var run := Play(s, m, script, e);
            && Balanced(s, m.firstInterval, run) && Numbered(s, run.reports)
            && (run.outcome.StillRunning? ==> run.bodies == |script|)
    decreases |script|
  {
    if script != [] {
      IterateKeepsAccounts(s, m, script[0]);
      match Iterate(s, m, script[0])
      case Continue(next) => PlayBalances(s, next, script[1..], e);
      case Leave(left, reason) => ConcludeBalances(s, left, reason, e);
      case Abandon(_) =>
    }
  }

  /** The same for a whole worker, from the signal it waits for to its summary. */
  lemma RunBalances(s: Endpoint, first: Signal, startTime: nat, gap: nat, script: seq<Tick>, e: Worker.Ending)
    requires ValidScript(s.params, script)
    ensures var run := PlayAll(s, first, startTime, gap, script, e);
            && Balanced(s, startTime + gap, run) && Numbered(s, run.reports)
            && (run.outcome.Finished? ==> first == Got(StartLoad))
  {
    if first == Got(StartLoad) {
      NewMeterAccounts(s, startTime, gap);
      PlayBalances(s, NewMeter(startTime, gap), script, e);
    }
  }

  // ---- Termination ----

  function Sub(a: int, b: int): nat {
    if a > b then a - b else 0
  }

  /**
   * How much the loop may still do. With a byte limit: bytes still to move plus I/O timeouts still
   * to sit through. Without one, only the clock limits the loop: nanoseconds left.
   */
  function Fuel(s: Endpoint, m: Meter): nat {
    match s.params.maxLength
    case Some(limit) => Sub(limit + 1, m.total) + Sub(10 * s.params.duration + 1, (m.clock - m.startTime) / 100_000_000)
    case None => Sub(Seconds(s.params.duration) + 2, m.clock - m.startTime)
  }

  lemma TimeoutsPassed(from: nat, to: nat, duration: nat)
    requires from <= Seconds(duration)
    ensures from / 100_000_000 <= 10 * duration
    ensures to >= from ==> to / 100_000_000 >= from / 100_000_000
    ensures to >= from + IO_TIMEOUT ==> to / 100_000_000 >= from / 100_000_000 + 1
  {
  }

  /** A run of the loop body that does not leave the loop burns fuel, and there were two units left. */
  lemma IterateBurnsFuel(s: Endpoint, m: Meter, t: Tick)
    requires ValidTick(s.params, t) && m.startTime <= m.clock
    requires s.params.maxLength.Some? || t.wait + t.took > 0
    ensures var v := Iterate(s, m, t);
            v.Continue? ==>
              Fuel(s, v.meter) < Fuel(s, m) && Fuel(s, m) >= 2 && v.meter.startTime == m.startTime <= v.meter.clock
  {
    var elapsed := m.clock - m.startTime;
    var checked := elapsed + t.wait;
    var now := checked + t.took;
    if Iterate(s, m, t).Continue? && s.params.maxLength.Some? {
      TimeoutsPassed(elapsed, checked, s.params.duration);
      TimeoutsPassed(checked, now, s.params.duration);
    }
  }

  /** Every run of the loop body takes some time. */
  predicate TimePasses(script: seq<Tick>) {
    forall t :: t in script ==> t.wait + t.took > 0
  }

  lemma {:induction false} BodiesWithinFuel(s: Endpoint, m: Meter, script: seq<Tick>, e: Worker.Ending)
    requires ValidScript(s.params, script) && m.startTime <= m.clock
    requires s.params.maxLength.Some? || TimePasses(script)
    ensures var run := Play(s, m, script, e);
            && run.bodies <= Fuel(s, m) + Sub(1, Fuel(s, m))
            && (run.outcome.StillRunning? ==> |script| + 1 <= Fuel(s, m) + Sub(1, Fuel(s, m)))
    decreases |script|
  {
    if script != [] {
      IterateBurnsFuel(s, m, script[0]);
      var v := Iterate(s, m, script[0]);
      if v.Continue? {
        BodiesWithinFuel(s, v.meter, script[1..], e);
      }
    }
  }

  /** The most often the loop body can run, the run that leaves the loop included. */
  function BodyLimit(params: Parameters): nat
    requires params.maxLength.Some?
  {
    params.maxLength.value + 10 * params.duration + 2
  }

  /** With a byte limit the loop ends, within a bound fixed by the parameters alone. */
  lemma LoopEnds(s: Endpoint, first: Signal, startTime: nat, gap: nat, script: seq<Tick>, e: Worker.Ending)
    requires ValidScript(s.params, script) && s.params.maxLength.Some? && !first.Quiet?
    ensures var run := PlayAll(s, first, startTime, gap, script, e);
            && run.bodies <= BodyLimit(s.params)
            && (|script| >= BodyLimit(s.params) ==> !run.outcome.StillRunning?)
  {
    if first == Got(StartLoad) {
      BodiesWithinFuel(s, NewMeter(startTime, gap), script, e);
    }
  }

  /**
   * Without a byte limit only the clock ends the loop: as long as every run of the body takes some
   * time, the loop ends once the duration is used up, counted in units of the clock.
   */
  lemma LoopEndsByClock(s: Endpoint, first: Signal, startTime: nat, gap: nat, script: seq<Tick>, e: Worker.Ending)
    requires ValidScript(s.params, script) && s.params.maxLength.None? && TimePasses(script) && !first.Quiet?
    ensures var run, limit := PlayAll(s, first, startTime, gap, script, e), Seconds(s.params.duration) + 2;
            run.bodies <= limit && (|script| >= limit ==> !run.outcome.StillRunning?)
  {
    if first == Got(StartLoad) {
      BodiesWithinFuel(s, NewMeter(startTime, gap), script, e);
    }
  }

  // ---- The bounds are reached ----

  const NO_SAMPLE: TcpSample := TcpSample(None, None)
  const SLOW: Tick := Tick(0, Quiet, TimedOut, IO_TIMEOUT, NO_SAMPLE, true)

  function Fast(count: nat): Tick {
    Tick(0, Quiet, Moved(count), 0, NO_SAMPLE, true)
  }

  function Repeat(t: Tick, n: nat): seq<Tick> {
    if n == 0 then [] else [t] + Repeat(t, n - 1)
  }

  lemma {:induction false} RepeatValid(params: Parameters, t: Tick, n: nat)
    requires ValidTick(params, t)
    ensures ValidScript(params, Repeat(t, n)) && |Repeat(t, n)| == n
  {
    if n > 0 {
      RepeatValid(params, t, n - 1);
    }
  }

  /** One tick that keeps the loop going, at the head of a longer script. */
  lemma PlayHead(s: Endpoint, m: Meter, t: Tick, rest: seq<Tick>, e: Worker.Ending)
    requires Iterate(s, m, t).Continue?
    ensures Play(s, m, [t] + rest, e) == Later(Play(s, Iterate(s, m, t).meter, rest, e), 1)
  {
    assert ([t] + rest)[1..] == rest;
  }

  lemma SlowTick(s: Endpoint, m: Meter) returns (next: Meter)
    requires s.params.maxLength.Some? && m.total <= s.params.maxLength.value
    requires m.startTime <= m.intervalStart <= m.clock && m.clock <= m.startTime + Seconds(s.params.duration)
    ensures Iterate(s, m, SLOW) == Continue(next) && next.total == m.total
    ensures next.startTime == m.startTime <= next.intervalStart <= next.clock == m.clock + IO_TIMEOUT
  {
    next := Iterate(s, m, SLOW).meter;
  }

  lemma {:induction false} PlaySlow(s: Endpoint, m: Meter, n: nat, rest: seq<Tick>, e: Worker.Ending)
    returns (after: Meter)
    requires s.params.maxLength.Some? && m.total <= s.params.maxLength.value
    requires m.startTime <= m.intervalStart <= m.clock
    requires m.clock + n * IO_TIMEOUT <= m.startTime + Seconds(s.params.duration)
    ensures after.startTime == m.startTime <= after.intervalStart <= after.clock == m.clock + n * IO_TIMEOUT
    ensures after.total == m.total
    ensures Play(s, m, Repeat(SLOW, n) + rest, e).bodies == n + Play(s, after, rest, e).bodies
    decreases n
  {
    if n == 0 {
      after := m;
      assert Repeat(SLOW, n) + rest == rest;
    } else {
      var next := SlowTick(s, m);
      assert Repeat(SLOW, n) + rest == [SLOW] + (Repeat(SLOW, n - 1) + rest);
      PlayHead(s, m, SLOW, Repeat(SLOW, n - 1) + rest, e);
      after := PlaySlow(s, next, n - 1, rest, e);
    }
  }

  lemma {:induction false} PlayFast(s: Endpoint, m: Meter, n: nat, rest: seq<Tick>, e: Worker.Ending)
    returns (after: Meter)
    requires s.params.maxLength.Some? && n > 0 ==> m.total + n - 1 <= s.params.maxLength.value
    requires m.startTime <= m.intervalStart <= m.clock <= m.startTime + Seconds(s.params.duration)
    ensures after.startTime == m.startTime && after.clock == m.clock && after.total == m.total + n
    ensures Play(s, m, Repeat(Fast(1), n) + rest, e) == Later(Play(s, after, rest, e), n)
    decreases n
  {
    if n == 0 {
      after := m;
      assert Repeat(Fast(1), n) + rest == rest;
    } else {
      var next := Iterate(s, m, Fast(1)).meter;
      assert Repeat(Fast(1), n) + rest == [Fast(1)] + (Repeat(Fast(1), n - 1) + rest);
      PlayHead(s, m, Fast(1), Repeat(Fast(1), n - 1) + rest, e);
      after := PlayFast(s, next, n - 1, rest, e);
    }
  }

  /** The bound of LoopEnds is exact: for all parameters that can move data, some run meets it. */
  lemma LoopLimitReached(s: Endpoint, e: Worker.Ending) returns (script: seq<Tick>)
    requires s.params.maxLength.Some? && s.params.blockSize > 0
    ensures ValidScript(s.params, script)
    ensures PlayAll(s, Got(StartLoad), 0, 0, script, e).bodies == BodyLimit(s.params)
  {
    var limit, slow := s.params.maxLength.value, 10 * s.params.duration;
    var tail := Repeat(Fast(1), limit + 1) + [Fast(1)];
    script := Repeat(SLOW, slow) + tail;
    RepeatValid(s.params, SLOW, slow);
    RepeatValid(s.params, Fast(1), limit + 1);
    var m := PlaySlow(s, NewMeter(0, 0), slow, tail, e);
    m := PlayFast(s, m, limit + 1, [Fast(1)], e);
    assert Iterate(s, m, Fast(1)) == Leave(m, BytesAreUp);
  }

  /** A whole block when the limit has just been met: the loop goes on, and is left at the next check. */
  lemma FullBlock(s: Endpoint, m: Meter) returns (next: Meter)
    requires s.params.maxLength == Some(m.total) && s.params.blockSize > 0
    requires m.startTime <= m.clock <= m.startTime + Seconds(s.params.duration)
    ensures Iterate(s, m, Fast(s.params.blockSize)) == Continue(next) && next.total == m.total + s.params.blockSize
    ensures Iterate(s, next, Fast(s.params.blockSize)) == Leave(next, BytesAreUp)
  {
    next := Iterate(s, m, Fast(s.params.blockSize)).meter;
  }

  lemma PlayExit(s: Endpoint, m: Meter, t: Tick, e: Worker.Ending)
    requires Iterate(s, m, t) == Leave(m, BytesAreUp) && e.accepted
    ensures var run := Play(s, m, [t], e); run.outcome == Finished(Summary(s, m, e)) && run.reason == Some(BytesAreUp)
  {
  }

  /**
   * The byte limit is not a maximum: the loop is left only once more than `maxLength` bytes have
   * moved, and the call that does it can add a whole block. For all parameters that can move data,
   * some run goes that far.
   */
  lemma OvershootReached(s: Endpoint, e: Worker.Ending) returns (script: seq<Tick>)
    requires s.params.maxLength.Some? && s.params.blockSize > 0 && e.accepted
    ensures ValidScript(s.params, script)
    ensures var run := PlayAll(s, Got(StartLoad), 0, 0, script, e);
            && run.outcome.Finished? && run.reason == Some(BytesAreUp)
            && run.outcome.summary.bytesTransferred == s.params.maxLength.value + s.params.blockSize
  {
    var limit, full := s.params.maxLength.value, Fast(s.params.blockSize);
    script := Repeat(Fast(1), limit) + ([full] + [full]);
    RepeatValid(s.params, Fast(1), limit);
    var m1 := PlayFast(s, NewMeter(0, 0), limit, [full] + [full], e);
    var m2 := FullBlock(s, m1);
    PlayHead(s, m1, full, [full], e);
    PlayExit(s, m2, full, e);
  }

  /** No run of the worker, whatever its environment does, reports more bytes than the limit. */
  ghost predicate KeepsLimit(s: Endpoint)
    requires s.params.maxLength.Some?
  {
    forall first, startTime, gap, script, e :: ValidScript(s.params, script) ==>
      var outcome := PlayAll(s, first, startTime, gap, script, e).outcome;
      outcome.Finished? ==> outcome.summary.bytesTransferred <= s.params.maxLength.value
  }

  /** The byte limit is kept exactly by those tests that cannot move a byte. */
  lemma LimitKeptIff(s: Endpoint)
    requires s.params.maxLength.Some?
    ensures KeepsLimit(s) <==> s.params.blockSize == 0
  {
    if s.params.blockSize == 0 {
      forall first, startTime, gap, script, e | ValidScript(s.params, script)
        ensures var outcome := PlayAll(s, first, startTime, gap, script, e).outcome;
                outcome.Finished? ==> outcome.summary.bytesTransferred <= s.params.maxLength.value
      {
        RunBalances(s, first, startTime, gap, script, e);
      }
    } else {
      var e := Worker.Ending(0, NO_SAMPLE, true, 0, NO_SAMPLE);
      var script := OvershootReached(s, e);
      assert !KeepsLimit(s) by {
        assert PlayAll(s, Got(StartLoad), 0, 0, script, e).outcome.Finished?;
      }
    }
  }
}
