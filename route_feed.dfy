/**
 * Properties of the point-pair sequencer: what it hands to the cruise
 * engine, how its counters match the events it emits, when a route ends,
 * and why cutting the recursion at the second wrap-around loses nothing.
 */
module RouteFeed {
  import opened Wrappers
  import opened Geo
  import opened RouteModel

  function Count(signals: seq<Signal>, s: Signal): nat
  {
    if |signals| == 0 then 0 else (if signals[0] == s then 1 else 0) + Count(signals[1..], s)
  }

  // ---------------------------------------------------------------------------
  // One level
  // ---------------------------------------------------------------------------

  /** At the end of a loop-mode route with segments and no reroute pending: where the sequencer wraps around. */
  predicate AtWrap(segs: seq<RouteSegment>, loopMode: bool, p: Progress)
  {
    p.reroute.None? && p.segmentIndex >= |segs| && loopMode && |segs| > 0
  }

  /**
   * What one level does to the counters: they move only together with the
   * signal emitted, and nothing but a bridge leg sets the bridging flag.
   */
  lemma StepCounters(segs: seq<RouteSegment>, loopMode: bool, dist: Distance, thr: real, p: Progress, wraps: nat)
    ensures var s := FeedOnce(segs, loopMode, dist, thr, p, wraps);
      (s.Done? ==> s.progress.segmentsCompleted == p.segmentsCompleted && s.progress.loopsCompleted == p.loopsCompleted)
      && (s.Next? ==>
            s.progress.segmentsCompleted == p.segmentsCompleted + (if s.signal == Some(SegmentComplete) then 1 else 0)
            && s.progress.loopsCompleted == p.loopsCompleted + (if s.signal == Some(LoopComplete) then 1 else 0)
            && s.progress.isBridging == p.isBridging)
  {
  }

  /** How one level stops, and what the pair it hands out is. */
  lemma StepOutcome(segs: seq<RouteSegment>, loopMode: bool, dist: Distance, thr: real, p: Progress, wraps: nat)
    ensures var s := FeedOnce(segs, loopMode, dist, thr, p, wraps); var q := s.progress;
      (s.Done? && s.outcome.Finished? ==> !loopMode && q.segmentIndex >= |segs| && q.reroute.None?)
      && (s.Done? && s.outcome.Fault? ==> loopMode && |segs| == 0)
      && (s.Done? && s.outcome.Diverged? ==> AtWrap(segs, loopMode, p) && wraps == 0)
      && (s.Done? && s.outcome.Leg? && q.reroute.None? && !q.isBridging ==>
            q.segmentIndex < |segs| && q.bridgeFrom.None?
            && q.step + 1 < |segs[q.segmentIndex].path|
            && s.outcome.from == segs[q.segmentIndex].path[q.step]
            && s.outcome.to == segs[q.segmentIndex].path[q.step + 1])
      && (s.Done? && s.outcome.Leg? && q.reroute.Some? ==>
            q.rerouteStep + 1 < |q.reroute.value|
            && s.outcome.from == q.reroute.value[q.rerouteStep]
            && s.outcome.to == q.reroute.value[q.rerouteStep + 1])
  {
  }

  /** The fields that steer the sequencer; the counters and the bridging flag only record. */
  predicate SameControl(p1: Progress, p2: Progress)
  {
    p1.segmentIndex == p2.segmentIndex && p1.step == p2.step && p1.bridgeFrom == p2.bridgeFrom
    && p1.reroute == p2.reroute && (p1.reroute.Some? ==> p1.rerouteStep == p2.rerouteStep)
  }

  /** Two progresses that agree on the steering fields take the same step. */
  lemma StepIgnoresCounters(segs: seq<RouteSegment>, loopMode: bool, dist: Distance, thr: real, p1: Progress, p2: Progress, wraps: nat)
    requires SameControl(p1, p2)
    ensures var s1 := FeedOnce(segs, loopMode, dist, thr, p1, wraps);
      var s2 := FeedOnce(segs, loopMode, dist, thr, p2, wraps);
      s1.Done? == s2.Done?
      && (s1.Done? ==> s1.outcome == s2.outcome)
      && (s1.Next? ==> SameControl(s1.progress, s2.progress) && s1.wraps == s2.wraps)
  {
  }

  /**
   * The wrap-around budget matters only at a wrap-around: there no budget
   * means Diverged and some budget means the wrap; anywhere else the step is
   * the same and the budget is handed on untouched.
   */
  lemma StepBudget(segs: seq<RouteSegment>, loopMode: bool, dist: Distance, thr: real, p: Progress, wraps: nat)
    ensures var s0 := FeedOnce(segs, loopMode, dist, thr, p, 0);
      var s := FeedOnce(segs, loopMode, dist, thr, p, wraps);
      if AtWrap(segs, loopMode, p) then
        s0 == Done(p, Diverged)
        && (wraps > 0 ==> s == Next(p.(bridgeFrom := Some(Last(segs[|segs| - 1].path)), segmentIndex := 0, step := 0,
                                     loopsCompleted := p.loopsCompleted + 1), Some(LoopComplete), wraps - 1))
      else
        (s0.Done? ==> s == s0) && (s0.Next? ==> s0.wraps == 0 && s == Next(s0.progress, s0.signal, wraps))
  {
  }

  // ---------------------------------------------------------------------------
  // Whole calls
  // ---------------------------------------------------------------------------

  /** A leg handed to the cruise engine is never shorter than the arrival threshold. */
  lemma {:induction false} LegsAreLongEnough(segs: seq<RouteSegment>, loopMode: bool, dist: Distance, thr: real, p: Progress, wraps: nat)
    ensures var r := Feed(segs, loopMode, dist, thr, p, wraps); r.outcome.Leg? ==> dist(r.outcome.from, r.outcome.to) >= thr
    decreases wraps, p.reroute.Some?, RerouteLeft(p), SegmentsLeft(segs, p), StepsLeft(segs, p)
  {
    match FeedOnce(segs, loopMode, dist, thr, p, wraps)
    case Done(q, o) => FeedStops(segs, loopMode, dist, thr, p, wraps);
    case Next(q, sig, w) =>
      FeedGoesOn(segs, loopMode, dist, thr, p, wraps);
      LegsAreLongEnough(segs, loopMode, dist, thr, q, w);
  }

  /**
   * The counters count the events: every SegmentComplete emitted adds one to
   * `segmentsCompleted` and every LoopComplete one to `loopsCompleted`.
   */
  lemma {:induction false} CountersCountSignals(segs: seq<RouteSegment>, loopMode: bool, dist: Distance, thr: real, p: Progress, wraps: nat)
    ensures var r := Feed(segs, loopMode, dist, thr, p, wraps);
      r.progress.segmentsCompleted == p.segmentsCompleted + Count(r.signals, SegmentComplete)
      && r.progress.loopsCompleted == p.loopsCompleted + Count(r.signals, LoopComplete)
    decreases wraps, p.reroute.Some?, RerouteLeft(p), SegmentsLeft(segs, p), StepsLeft(segs, p)
  {
    StepCounters(segs, loopMode, dist, thr, p, wraps);
    match FeedOnce(segs, loopMode, dist, thr, p, wraps)
    case Done(q, o) => FeedStops(segs, loopMode, dist, thr, p, wraps);
    case Next(q, sig, w) =>
      FeedGoesOn(segs, loopMode, dist, thr, p, wraps);
      CountersCountSignals(segs, loopMode, dist, thr, q, w);
      var r := Feed(segs, loopMode, dist, thr, q, w);
      if sig.Some? {
        assert ([sig.value] + r.signals)[1..] == r.signals;
      }
  }

  /**
   * How a call ends: a route arrives only without loop mode, past its last
   * segment; only a loop-mode route without segments faults; only a loop-mode
   * route with segments can diverge; and a leg on the route's own polyline is
   * the pair at the current step, with nothing pending.
   */
  lemma {:induction false} OutcomeCases(segs: seq<RouteSegment>, loopMode: bool, dist: Distance, thr: real, p: Progress, wraps: nat)
    ensures var r := Feed(segs, loopMode, dist, thr, p, wraps);
      (r.outcome.Finished? ==> !loopMode && r.progress.segmentIndex >= |segs| && r.progress.reroute.None?)
      && (r.outcome.Fault? ==> loopMode && |segs| == 0)
      && (r.outcome.Diverged? ==> loopMode && |segs| > 0)
      && (r.outcome.Leg? && r.progress.reroute.None? && !r.progress.isBridging ==>
            r.progress.segmentIndex < |segs| && r.progress.bridgeFrom.None?
            && r.progress.step + 1 < |segs[r.progress.segmentIndex].path|
            && r.outcome.from == segs[r.progress.segmentIndex].path[r.progress.step]
            && r.outcome.to == segs[r.progress.segmentIndex].path[r.progress.step + 1])
      && (r.outcome.Leg? && r.progress.reroute.Some? ==>
            r.progress.rerouteStep + 1 < |r.progress.reroute.value|
            && r.outcome.from == r.progress.reroute.value[r.progress.rerouteStep]
            && r.outcome.to == r.progress.reroute.value[r.progress.rerouteStep + 1])
    decreases wraps, p.reroute.Some?, RerouteLeft(p), SegmentsLeft(segs, p), StepsLeft(segs, p)
  {
    var r := Feed(segs, loopMode, dist, thr, p, wraps);
    match FeedOnce(segs, loopMode, dist, thr, p, wraps)
    case Done(q, o) =>
      FeedStops(segs, loopMode, dist, thr, p, wraps);
      StepOutcome(segs, loopMode, dist, thr, p, wraps);
      assert r.progress == q && r.outcome == o;
    case Next(q, sig, w) =>
      FeedGoesOn(segs, loopMode, dist, thr, p, wraps);
      OutcomeCases(segs, loopMode, dist, thr, q, w);
      var r' := Feed(segs, loopMode, dist, thr, q, w);
      assert r.progress == r'.progress && r.outcome == r'.outcome;
  }

  // ---------------------------------------------------------------------------
  // Divergence
  // ---------------------------------------------------------------------------

  /** Counters and the bridging flag never change which way the sequencer goes. */
  lemma {:induction false} OutcomeIgnoresCounters(segs: seq<RouteSegment>, loopMode: bool, dist: Distance, thr: real, p1: Progress, p2: Progress, wraps: nat)
    requires SameControl(p1, p2)
    ensures Feed(segs, loopMode, dist, thr, p1, wraps).outcome == Feed(segs, loopMode, dist, thr, p2, wraps).outcome
    decreases wraps, p1.reroute.Some?, RerouteLeft(p1), SegmentsLeft(segs, p1), StepsLeft(segs, p1)
  {
    StepIgnoresCounters(segs, loopMode, dist, thr, p1, p2, wraps);
    match FeedOnce(segs, loopMode, dist, thr, p1, wraps)
    case Done(q1, o1) =>
      FeedStops(segs, loopMode, dist, thr, p1, wraps);
      FeedStops(segs, loopMode, dist, thr, p2, wraps);
    case Next(q1, sig1, w1) =>
      FeedGoesOn(segs, loopMode, dist, thr, p1, wraps);
      FeedGoesOn(segs, loopMode, dist, thr, p2, wraps);
      var q2 := FeedOnce(segs, loopMode, dist, thr, p2, wraps).progress;
      OutcomeIgnoresCounters(segs, loopMode, dist, thr, q1, q2, w1);
  }

  /** A call that makes no wrap-around does not depend on how many it was allowed. */
  lemma {:induction false} BudgetUnusedWithoutWrap(segs: seq<RouteSegment>, loopMode: bool, dist: Distance, thr: real, p: Progress, wraps: nat)
    requires !Feed(segs, loopMode, dist, thr, p, 0).outcome.Diverged?
    ensures Feed(segs, loopMode, dist, thr, p, wraps) == Feed(segs, loopMode, dist, thr, p, 0)
    decreases p.reroute.Some?, RerouteLeft(p), SegmentsLeft(segs, p), StepsLeft(segs, p)
  {
    StepBudget(segs, loopMode, dist, thr, p, wraps);
    match FeedOnce(segs, loopMode, dist, thr, p, 0)
    case Done(q, o) =>
      FeedStops(segs, loopMode, dist, thr, p, 0);
      FeedStops(segs, loopMode, dist, thr, p, wraps);
    case Next(q, sig, w) =>
      FeedGoesOn(segs, loopMode, dist, thr, p, 0);
      FeedGoesOn(segs, loopMode, dist, thr, p, wraps);
      BudgetUnusedWithoutWrap(segs, loopMode, dist, thr, q, wraps);
  }

  /** The state right after a wrap-around, up to counters: first segment, bridging from the route's end. */
  function Wrapped(segs: seq<RouteSegment>): Progress
    requires |segs| > 0
  {
    Progress(0, 0, 0, 0, Some(Last(segs[|segs| - 1].path)), false, None, 0)
  }

  /**
   * A call that reaches a wrap-around with no budget left goes on, given one
   * more wrap-around, exactly as a call from the wrapped state would.
   */
  lemma {:induction false} ExtraWrapRestarts(segs: seq<RouteSegment>, loopMode: bool, dist: Distance, thr: real, p: Progress, wraps: nat)
    requires Feed(segs, loopMode, dist, thr, p, 0).outcome.Diverged?
    ensures |segs| > 0
    ensures Feed(segs, loopMode, dist, thr, p, wraps + 1).outcome == Feed(segs, loopMode, dist, thr, Wrapped(segs), wraps).outcome
    decreases p.reroute.Some?, RerouteLeft(p), SegmentsLeft(segs, p), StepsLeft(segs, p)
  {
    StepBudget(segs, loopMode, dist, thr, p, wraps + 1);
    match FeedOnce(segs, loopMode, dist, thr, p, 0)
    case Done(q, o) =>
      FeedStops(segs, loopMode, dist, thr, p, 0);
      StepOutcome(segs, loopMode, dist, thr, p, 0);
      FeedGoesOn(segs, loopMode, dist, thr, p, wraps + 1);
      OutcomeIgnoresCounters(segs, loopMode, dist, thr,
        p.(bridgeFrom := Some(Last(segs[|segs| - 1].path)), segmentIndex := 0, step := 0,
           loopsCompleted := p.loopsCompleted + 1),
        Wrapped(segs), wraps);
    case Next(q, sig, w) =>
      FeedGoesOn(segs, loopMode, dist, thr, p, 0);
      FeedGoesOn(segs, loopMode, dist, thr, p, wraps + 1);
      ExtraWrapRestarts(segs, loopMode, dist, thr, q, wraps);
  }

  /** From the wrapped state a call that cannot reach a leg on one lap never does. */
  lemma {:induction false} WrappedDivergesForever(segs: seq<RouteSegment>, loopMode: bool, dist: Distance, thr: real, wraps: nat)
    requires |segs| > 0
    requires Feed(segs, loopMode, dist, thr, Wrapped(segs), 0).outcome.Diverged?
    ensures Feed(segs, loopMode, dist, thr, Wrapped(segs), wraps).outcome.Diverged?
  {
    if wraps > 0 {
      WrappedDivergesForever(segs, loopMode, dist, thr, wraps - 1);
      ExtraWrapRestarts(segs, loopMode, dist, thr, Wrapped(segs), wraps - 1);
    }
  }

  /**
   * The sequencer's recursion never returns once it wraps around twice in one
   * call: whatever wrap-around budget is given, the outcome stays Diverged.
   */
  lemma DivergenceIsPermanent(segs: seq<RouteSegment>, loopMode: bool, dist: Distance, thr: real, p: Progress, wraps: nat)
    requires Feed(segs, loopMode, dist, thr, p, 1).outcome.Diverged?
    ensures Feed(segs, loopMode, dist, thr, p, wraps).outcome.Diverged?
  {
    if !Feed(segs, loopMode, dist, thr, p, 0).outcome.Diverged? {
      BudgetUnusedWithoutWrap(segs, loopMode, dist, thr, p, 1);
      assert false;
    }
    ExtraWrapRestarts(segs, loopMode, dist, thr, p, 0);
    if wraps > 0 {
      ExtraWrapRestarts(segs, loopMode, dist, thr, p, wraps - 1);
      WrappedDivergesForever(segs, loopMode, dist, thr, wraps - 1);
    }
  }
}
