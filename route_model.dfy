/**
 * The value-level model of route building and route sequencing.
 *
 * A route is a list of waypoints and the segments the router found between
 * them; in loop mode one extra closure segment leads from the last waypoint
 * back to START. A running route session walks the segments' polylines one
 * point pair at a time: `Feed` is what happens whenever the sequencer is
 * asked for the next point pair, and `Arrive` is the bookkeeping done when
 * the cruise engine reports that the current pair is finished.
 */
module RouteModel {
  import opened Wrappers
  import opened Geo
  import Text

  // ---------------------------------------------------------------------------
  // Entities
  // ---------------------------------------------------------------------------

  datatype RouteState = Idle | Running | Paused | Arrived | Stopped

  function RouteStateValue(s: RouteState): string
  {
    match s
    case Idle => "idle"
    case Running => "running"
    case Paused => "paused"
    case Arrived => "arrived"
    case Stopped => "stopped"
  }

  /** A waypoint: START is the first, the others are named by their index. */
  datatype Waypoint = Waypoint(pos: Pos, name: string)

  /** The leg between two waypoints, as the router found it. */
  datatype RouteSegment = RouteSegment(
    fromWaypoint: nat,
    toWaypoint: nat,
    path: Path,
    distanceKm: real,
    isClosure: bool,
    isFallback: bool)

  /** What the router returns for a pair of endpoints. */
  datatype RouteResult = RouteResult(path: Path, distanceKm: real, isFallback: bool)

  /**
   * The path finder, taken to be a fixed function of the two endpoints: the
   * same endpoints always get the same answer. Its polyline is a `Path`, so
   * never empty, its length is never negative, and a fallback answer is the
   * straight line from the first endpoint to the second.
   */
  type Router = r: (Pos, Pos) -> RouteResult
    | forall a: Pos, b: Pos :: r(a, b).distanceKm >= 0.0 && (r(a, b).isFallback ==> r(a, b).path == [a, b])
    witness (a: Pos, b: Pos) => RouteResult([a, b], 0.0, true)

  // ---------------------------------------------------------------------------
  // Distances
  // ---------------------------------------------------------------------------

  /** `recalculate_distance`: the sum of the segments' distances from index `from` on. */
  function SegmentsDistance(segs: seq<RouteSegment>, from: nat): real
    decreases |segs| - from
  {
    if from < |segs| then segs[from].distanceKm + SegmentsDistance(segs, from + 1) else 0.0
  }

  /** The length of a polyline from point index `from` to its end. */
  function PathLength(dist: Distance, path: seq<Pos>, from: nat): real
    decreases |path| - from
  {
    if from + 1 < |path| then dist(path[from], path[from + 1]) + PathLength(dist, path, from + 1) else 0.0
  }

  /**
   * The arrival threshold of the cruise engine at a given speed: the distance
   * covered in five milliseconds, and one millimetre at a standstill.
   */
  function ArrivalThresholdKm(speedKmh: real): (thr: real)
    ensures thr > 0.0
    ensures speedKmh > 0.0 ==> thr * 3600000.0 / speedKmh == 5.0
  {
    if speedKmh > 0.0 then speedKmh / 720000.0 else 1.0 / 1000000.0
  }

  // ---------------------------------------------------------------------------
  // Route building
  // ---------------------------------------------------------------------------

  /** The regular segment from waypoint `i` to waypoint `i + 1`. */
  function RegularSegment(router: Router, wps: seq<Waypoint>, i: nat): (s: RouteSegment)
    requires i + 1 < |wps|
    ensures s.fromWaypoint == i && s.toWaypoint == i + 1 && !s.isClosure
  {
    var r := router(wps[i].pos, wps[i + 1].pos);
    RouteSegment(i, i + 1, r.path, r.distanceKm, false, r.isFallback)
  }

  /** `_add_closure_segment`: the segment from the last waypoint back to START. */
  function ClosureSegment(router: Router, wps: seq<Waypoint>): (s: RouteSegment)
    requires |wps| >= 1
    ensures s.fromWaypoint == |wps| - 1 && s.toWaypoint == 0 && s.isClosure
  {
    var r := router(wps[|wps| - 1].pos, wps[0].pos);
    RouteSegment(|wps| - 1, 0, r.path, r.distanceKm, true, r.isFallback)
  }

  /** The segments a route with these waypoints has: one per consecutive pair, and the closure in loop mode. */
  function ExpectedSegments(router: Router, wps: seq<Waypoint>, loopMode: bool): (segs: seq<RouteSegment>)
    ensures |segs| == (if |wps| == 0 then 0 else |wps| - 1) + (if loopMode && |wps| >= 2 then 1 else 0)
  {
    if |wps| < 2 then []
    else
      ExpectedSegments(router, wps[..|wps| - 1], false) + [RegularSegment(router, wps, |wps| - 2)]
      + (if loopMode then [ClosureSegment(router, wps)] else [])
  }

  /** The route is exactly what its waypoints and loop mode call for. */
  predicate Canonical(router: Router, wps: seq<Waypoint>, segs: seq<RouteSegment>, loopMode: bool)
  {
    segs == ExpectedSegments(router, wps, loopMode)
  }

  /**
   * The one other shape a route can take: loop mode was switched off while the
   * session was driving the closure, so the closure was kept.
   */
  predicate ClosureKept(router: Router, wps: seq<Waypoint>, segs: seq<RouteSegment>, loopMode: bool)
  {
    !loopMode && |wps| >= 2 && segs == ExpectedSegments(router, wps, true)
  }

  /** START first, then "1", "2", ... by position. */
  predicate WellNamed(wps: seq<Waypoint>)
  {
    (|wps| > 0 ==> wps[0].name == "START")
    && forall i :: 1 <= i < |wps| ==> wps[i].name == Text.NatToString(i)
  }

  predicate EndsWithClosure(segs: seq<RouteSegment>)
  {
    |segs| > 0 && segs[|segs| - 1].isClosure
  }

  function DropLast<T>(s: seq<T>): seq<T>
    requires |s| > 0
  {
    s[..|s| - 1]
  }

  /** A route after `add_waypoint(p)`: waypoints and segments. */
  datatype Edit = Edit(waypoints: seq<Waypoint>, segments: seq<RouteSegment>)

  function AddPoint(router: Router, wps: seq<Waypoint>, segs: seq<RouteSegment>, loopMode: bool, p: Pos): (e: Edit)
    ensures |e.waypoints| == |wps| + 1 && e.waypoints[..|wps|] == wps
    ensures e.waypoints[|wps|].pos == p
  {
    if |wps| == 0 then Edit([Waypoint(p, "START")], segs)
    else
      var n := |wps|;
      var base := if loopMode && EndsWithClosure(segs) then DropLast(segs) else segs;
      var r := router(wps[n - 1].pos, p);
      var wps' := wps + [Waypoint(p, Text.NatToString(n))];
      var segs' := base + [RouteSegment(n - 1, n, r.path, r.distanceKm, false, r.isFallback)];
      Edit(wps', if loopMode then segs' + [ClosureSegment(router, wps')] else segs')
  }

  /** A route with two or more waypoints after `undo_waypoint`. */
  function UndoPoint(router: Router, wps: seq<Waypoint>, segs: seq<RouteSegment>, loopMode: bool): (e: Edit)
    requires |wps| >= 2
    ensures e.waypoints == DropLast(wps)
  {
    var s1 := if loopMode && EndsWithClosure(segs) then DropLast(segs) else segs;
    var w := DropLast(wps);
    var s2 := if |s1| > 0 then DropLast(s1) else s1;
    Edit(w, if loopMode && |w| >= 2 then s2 + [ClosureSegment(router, w)] else s2)
  }

  /**
   * The segments after `set_loop_mode(enabled)`; `onClosure` is whether a
   * running session is at or past the closure's index.
   */
  function SetLoop(router: Router, wps: seq<Waypoint>, segs: seq<RouteSegment>, enabled: bool, onClosure: bool): seq<RouteSegment>
  {
    if enabled then
      if |wps| >= 2 && !EndsWithClosure(segs) then segs + [ClosureSegment(router, wps)] else segs
    else if EndsWithClosure(segs) && !onClosure then DropLast(segs)
    else segs
  }

  // ---------------------------------------------------------------------------
  // Sequencing
  // ---------------------------------------------------------------------------

  /** Where a route session is along its route. */
  datatype Progress = Progress(
    segmentIndex: nat,
    step: nat,
    segmentsCompleted: nat,
    loopsCompleted: nat,
    bridgeFrom: Option<Pos>,
    isBridging: bool,
    reroute: Option<Path>,
    rerouteStep: nat)

  /** A fresh session: at the first point of the first segment. */
  const Start := Progress(0, 0, 0, 0, None, false, None, 0)

  /** The progress events the sequencer emits on its way to the next point pair. */
  datatype Signal = SegmentComplete | LoopComplete

  /**
   * How a call of the sequencer ends: the point pair handed to the cruise
   * engine; the route finished; a loop-mode route whose every pair is shorter
   * than the threshold, on which the recursion never returns; or a loop-mode
   * route without segments, where reading the last segment raises.
   */
  datatype Outcome = Leg(from: Pos, to: Pos) | Finished | Diverged | Fault

  datatype FeedResult = FeedResult(progress: Progress, outcome: Outcome, signals: seq<Signal>)

  function WithSignal(s: Signal, r: FeedResult): FeedResult
  {
    r.(signals := [s] + r.signals)
  }

  function RerouteLeft(p: Progress): nat
  {
    if p.reroute.Some? && p.rerouteStep < |p.reroute.value| then |p.reroute.value| - p.rerouteStep else 0
  }

  function SegmentsLeft(segs: seq<RouteSegment>, p: Progress): nat
  {
    if p.segmentIndex <= |segs| then |segs| - p.segmentIndex else 0
  }

  function StepsLeft(segs: seq<RouteSegment>, p: Progress): nat
  {
    if p.segmentIndex < |segs| && p.step < |segs[p.segmentIndex].path| then |segs[p.segmentIndex].path| - p.step else 0
  }

  /** The measure of `Feed`, lexicographically: `(q, wq)` comes strictly before `(p, wp)`. */
  predicate Below(segs: seq<RouteSegment>, q: Progress, wq: nat, p: Progress, wp: nat)
  {
    wq < wp || (wq == wp &&
      ((p.reroute.Some? && q.reroute.None?) || (p.reroute.Some? == q.reroute.Some? &&
        (RerouteLeft(q) < RerouteLeft(p) || (RerouteLeft(q) == RerouteLeft(p) &&
          (SegmentsLeft(segs, q) < SegmentsLeft(segs, p) || (SegmentsLeft(segs, q) == SegmentsLeft(segs, p) &&
            StepsLeft(segs, q) < StepsLeft(segs, p))))))))
  }

  /**
   * One level of the sequencer: it either stops, or changes the progress
   * (and possibly emits a signal) and goes round again.
   */
  datatype Step = Done(progress: Progress, outcome: Outcome) | Next(progress: Progress, signal: Option<Signal>, wraps: nat)

  /**
   * One level of `_start_next_point_pair`: a pending reroute path comes
   * first; at the end of the route it finishes, or in loop mode wraps around
   * to the first segment (emitting LoopComplete); otherwise it bridges a gap
   * to the current polyline, moves on at the end of the polyline (emitting
   * SegmentComplete), skips a pair shorter than `thr`, or hands out the pair.
   * `wraps` is how many wrap-arounds the call may still make.
   */
  function FeedOnce(segs: seq<RouteSegment>, loopMode: bool, dist: Distance, thr: real, p: Progress, wraps: nat): (s: Step)
    ensures s.Next? ==> Below(segs, s.progress, s.wraps, p, wraps)
    ensures s.Done? && s.outcome.Leg? ==> dist(s.outcome.from, s.outcome.to) >= thr
  {
    if p.reroute.Some? then
      var path := p.reroute.value;
      var k := p.rerouteStep;
      if k >= |path| - 1 then
        Next(p.(bridgeFrom := Some(Last(path)), reroute := None, rerouteStep := 0,
                segmentIndex := p.segmentIndex + 1, step := 0, segmentsCompleted := p.segmentsCompleted + 1),
             Some(SegmentComplete), wraps)
      else if dist(path[k], path[k + 1]) < thr then Next(p.(rerouteStep := k + 1), None, wraps)
      else Done(p, Leg(path[k], path[k + 1]))
    else if p.segmentIndex >= |segs| then
      if !loopMode then Done(p, Finished)
      else if |segs| == 0 then Done(p, Fault)
      else if wraps == 0 then Done(p, Diverged)
      else
        Next(p.(bridgeFrom := Some(Last(segs[|segs| - 1].path)), segmentIndex := 0, step := 0,
                loopsCompleted := p.loopsCompleted + 1),
             Some(LoopComplete), wraps - 1)
    else
      var path := segs[p.segmentIndex].path;
      if p.bridgeFrom.Some? && dist(p.bridgeFrom.value, path[0]) >= thr then
        Done(p.(bridgeFrom := None, isBridging := true), Leg(p.bridgeFrom.value, path[0]))
      else
        var q := p.(bridgeFrom := None);
        if q.step >= |path| - 1 then
          Next(q.(bridgeFrom := Some(Last(path)), segmentIndex := q.segmentIndex + 1, step := 0,
                  segmentsCompleted := q.segmentsCompleted + 1),
               Some(SegmentComplete), wraps)
        else if dist(path[q.step], path[q.step + 1]) < thr then Next(q.(step := q.step + 1), None, wraps)
        else Done(q, Leg(path[q.step], path[q.step + 1]))
  }

  /**
   * `_start_next_point_pair` as a whole: `FeedOnce` repeated until it stops,
   * collecting the signals on the way. A second wrap-around without any leg
   * in between repeats the first one forever (see `DivergenceIsPermanent`),
   * so a budget of one wrap-around decides every call.
   */
  function Feed(segs: seq<RouteSegment>, loopMode: bool, dist: Distance, thr: real, p: Progress, wraps: nat): FeedResult
    decreases wraps, p.reroute.Some?, RerouteLeft(p), SegmentsLeft(segs, p), StepsLeft(segs, p), 1
  {
    Continue(segs, loopMode, dist, thr, p, wraps, FeedOnce(segs, loopMode, dist, thr, p, wraps))
  }

  /** What `Feed` does after the level `s` taken from `p`: stop there, or go on from where it left. */
  function Continue(segs: seq<RouteSegment>, loopMode: bool, dist: Distance, thr: real, p: Progress, wraps: nat, s: Step): FeedResult
    requires s.Next? ==> Below(segs, s.progress, s.wraps, p, wraps)
    decreases wraps, p.reroute.Some?, RerouteLeft(p), SegmentsLeft(segs, p), StepsLeft(segs, p), 0
  {
    match s
    case Done(q, o) => FeedResult(q, o, [])
    case Next(q, sig, w) =>
      var r := Feed(segs, loopMode, dist, thr, q, w);
      if sig.Some? then WithSignal(sig.value, r) else r
  }

  /** `Feed` from a level that stops: that level's progress and outcome, no signals. */
  lemma FeedStops(segs: seq<RouteSegment>, loopMode: bool, dist: Distance, thr: real, p: Progress, wraps: nat)
    requires FeedOnce(segs, loopMode, dist, thr, p, wraps).Done?
    ensures var s := FeedOnce(segs, loopMode, dist, thr, p, wraps);
      Feed(segs, loopMode, dist, thr, p, wraps) == FeedResult(s.progress, s.outcome, [])
  {
  }

  /** `Feed` from a level that goes on: the level's signal, then `Feed` from where it left. */
  lemma FeedGoesOn(segs: seq<RouteSegment>, loopMode: bool, dist: Distance, thr: real, p: Progress, wraps: nat)
    requires FeedOnce(segs, loopMode, dist, thr, p, wraps).Next?
    ensures var s := FeedOnce(segs, loopMode, dist, thr, p, wraps);
      var r := Feed(segs, loopMode, dist, thr, s.progress, s.wraps);
      Feed(segs, loopMode, dist, thr, p, wraps) == if s.signal.Some? then WithSignal(s.signal.value, r) else r
  {
  }

  /** `_on_point_arrival`'s bookkeeping: a finished bridge, reroute pair or polyline pair. */
  function Arrive(p: Progress): (q: Progress)
    ensures q.segmentIndex == p.segmentIndex && q.reroute == p.reroute && q.bridgeFrom == p.bridgeFrom
    ensures q.segmentsCompleted == p.segmentsCompleted && q.loopsCompleted == p.loopsCompleted
    ensures !q.isBridging
    ensures p.isBridging ==> q.step == p.step && q.rerouteStep == p.rerouteStep
    ensures !p.isBridging && p.reroute.Some? ==> q.step == p.step && q.rerouteStep == p.rerouteStep + 1
    ensures !p.isBridging && p.reroute.None? ==> q.step == p.step + 1 && q.rerouteStep == p.rerouteStep
  {
    if p.isBridging then p.(isBridging := false)
    else if p.reroute.Some? then p.(rerouteStep := p.rerouteStep + 1)
    else p.(step := p.step + 1)
  }

  /** `remaining_distance_km`: the rest of the current polyline plus every later segment. */
  function RemainingDistance(dist: Distance, segs: seq<RouteSegment>, p: Progress): real
  {
    if p.segmentIndex < |segs| then
      PathLength(dist, segs[p.segmentIndex].path, p.step) + SegmentsDistance(segs, p.segmentIndex + 1)
    else 0.0
  }
}
