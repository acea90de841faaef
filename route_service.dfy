/**
 * The route service as the objects it is made of: per-device routes that are
 * edited in place, per-device route sessions whose counters the sequencer
 * advances, and the service that owns both registries.
 *
 * The router is a fixed function of the two endpoints and the great-circle
 * distance a fixed function of two positions. The cruise engine and the
 * frontend event emitter are outside the model: every call the service makes
 * into them is appended to the ghost log `calls`, in order.
 */
module Routes {
  import opened Wrappers
  import opened Geo
  import opened Replies
  import opened RouteModel
  import Text

  /** A call the route service makes into the cruise engine, or an event it emits. */
  datatype Call =
    | StartCruise(device: string, from: Pos, to: Pos, speedKmh: real)
    | StopCruise(device: string)
    | PauseCruise(device: string)
    | ResumeCruise(device: string)
    | SetCruiseSpeed(device: string, speedKmh: real)
    | OnArrival(device: string)
    | RemoveArrivalCallback(device: string)
    | CleanupSession(device: string)
    | Emit(device: string, event: string)

  /** The value of a route object. */
  datatype RouteValue = RouteValue(waypoints: seq<Waypoint>, segments: seq<RouteSegment>, loopMode: bool, totalDistanceKm: real)

  /** A freshly made `Route()`. */
  const EmptyRoute := RouteValue([], [], false, 0.0)

  /** One event, when an emitter is set. */
  function Emitted(on: bool, dev: string, event: string): (cs: seq<Call>)
    ensures |cs| == (if on then 1 else 0)
  {
    if on then [Emit(dev, event)] else []
  }

  function SignalEvent(s: Signal): string
  {
    match s
    case SegmentComplete => "routeSegmentComplete"
    case LoopComplete => "routeLoopComplete"
  }

  /** The events for a run of progress signals, when an emitter is set. */
  function SignalCalls(on: bool, dev: string, ss: seq<Signal>): (cs: seq<Call>)
    ensures |cs| == (if on then |ss| else 0)
  {
    if ss == [] then [] else Emitted(on, dev, SignalEvent(ss[0])) + SignalCalls(on, dev, ss[1..])
  }

  /** The calls that end one call of the sequencer. */
  function OutcomeCalls(on: bool, dev: string, speedKmh: real, o: Outcome): seq<Call>
  {
    match o
    case Leg(a, b) => [StartCruise(dev, a, b, speedKmh)]
    case Finished => [RemoveArrivalCallback(dev), CleanupSession(dev)] + Emitted(on, dev, "routeArrived")
    case Diverged => []
    case Fault => []
  }

  /** Everything one call of the sequencer sends out: the progress events, then the leg or the arrival. */
  function FeedCalls(on: bool, dev: string, speedKmh: real, r: FeedResult): seq<Call>
  {
    SignalCalls(on, dev, r.signals) + OutcomeCalls(on, dev, speedKmh, r.outcome)
  }

  /** The event a level that goes on sends: its signal's, if it emitted one. */
  function LevelSignalCalls(on: bool, dev: string, sig: Option<Signal>): seq<Call>
  {
    if sig.Some? then Emitted(on, dev, SignalEvent(sig.value)) else []
  }

  /**
   * A level that goes on, then the rest: the calls of the whole are the
   * level's event followed by the rest's calls.
   */
  lemma LevelThenRest(on: bool, dev: string, speedKmh: real, sig: Option<Signal>, rest: FeedResult, before: seq<Call>, after: seq<Call>)
    requires after == before + LevelSignalCalls(on, dev, sig) + FeedCalls(on, dev, speedKmh, rest)
    ensures after == before + FeedCalls(on, dev, speedKmh, if sig.Some? then WithSignal(sig.value, rest) else rest)
  {
    var tail := SignalCalls(on, dev, rest.signals);
    var o := OutcomeCalls(on, dev, speedKmh, rest.outcome);
    if sig.Some? {
      var e := Emitted(on, dev, SignalEvent(sig.value));
      assert ([sig.value] + rest.signals)[1..] == rest.signals;
      assert SignalCalls(on, dev, [sig.value] + rest.signals) == e + tail;
      assert FeedCalls(on, dev, speedKmh, WithSignal(sig.value, rest)) == (e + tail) + o;
      assert before + e + (tail + o) == before + ((e + tail) + o);
    } else {
      assert LevelSignalCalls(on, dev, sig) == [];
      assert before + [] + (tail + o) == before + (tail + o);
    }
  }

  /** A sequencer call that stops at once sends only its leg or its arrival. */
  lemma FeedCallsWhenStopped(on: bool, dev: string, speedKmh: real, p: Progress, o: Outcome)
    ensures FeedCalls(on, dev, speedKmh, FeedResult(p, o, [])) == OutcomeCalls(on, dev, speedKmh, o)
  {
    assert SignalCalls(on, dev, []) == [];
  }

  /** The calls `stop_route_cruise` makes for a session it removed. */
  function StopCalls(on: bool, dev: string): seq<Call>
  {
    [RemoveArrivalCallback(dev), StopCruise(dev)] + Emitted(on, dev, "routeUpdate")
  }

  /**
   * The calls of a route cruise that (re)starts: the arrival callback, the
   * feed, and the closing event unless the feed raised.
   */
  function RunCalls(on: bool, dev: string, speedKmh: real, fr: FeedResult, event: string): seq<Call>
  {
    [OnArrival(dev)] + FeedCalls(on, dev, speedKmh, fr) + (if Raises(fr.outcome) then [] else Emitted(on, dev, event))
  }

  /** Appending three pieces one by one appends their concatenation. */
  lemma AppendThree(before: seq<Call>, a: seq<Call>, b: seq<Call>, c: seq<Call>)
    ensures before + (a + b + c) == before + a + b + c
  {
  }

  /** Whether a sequencer outcome escapes as an exception: the endless recursion, or the empty route's `segments[-1]`. */
  predicate Raises(o: Outcome)
  {
    o.Diverged? || o.Fault?
  }

  // ---------------------------------------------------------------------------
  // Route
  // ---------------------------------------------------------------------------

  /** A multi-waypoint route, edited in place by the service. */
  class Route {
    var waypoints: seq<Waypoint>
    var segments: seq<RouteSegment>
    var loopMode: bool
    var totalDistanceKm: real

    constructor ()
      ensures Value() == EmptyRoute
    {
      waypoints := [];
      segments := [];
      loopMode := false;
      totalDistanceKm := 0.0;
    }

    function Value(): RouteValue
      reads this
    {
      RouteValue(waypoints, segments, loopMode, totalDistanceKm)
    }

    /** `recalculate_distance`: the total becomes the sum of the segments' distances. */
    method RecalculateDistance()
      modifies this
      ensures Value() == old(Value()).(totalDistanceKm := SegmentsDistance(segments, 0))
    {
      totalDistanceKm := SegmentsDistance(segments, 0);
    }
  }

  // ---------------------------------------------------------------------------
  // Route session
  // ---------------------------------------------------------------------------

  /** The per-device state of a route cruise: which point pair comes next. */
  class RouteSession {
    const deviceId: string
    const route: Route
    var speedKmh: real
    var state: RouteState
    var segmentIndex: nat
    var step: nat
    var segmentsCompleted: nat
    var loopsCompleted: nat
    var bridgeFrom: Option<Pos>
    var isBridging: bool
    var reroute: Option<Path>
    var rerouteStep: nat
    var distanceTraveledKm: real

    /** A new session is idle, at the first point of the first segment, with nothing travelled. */
    constructor (deviceId: string, route: Route, speedKmh: real)
      ensures this.deviceId == deviceId && this.route == route && this.speedKmh == speedKmh
      ensures state == Idle && CurrentProgress() == Start && distanceTraveledKm == 0.0
    {
      this.deviceId := deviceId;
      this.route := route;
      this.speedKmh := speedKmh;
      state := Idle;
      segmentIndex := 0;
      step := 0;
      segmentsCompleted := 0;
      loopsCompleted := 0;
      bridgeFrom := None;
      isBridging := false;
      reroute := None;
      rerouteStep := 0;
      distanceTraveledKm := 0.0;
    }

    /** The session's progress fields as a value. */
    function CurrentProgress(): Progress
      reads this
    {
      Progress(segmentIndex, step, segmentsCompleted, loopsCompleted, bridgeFrom, isBridging, reroute, rerouteStep)
    }

    /** Sets the progress fields, and only those. */
    method MoveTo(q: Progress)
      modifies this
      ensures CurrentProgress() == q
      ensures speedKmh == old(speedKmh) && state == old(state) && distanceTraveledKm == old(distanceTraveledKm)
    {
      segmentIndex := q.segmentIndex;
      step := q.step;
      segmentsCompleted := q.segmentsCompleted;
      loopsCompleted := q.loopsCompleted;
      bridgeFrom := q.bridgeFrom;
      isBridging := q.isBridging;
      reroute := q.reroute;
      rerouteStep := q.rerouteStep;
    }

    /**
     * `remaining_distance_km`: the rest of the current polyline, pair by
     * pair, then the router's distance of every later segment.
     */
    method RemainingDistanceKm(dist: Distance) returns (remaining: real)
      ensures remaining == RemainingDistance(dist, route.segments, CurrentProgress())
    {
      remaining := 0.0;
      var segs := route.segments;
      if segmentIndex < |segs| {
        var path := segs[segmentIndex].path;
        var i := step;
        while i + 1 < |path|
          invariant step <= i
          invariant remaining + PathLength(dist, path, i) == PathLength(dist, path, step)
          decreases |path| - i
        {
          remaining := remaining + dist(path[i], path[i + 1]);
          i := i + 1;
        }
        var j := segmentIndex + 1;
        while j < |segs|
          invariant segmentIndex + 1 <= j <= |segs| || j == segmentIndex + 1
          invariant remaining + SegmentsDistance(segs, j) == PathLength(dist, path, step) + SegmentsDistance(segs, segmentIndex + 1)
          decreases |segs| - j
        {
          remaining := remaining + segs[j].distanceKm;
          j := j + 1;
        }
      }
    }
  }

  // ---------------------------------------------------------------------------
  // Route service
  // ---------------------------------------------------------------------------

  class RouteService {
    const router: Router
    const dist: Distance
    /** Per-device routes; a route exists without a session. */
    var routes: map<string, Route>
    /** Per-device sessions, only while cruising. */
    var sessions: map<string, RouteSession>
    /** Whether an event emitter has been set; events go nowhere before that. */
    var emitterSet: bool
    ghost var calls: seq<Call>

    /** Every session is filed under its own device. */
    predicate Valid()
      reads this
    {
      forall k :: k in sessions ==> sessions[k].deviceId == k
    }

    constructor (router: Router, dist: Distance)
      ensures this.router == router && this.dist == dist
      ensures routes == map[] && sessions == map[] && !emitterSet && calls == []
      ensures Valid()
    {
      this.router := router;
      this.dist := dist;
      routes := map[];
      sessions := map[];
      emitterSet := false;
      calls := [];
    }

    /** The value of a device's route, or of an empty one when it has none. */
    function RouteValueOf(dev: string): RouteValue
      reads this, if dev in routes then {routes[dev]} else {}
    {
      if dev in routes then routes[dev].Value() else EmptyRoute
    }

    /** Whether a device has a session that is running. */
    function IsRunning(dev: string): bool
      reads this, if dev in sessions then {sessions[dev]} else {}
    {
      dev in sessions && sessions[dev].state == Running
    }

    method SetEventEmitter()
      modifies this
      ensures emitterSet
      ensures routes == old(routes) && sessions == old(sessions) && calls == old(calls)
    {
      emitterSet := true;
    }

    /** `_add_closure_segment`: appends the router's segment from the last waypoint back to START. */
    method AddClosureSegment(route: Route)
      requires |route.waypoints| >= 1
      modifies route
      ensures route.Value() == old(route.Value()).(segments := old(route.segments) + [ClosureSegment(router, old(route.waypoints))])
    {
      var last := route.waypoints[|route.waypoints| - 1];
      var start := route.waypoints[0];
      var r := router(last.pos, start.pos);
      route.segments := route.segments + [RouteSegment(|route.waypoints| - 1, 0, r.path, r.distanceKm, true, r.isFallback)];
    }

    /** The device's route, created empty and filed under the device when it has none. */
    method EnsureRoute(dev: string) returns (route: Route)
      modifies this
      ensures dev in routes && route == routes[dev] && route.Value() == old(RouteValueOf(dev))
      ensures old(dev in routes) ==> routes == old(routes)
      ensures old(dev !in routes) ==> fresh(route) && routes == old(routes)[dev := route]
      ensures sessions == old(sessions) && emitterSet == old(emitterSet) && calls == old(calls)
    {
      if dev in routes {
        route := routes[dev];
      } else {
        route := new Route();
        routes := routes[dev := route];
      }
    }

    /**
     * The part of `add_waypoint` after START: the old closure goes, the new
     * waypoint is routed from the previous one, the closure is rebuilt under
     * loop mode, and the total is recalculated.
     */
    method ExtendRoute(route: Route, p: Pos)
      requires |route.waypoints| >= 1
      modifies route
      ensures var e := AddPoint(router, old(route.waypoints), old(route.segments), old(route.loopMode), p);
        route.Value() == RouteValue(e.waypoints, e.segments, old(route.loopMode), SegmentsDistance(e.segments, 0))
    {
      var n := |route.waypoints|;
      if route.loopMode && EndsWithClosure(route.segments) {
        route.segments := DropLast(route.segments);
      }
      var last := route.waypoints[n - 1];
      var res := router(last.pos, p);
      route.waypoints := route.waypoints + [Waypoint(p, Text.NatToString(n))];
      route.segments := route.segments + [RouteSegment(n - 1, n, res.path, res.distanceKm, false, res.isFallback)];
      if route.loopMode && |route.waypoints| >= 2 {
        AddClosureSegment(route);
      }
      route.RecalculateDistance();
    }

    /**
     * The part of `undo_waypoint` for two or more waypoints: the closure goes,
     * then the last waypoint and the last segment, the closure is rebuilt
     * under loop mode, and the total is recalculated.
     */
    method ShrinkRoute(route: Route)
      requires |route.waypoints| >= 2
      modifies route
      ensures var e := UndoPoint(router, old(route.waypoints), old(route.segments), old(route.loopMode));
        route.Value() == RouteValue(e.waypoints, e.segments, old(route.loopMode), SegmentsDistance(e.segments, 0))
    {
      if route.loopMode && EndsWithClosure(route.segments) {
        route.segments := DropLast(route.segments);
      }
      route.waypoints := DropLast(route.waypoints);
      if |route.segments| > 0 {
        route.segments := DropLast(route.segments);
      }
      if route.loopMode && |route.waypoints| >= 2 {
        AddClosureSegment(route);
      }
      route.RecalculateDistance();
    }

    /**
     * `add_waypoint`: creates the route if needed; the first point becomes
     * START, later ones are routed from the previous waypoint, and under loop
     * mode the closure is rebuilt. Allowed while cruising.
     */
    method AddWaypoint(dev: string, p: Pos) returns (r: Response)
      modifies this, if dev in routes then {routes[dev]} else {}
      ensures r == Success
      ensures sessions == old(sessions) && emitterSet == old(emitterSet)
      ensures dev in routes && routes == old(routes)[dev := routes[dev]]
      ensures old(dev in routes) ==> routes[dev] == old(routes[dev])
      ensures old(dev !in routes) ==> fresh(routes[dev])
      ensures var before := old(RouteValueOf(dev));
        var e := AddPoint(router, before.waypoints, before.segments, before.loopMode, p);
        routes[dev].Value() == RouteValue(e.waypoints, e.segments, before.loopMode,
          if |before.waypoints| == 0 then before.totalDistanceKm else SegmentsDistance(e.segments, 0))
      ensures calls == old(calls) + Emitted(emitterSet, dev, "routeWaypointAdded")
    {
      var route := EnsureRoute(dev);
      if |route.waypoints| == 0 {
        // the first point is START; no segment, and the total is left alone
        route.waypoints := route.waypoints + [Waypoint(p, "START")];
      } else {
        ExtendRoute(route, p);
      }
      calls := calls + Emitted(emitterSet, dev, "routeWaypointAdded");
      return Success;
    }

    /**
     * `undo_waypoint`: refused without waypoints and while a session is
     * running; removing START removes the whole route; otherwise the last
     * waypoint and its incoming segment go, and the closure is rebuilt under
     * loop mode.
     */
    method UndoWaypoint(dev: string) returns (r: Response)
      modifies this, if dev in routes then {routes[dev]} else {}
      ensures sessions == old(sessions) && emitterSet == old(emitterSet)
      ensures old(dev !in routes || |routes[dev].waypoints| == 0) ==>
        r == Failure("No waypoint to undo") && routes == old(routes) && RouteValueOf(dev) == old(RouteValueOf(dev)) && calls == old(calls)
      ensures old(dev in routes && |routes[dev].waypoints| > 0 && IsRunning(dev)) ==>
        r == Failure("Cannot modify route while cruising") && routes == old(routes) && RouteValueOf(dev) == old(RouteValueOf(dev)) && calls == old(calls)
      ensures old(dev in routes && |routes[dev].waypoints| == 1 && !IsRunning(dev)) ==>
        r == Success && routes == old(routes) - {dev} && old(routes[dev]).Value() == old(routes[dev].Value())
        && calls == old(calls) + Emitted(emitterSet, dev, "routeWaypointAdded")
      ensures old(dev in routes && |routes[dev].waypoints| >= 2 && !IsRunning(dev)) ==>
        var before := old(routes[dev].Value());
        var e := UndoPoint(router, before.waypoints, before.segments, before.loopMode);
        r == Success && routes == old(routes)
        && routes[dev].Value() == RouteValue(e.waypoints, e.segments, before.loopMode, SegmentsDistance(e.segments, 0))
        && calls == old(calls) + Emitted(emitterSet, dev, "routeWaypointAdded")
    {
      if dev !in routes || |routes[dev].waypoints| == 0 {
        return Failure("No waypoint to undo");
      }
      var route := routes[dev];
      if dev in sessions && sessions[dev].state == Running {
        return Failure("Cannot modify route while cruising");
      }
      if |route.waypoints| == 1 {
        // undoing START forgets the route
        routes := routes - {dev};
      } else {
        ShrinkRoute(route);
      }
      calls := calls + Emitted(emitterSet, dev, "routeWaypointAdded");
      return Success;
    }

    /**
     * `set_loop_mode`: creates the route if needed and sets the flag; turning
     * it on adds the closure (two or more waypoints, none yet); turning it
     * off drops the closure unless a running session is at or past it.
     */
    method SetLoopMode(dev: string, enabled: bool) returns (r: Response)
      modifies this, if dev in routes then {routes[dev]} else {}
      ensures r == Success
      ensures sessions == old(sessions) && emitterSet == old(emitterSet) && calls == old(calls)
      ensures dev in routes && routes == old(routes)[dev := routes[dev]]
      ensures old(dev in routes) ==> routes[dev] == old(routes[dev])
      ensures old(dev !in routes) ==> fresh(routes[dev])
      ensures var before := old(RouteValueOf(dev));
        var onClosure := old(IsRunning(dev)) && old(dev in sessions && sessions[dev].segmentIndex + 1 >= |RouteValueOf(dev).segments|);
        var segs := SetLoop(router, before.waypoints, before.segments, enabled, onClosure);
        routes[dev].Value() == RouteValue(before.waypoints, segs, enabled, SegmentsDistance(segs, 0))
    {
      var route := EnsureRoute(dev);
      route.loopMode := enabled;
      if enabled && |route.waypoints| >= 2 {
        if !EndsWithClosure(route.segments) {
          AddClosureSegment(route);
        }
      } else if !enabled {
        if EndsWithClosure(route.segments) {
          var closureIndex := |route.segments| - 1;
          var onClosure := dev in sessions && sessions[dev].state == Running && sessions[dev].segmentIndex >= closureIndex;
          if !onClosure {
            route.segments := DropLast(route.segments);
          }
        }
      }
      route.RecalculateDistance();
      return Success;
    }

    /** `clear_route`: refused while a session exists; otherwise forgets the route. */
    method ClearRoute(dev: string) returns (r: Response)
      modifies this
      ensures sessions == old(sessions) && emitterSet == old(emitterSet) && calls == old(calls)
      ensures old(dev in sessions) ==> r == Failure("Stop route cruise before clearing") && routes == old(routes)
      ensures old(dev !in sessions) ==> r == Success && routes == old(routes) - {dev}
    {
      if dev in sessions {
        return Failure("Stop route cruise before clearing");
      }
      routes := routes - {dev};
      return Success;
    }

    /**
     * One level of `_start_next_point_pair` on a live session: the branch
     * `FeedOnce` takes, then its writes to the session and its calls. A level
     * that goes round again has emitted its signal and nothing else; a level
     * that stops has sent its leg or finished the route.
     */
    method SequencerLevel(session: RouteSession, segs: seq<RouteSegment>, loopMode: bool, thr: real, wraps: nat) returns (s: Step)
      requires session.deviceId in sessions && sessions[session.deviceId] == session
      requires segs == session.route.segments && loopMode == session.route.loopMode
      modifies this, session
      ensures s == FeedOnce(segs, loopMode, dist, thr, old(session.CurrentProgress()), wraps)
      ensures session.CurrentProgress() == s.progress
      ensures routes == old(routes) && emitterSet == old(emitterSet)
      ensures session.speedKmh == old(session.speedKmh) && session.distanceTraveledKm == old(session.distanceTraveledKm)
      ensures s.Next? ==>
        sessions == old(sessions) && session.state == old(session.state)
        && calls == old(calls) + LevelSignalCalls(emitterSet, session.deviceId, s.signal)
      ensures s.Done? ==> calls == old(calls) + OutcomeCalls(emitterSet, session.deviceId, session.speedKmh, s.outcome)
      ensures s.Done? && s.outcome == Finished ==> session.state == Arrived && sessions == old(sessions) - {session.deviceId}
      ensures s.Done? && s.outcome != Finished ==> session.state == old(session.state) && sessions == old(sessions)
    {
      var dev := session.deviceId;
      s := FeedOnce(segs, loopMode, dist, thr, session.CurrentProgress(), wraps);
      session.MoveTo(s.progress);
      match s
      case Next(_, sig, _) =>
        if sig.Some? {
          calls := calls + Emitted(emitterSet, dev, SignalEvent(sig.value));
        }
      case Done(_, Leg(a, b)) =>
        calls := calls + [StartCruise(dev, a, b, session.speedKmh)];
      case Done(_, Finished) =>
        // the route is done
        session.state := Arrived;
        calls := calls + [RemoveArrivalCallback(dev), CleanupSession(dev)];
        sessions := sessions - {dev};
        calls := calls + Emitted(emitterSet, dev, "routeArrived");
      case Done(_, Diverged) =>
        // the source's recursion never returns here
      case Done(_, Fault) =>
        // `segments[-1]` raises on an empty route
    }

    /**
     * `_start_next_point_pair`: the session's progress, the registry and the
     * calls made are exactly what `Feed` describes for the session's route
     * and speed, with one wrap-around allowed.
     */
    method StartNextPointPair(session: RouteSession) returns (outcome: Outcome)
      requires Valid() && session.deviceId in sessions && sessions[session.deviceId] == session
      modifies this, session
      ensures Valid()
      ensures var r := Feed(session.route.segments, session.route.loopMode, dist, ArrivalThresholdKm(session.speedKmh), old(session.CurrentProgress()), 1);
        outcome == r.outcome && session.CurrentProgress() == r.progress
        && calls == old(calls) + FeedCalls(emitterSet, session.deviceId, session.speedKmh, r)
        && (r.outcome == Finished ==> session.state == Arrived && sessions == old(sessions) - {session.deviceId})
        && (r.outcome != Finished ==> session.state == old(session.state) && sessions == old(sessions))
      ensures routes == old(routes) && emitterSet == old(emitterSet)
      ensures session.speedKmh == old(session.speedKmh) && session.distanceTraveledKm == old(session.distanceTraveledKm)
    {
      outcome := FeedFrom(session, session.route.segments, session.route.loopMode, ArrivalThresholdKm(session.speedKmh), 1);
    }

    /**
     * The recursion of `_start_next_point_pair`: one level, then the same
     * again from where it left the session, until a level stops.
     */
    method FeedFrom(session: RouteSession, segs: seq<RouteSegment>, loopMode: bool, thr: real, wraps: nat) returns (outcome: Outcome)
      requires session.deviceId in sessions && sessions[session.deviceId] == session
      requires segs == session.route.segments && loopMode == session.route.loopMode
      modifies this, session
      ensures var r := Feed(segs, loopMode, dist, thr, old(session.CurrentProgress()), wraps);
        outcome == r.outcome && session.CurrentProgress() == r.progress
        && calls == old(calls) + FeedCalls(emitterSet, session.deviceId, session.speedKmh, r)
        && (r.outcome == Finished ==> session.state == Arrived && sessions == old(sessions) - {session.deviceId})
        && (r.outcome != Finished ==> session.state == old(session.state) && sessions == old(sessions))
      ensures routes == old(routes) && emitterSet == old(emitterSet)
      ensures session.speedKmh == old(session.speedKmh) && session.distanceTraveledKm == old(session.distanceTraveledKm)
      decreases wraps, session.reroute.Some?, RerouteLeft(session.CurrentProgress()),
        SegmentsLeft(segs, session.CurrentProgress()), StepsLeft(segs, session.CurrentProgress())
    {
      ghost var p := session.CurrentProgress();
      ghost var c0 := calls;
      var s := SequencerLevel(session, segs, loopMode, thr, wraps);
      if s.Done? {
        FeedStops(segs, loopMode, dist, thr, p, wraps);
        FeedCallsWhenStopped(emitterSet, session.deviceId, session.speedKmh, s.progress, s.outcome);
        return s.outcome;
      }
      FeedGoesOn(segs, loopMode, dist, thr, p, wraps);
      ghost var rest := Feed(segs, loopMode, dist, thr, s.progress, s.wraps);
      outcome := FeedFrom(session, segs, loopMode, thr, s.wraps);
      LevelThenRest(emitterSet, session.deviceId, session.speedKmh, s.signal, rest, c0, calls);
    }

    /**
     * `start_route_cruise`: needs two waypoints and a segment; replaces any
     * session of the device, stops its plain cruise, files a new running
     * session at the start of the route and feeds the first point pair.
     */
    method StartRouteCruise(dev: string, speedKmh: real) returns (r: Response)
      requires Valid()
      modifies this, if dev in sessions then {sessions[dev]} else {}
      ensures Valid() && routes == old(routes) && emitterSet == old(emitterSet)
      ensures old(dev !in routes || |routes[dev].waypoints| < 2) ==>
        r == Failure("Route needs at least 2 points") && sessions == old(sessions) && calls == old(calls)
      ensures old(dev in routes && |routes[dev].waypoints| >= 2 && |routes[dev].segments| == 0) ==>
        r == Failure("Route has no segments") && sessions == old(sessions) && calls == old(calls)
      ensures old(dev in routes && |routes[dev].waypoints| >= 2 && |routes[dev].segments| > 0) ==>
        var route := routes[dev];
        var fr := Feed(route.segments, route.loopMode, dist, ArrivalThresholdKm(speedKmh), Start, 1);
        (r == if Raises(fr.outcome) then Raised else Success)
        && (old(dev in sessions) ==> old(sessions[dev]).state == Stopped)
        && calls == old(calls) + (if old(dev in sessions) then StopCalls(emitterSet, dev) else [])
          + [StopCruise(dev)] + RunCalls(emitterSet, dev, speedKmh, fr, "routeStarted")
        && (fr.outcome == Finished ==> sessions == old(sessions) - {dev})
        && (fr.outcome != Finished ==>
          dev in sessions && sessions == old(sessions)[dev := sessions[dev]] && fresh(sessions[dev])
          && sessions[dev].route == route && sessions[dev].speedKmh == speedKmh && sessions[dev].state == Running
          && sessions[dev].CurrentProgress() == fr.progress && sessions[dev].distanceTraveledKm == 0.0)
    {
      if dev !in routes || |routes[dev].waypoints| < 2 {
        return Failure("Route needs at least 2 points");
      }
      var route := routes[dev];
      if |route.segments| == 0 {
        return Failure("Route has no segments");
      }
      if dev in sessions {
        var _ := StopRouteCruise(dev);
      }
      calls := calls + [StopCruise(dev)];
      r := Launch(dev, route, speedKmh);
    }

    /** The second half of `start_route_cruise`: a new session, its first point pair, and the start event. */
    method Launch(dev: string, route: Route, speedKmh: real) returns (r: Response)
      requires Valid()
      modifies this
      ensures Valid() && routes == old(routes) && emitterSet == old(emitterSet)
      ensures var fr := Feed(route.segments, route.loopMode, dist, ArrivalThresholdKm(speedKmh), Start, 1);
        (r == if Raises(fr.outcome) then Raised else Success)
        && calls == old(calls) + RunCalls(emitterSet, dev, speedKmh, fr, "routeStarted")
        && (fr.outcome == Finished ==> sessions == old(sessions) - {dev})
        && (fr.outcome != Finished ==>
          dev in sessions && sessions == old(sessions)[dev := sessions[dev]] && fresh(sessions[dev])
          && sessions[dev].route == route && sessions[dev].speedKmh == speedKmh && sessions[dev].state == Running
          && sessions[dev].CurrentProgress() == fr.progress && sessions[dev].distanceTraveledKm == 0.0)
    {
      var session := new RouteSession(dev, route, speedKmh);
      sessions := sessions[dev := session];
      r := Run(session, "routeStarted");
    }

    /**
     * What `start_route_cruise` and `reroute_and_resume` end with: the
     * session runs, the arrival callback is registered, the sequencer feeds
     * the next point pair, and the closing event goes out unless it raised.
     */
    method Run(session: RouteSession, event: string) returns (r: Response)
      requires Valid() && session.deviceId in sessions && sessions[session.deviceId] == session
      modifies this, session
      ensures Valid() && routes == old(routes) && emitterSet == old(emitterSet)
      ensures session.speedKmh == old(session.speedKmh) && session.distanceTraveledKm == old(session.distanceTraveledKm)
      ensures var dev := session.deviceId;
        var fr := Feed(session.route.segments, session.route.loopMode, dist, ArrivalThresholdKm(session.speedKmh), old(session.CurrentProgress()), 1);
        (r == if Raises(fr.outcome) then Raised else Success)
        && calls == old(calls) + RunCalls(emitterSet, dev, session.speedKmh, fr, event)
        && session.CurrentProgress() == fr.progress
        && (fr.outcome == Finished ==> session.state == Arrived && sessions == old(sessions) - {dev})
        && (fr.outcome != Finished ==> session.state == Running && sessions == old(sessions))
    {
      var dev := session.deviceId;
      ghost var fr := Feed(session.route.segments, session.route.loopMode, dist, ArrivalThresholdKm(session.speedKmh), session.CurrentProgress(), 1);
      AppendThree(calls, [OnArrival(dev)], FeedCalls(emitterSet, dev, session.speedKmh, fr),
        if Raises(fr.outcome) then [] else Emitted(emitterSet, dev, event));
      session.state := Running;
      calls := calls + [OnArrival(dev)];
      var outcome := StartNextPointPair(session);
      if Raises(outcome) {
        return Raised;
      }
      calls := calls + Emitted(emitterSet, dev, event);
      return Success;
    }

    /** `pause_route_cruise`: legal only from running; tells the cruise engine to pause. */
    method PauseRouteCruise(dev: string) returns (r: Response)
      modifies this, if dev in sessions then {sessions[dev]} else {}
      ensures routes == old(routes) && sessions == old(sessions) && emitterSet == old(emitterSet)
      ensures old(dev !in sessions) ==> r == Failure("No active route cruise") && calls == old(calls)
      ensures old(dev in sessions && sessions[dev].state != Running) ==>
        r == Failure("Cannot pause: route is " + RouteStateValue(old(sessions[dev].state)))
        && sessions[dev].state == old(sessions[dev].state) && calls == old(calls)
      ensures old(IsRunning(dev)) ==>
        r == Success && sessions[dev].state == Paused
        && calls == old(calls) + [PauseCruise(dev)] + Emitted(emitterSet, dev, "routeUpdate")
      ensures dev in sessions ==> sessions[dev].CurrentProgress() == old(sessions[dev].CurrentProgress())
    {
      if dev !in sessions {
        return Failure("No active route cruise");
      }
      var session := sessions[dev];
      if session.state != Running {
        return Failure("Cannot pause: route is " + RouteStateValue(session.state));
      }
      session.state := Paused;
      calls := calls + [PauseCruise(dev)];
      calls := calls + Emitted(emitterSet, dev, "routeUpdate");
      return Success;
    }

    /** `resume_route_cruise`: legal only from paused; tells the cruise engine to resume. */
    method ResumeRouteCruise(dev: string) returns (r: Response)
      modifies this, if dev in sessions then {sessions[dev]} else {}
      ensures routes == old(routes) && sessions == old(sessions) && emitterSet == old(emitterSet)
      ensures old(dev !in sessions) ==> r == Failure("No active route cruise") && calls == old(calls)
      ensures old(dev in sessions && sessions[dev].state != Paused) ==>
        r == Failure("Cannot resume: route is " + RouteStateValue(old(sessions[dev].state)))
        && sessions[dev].state == old(sessions[dev].state) && calls == old(calls)
      ensures old(dev in sessions && sessions[dev].state == Paused) ==>
        r == Success && sessions[dev].state == Running
        && calls == old(calls) + [ResumeCruise(dev)] + Emitted(emitterSet, dev, "routeUpdate")
      ensures dev in sessions ==> sessions[dev].CurrentProgress() == old(sessions[dev].CurrentProgress())
    {
      if dev !in sessions {
        return Failure("No active route cruise");
      }
      var session := sessions[dev];
      if session.state != Paused {
        return Failure("Cannot resume: route is " + RouteStateValue(session.state));
      }
      session.state := Running;
      calls := calls + [ResumeCruise(dev)];
      calls := calls + Emitted(emitterSet, dev, "routeUpdate");
      return Success;
    }

    /** `stop_route_cruise`: removes the session and stops the engine; without a session it is a successful no-op. */
    method StopRouteCruise(dev: string) returns (r: Response)
      requires Valid()
      modifies this, if dev in sessions then {sessions[dev]} else {}
      ensures Valid() && routes == old(routes) && emitterSet == old(emitterSet)
      ensures old(dev !in sessions) ==> r == Notice("No active route cruise") && sessions == old(sessions) && calls == old(calls)
      ensures old(dev in sessions) ==>
        r == Success && sessions == old(sessions) - {dev} && old(sessions[dev]).state == Stopped
        && calls == old(calls) + StopCalls(emitterSet, dev)
    {
      if dev !in sessions {
        return Notice("No active route cruise");
      }
      var session := sessions[dev];
      sessions := sessions - {dev};
      session.state := Stopped;
      calls := calls + StopCalls(emitterSet, dev);
      return Success;
    }

    /**
     * `reroute_and_resume`: legal only from paused with a segment left; the
     * router's path from `here` to the current segment's target waypoint
     * becomes the reroute path, the session runs again, and the sequencer
     * takes the reroute path first.
     */
    method RerouteAndResume(dev: string, here: Pos) returns (r: Response)
      requires Valid()
      modifies this, if dev in sessions then {sessions[dev]} else {}
      ensures Valid() && routes == old(routes) && emitterSet == old(emitterSet)
      ensures old(dev !in sessions) ==> r == Failure("No active route cruise") && sessions == old(sessions) && calls == old(calls)
      ensures old(dev in sessions && sessions[dev].state != Paused) ==>
        r == Failure("Cannot reroute: route is " + RouteStateValue(old(sessions[dev].state)))
        && sessions == old(sessions) && calls == old(calls) && sessions[dev].state == old(sessions[dev].state)
      ensures old(dev in sessions && sessions[dev].state == Paused && sessions[dev].segmentIndex >= |sessions[dev].route.segments|) ==>
        r == Failure("Route has no remaining segments") && sessions == old(sessions) && calls == old(calls)
        && sessions[dev].state == old(sessions[dev].state)
      ensures old(dev in sessions && sessions[dev].state == Paused && sessions[dev].segmentIndex < |sessions[dev].route.segments|) ==>
        var session := old(sessions[dev]);
        var segs := old(session.route.segments);
        var wps := old(session.route.waypoints);
        var target := segs[old(session.segmentIndex)].toWaypoint;
        if target >= |wps| then
          r == Raised && sessions == old(sessions) && calls == old(calls) && session.state == Paused
        else
          var p := old(session.CurrentProgress()).(reroute := Some(router(here, wps[target].pos).path), rerouteStep := 0);
          var fr := Feed(segs, old(session.route.loopMode), dist, ArrivalThresholdKm(session.speedKmh), p, 1);
          (r == if Raises(fr.outcome) then Raised else Success)
          && session.CurrentProgress() == fr.progress
          && calls == old(calls) + RunCalls(emitterSet, dev, session.speedKmh, fr, "routeUpdate")
          && (fr.outcome == Finished ==> session.state == Arrived && sessions == old(sessions) - {dev})
          && (fr.outcome != Finished ==> session.state == Running && sessions == old(sessions))
    {
      if dev !in sessions {
        return Failure("No active route cruise");
      }
      var session := sessions[dev];
      if session.state != Paused {
        return Failure("Cannot reroute: route is " + RouteStateValue(session.state));
      }
      var segs := session.route.segments;
      if session.segmentIndex >= |segs| {
        return Failure("Route has no remaining segments");
      }
      var seg := segs[session.segmentIndex];
      if seg.toWaypoint >= |session.route.waypoints| {
        // the waypoint list is indexed past its end
        return Raised;
      }
      var target := session.route.waypoints[seg.toWaypoint];
      var res := router(here, target.pos);
      session.reroute := Some(res.path);
      session.rerouteStep := 0;
      r := Run(session, "routeUpdate");
    }

    /** `set_route_speed`: raises the speed to at least 0.1 km/h and passes it to the cruise engine. */
    method SetRouteSpeed(dev: string, speedKmh: real) returns (r: Response)
      modifies if dev in sessions then {sessions[dev]} else {}, this
      ensures routes == old(routes) && sessions == old(sessions) && emitterSet == old(emitterSet)
      ensures old(dev !in sessions) ==> r == Failure("No active route cruise") && calls == old(calls)
      ensures old(dev in sessions) ==>
        r.SpeedSet? && r.speedKmh >= 0.1 && (speedKmh >= 0.1 ==> r.speedKmh == speedKmh) && (speedKmh < 0.1 ==> r.speedKmh == 0.1)
        && sessions[dev].speedKmh == r.speedKmh && sessions[dev].state == old(sessions[dev].state)
        && sessions[dev].CurrentProgress() == old(sessions[dev].CurrentProgress())
        && calls == old(calls) + [SetCruiseSpeed(dev, r.speedKmh)]
    {
      if dev !in sessions {
        return Failure("No active route cruise");
      }
      var session := sessions[dev];
      var v := if speedKmh > 0.1 then speedKmh else 0.1;
      session.speedKmh := v;
      calls := calls + [SetCruiseSpeed(dev, v)];
      return SpeedSet(v);
    }

    /**
     * `_on_point_arrival`: ignored unless the device's session is running;
     * otherwise adds the distance the cruise engine reports (0 when it
     * reports none), moves the progress on by one arrival, reports the
     * update and feeds the next point pair.
     */
    method OnPointArrival(dev: string, traveledKm: Option<real>) returns (r: Response)
      requires Valid()
      modifies this, if dev in sessions then {sessions[dev]} else {}
      ensures Valid() && routes == old(routes) && emitterSet == old(emitterSet)
      ensures !old(IsRunning(dev)) ==>
        r == Success && sessions == old(sessions) && calls == old(calls)
        && (dev in sessions ==> sessions[dev].state == old(sessions[dev].state) && sessions[dev].CurrentProgress() == old(sessions[dev].CurrentProgress()))
      ensures old(IsRunning(dev)) ==>
        var session := old(sessions[dev]);
        var fr := Feed(session.route.segments, session.route.loopMode, dist, ArrivalThresholdKm(old(session.speedKmh)),
          Arrive(old(session.CurrentProgress())), 1);
        (r == if Raises(fr.outcome) then Raised else Success)
        && session.distanceTraveledKm == old(session.distanceTraveledKm) + traveledKm.GetOr(0.0)
        && session.CurrentProgress() == fr.progress && session.speedKmh == old(session.speedKmh)
        && calls == old(calls) + Emitted(emitterSet, dev, "routeUpdate") + FeedCalls(emitterSet, dev, session.speedKmh, fr)
        && (fr.outcome == Finished ==> session.state == Arrived && sessions == old(sessions) - {dev})
        && (fr.outcome != Finished ==> session.state == Running && sessions == old(sessions))
    {
      if dev !in sessions || sessions[dev].state != Running {
        return Success;
      }
      var session := sessions[dev];
      session.distanceTraveledKm := session.distanceTraveledKm + traveledKm.GetOr(0.0);
      session.MoveTo(Arrive(session.CurrentProgress()));
      calls := calls + Emitted(emitterSet, dev, "routeUpdate");
      var outcome := StartNextPointPair(session);
      r := if Raises(outcome) then Raised else Success;
    }
  }
}
