/**
 * What route editing does to the shape of a route: every edit keeps a
 * canonical route canonical, undo takes back an add, and the one way out
 * of the canonical shapes (a closure kept after loop mode was switched off
 * mid-closure) is never repaired by later edits.
 */
module RouteShape {
  import opened Geo
  import opened RouteModel
  import Text

  /** A route's segments are its regular segments followed, in loop mode, by the closure. */
  lemma ExpectedSplit(router: Router, wps: seq<Waypoint>, loopMode: bool)
    ensures ExpectedSegments(router, wps, loopMode)
      == ExpectedSegments(router, wps, false) + (if loopMode && |wps| >= 2 then [ClosureSegment(router, wps)] else [])
  {
  }

  /** The regular segments never end with a closure. */
  lemma RegularsEndRegular(router: Router, wps: seq<Waypoint>)
    ensures !EndsWithClosure(ExpectedSegments(router, wps, false))
  {
  }

  /** Adding a point to a canonical route gives the canonical route of the longer waypoint list. */
  lemma AddKeepsCanonical(router: Router, wps: seq<Waypoint>, segs: seq<RouteSegment>, loopMode: bool, p: Pos)
    requires Canonical(router, wps, segs, loopMode)
    ensures var e := AddPoint(router, wps, segs, loopMode, p); Canonical(router, e.waypoints, e.segments, loopMode)
  {
    var e := AddPoint(router, wps, segs, loopMode, p);
    if |wps| > 0 {
      var n := |wps|;
      ExpectedSplit(router, wps, loopMode);
      RegularsEndRegular(router, wps);
      assert e.waypoints[..n] == wps;
      assert RegularSegment(router, e.waypoints, n - 1).path == router(wps[n - 1].pos, p).path;
    }
  }

  /** Undoing on a canonical route gives the canonical route of the shorter waypoint list. */
  lemma UndoKeepsCanonical(router: Router, wps: seq<Waypoint>, segs: seq<RouteSegment>, loopMode: bool)
    requires |wps| >= 2 && Canonical(router, wps, segs, loopMode)
    ensures var e := UndoPoint(router, wps, segs, loopMode); Canonical(router, e.waypoints, e.segments, loopMode)
  {
    var w := DropLast(wps);
    ExpectedSplit(router, wps, loopMode);
    ExpectedSplit(router, w, loopMode);
    RegularsEndRegular(router, wps);
    assert wps[..|wps| - 1] == w;
  }

  /** `undo_waypoint` takes back `add_waypoint` on a canonical route with a START. */
  lemma UndoAfterAdd(router: Router, wps: seq<Waypoint>, segs: seq<RouteSegment>, loopMode: bool, p: Pos)
    requires |wps| >= 1 && Canonical(router, wps, segs, loopMode)
    ensures var e := AddPoint(router, wps, segs, loopMode, p);
      UndoPoint(router, e.waypoints, e.segments, loopMode) == Edit(wps, segs)
  {
    var e := AddPoint(router, wps, segs, loopMode, p);
    AddKeepsCanonical(router, wps, segs, loopMode, p);
    UndoKeepsCanonical(router, e.waypoints, e.segments, loopMode);
    assert DropLast(e.waypoints) == wps;
  }

  /** Adding and undoing keep the names START, "1", "2", ... */
  lemma EditsKeepNames(router: Router, wps: seq<Waypoint>, segs: seq<RouteSegment>, loopMode: bool, p: Pos)
    requires WellNamed(wps)
    ensures WellNamed(AddPoint(router, wps, segs, loopMode, p).waypoints)
    ensures |wps| >= 2 ==> WellNamed(UndoPoint(router, wps, segs, loopMode).waypoints)
  {
    var w := AddPoint(router, wps, segs, loopMode, p).waypoints;
    if |wps| > 0 {
      assert w == wps + [Waypoint(p, Text.NatToString(|wps|))];
      assert forall i :: 1 <= i < |wps| ==> w[i] == wps[i];
    }
    if |wps| >= 2 {
      var u := UndoPoint(router, wps, segs, loopMode).waypoints;
      assert forall i :: 0 <= i < |u| ==> u[i] == wps[i];
    }
  }

  /**
   * Switching loop mode on or off makes a canonical route, or one whose
   * closure was kept, canonical for the new mode, except that switching it
   * off while a running session is on the closure keeps the closure.
   */
  lemma SetLoopShape(router: Router, wps: seq<Waypoint>, segs: seq<RouteSegment>, loopMode: bool, enabled: bool, onClosure: bool)
    requires Canonical(router, wps, segs, loopMode) || ClosureKept(router, wps, segs, loopMode)
    ensures var s := SetLoop(router, wps, segs, enabled, onClosure);
      if !enabled && onClosure && EndsWithClosure(segs) then ClosureKept(router, wps, s, enabled)
      else Canonical(router, wps, s, enabled)
  {
    ExpectedSplit(router, wps, true);
    ExpectedSplit(router, wps, loopMode);
    RegularsEndRegular(router, wps);
  }

  /**
   * Undo on a route whose closure was kept removes the closure in place of
   * the last regular segment, so the route keeps a segment leading to the
   * waypoint that was just removed.
   */
  lemma UndoAfterClosureKeptDangles(router: Router, wps: seq<Waypoint>, segs: seq<RouteSegment>)
    requires ClosureKept(router, wps, segs, false)
    ensures var e := UndoPoint(router, wps, segs, false);
      |e.segments| == |e.waypoints| && e.segments[|e.segments| - 1].toWaypoint == |e.waypoints|
  {
    ExpectedSplit(router, wps, true);
  }

  /**
   * Adding a point to a route whose closure was kept leaves the closure in the
   * middle of the route: the result has neither canonical shape.
   */
  lemma AddAfterClosureKeptBreaksShape(router: Router, wps: seq<Waypoint>, segs: seq<RouteSegment>, p: Pos)
    requires ClosureKept(router, wps, segs, false)
    ensures var e := AddPoint(router, wps, segs, false, p);
      !Canonical(router, e.waypoints, e.segments, false) && !ClosureKept(router, e.waypoints, e.segments, false)
      && e.segments[|wps| - 1].isClosure
  {
    var e := AddPoint(router, wps, segs, false, p);
    ExpectedSplit(router, wps, true);
    assert e.segments[|wps| - 1] == ClosureSegment(router, wps);
    ExpectedSplit(router, e.waypoints, true);
    RegularsEndRegular(router, e.waypoints);
    assert ExpectedSegments(router, e.waypoints, false)[|wps| - 1] == RegularSegment(router, e.waypoints, |wps| - 1)
      by { assert e.waypoints[..|e.waypoints| - 1] == wps; }
  }

  /** Every segment of a canonical route comes from the router, so its distance is never negative. */
  lemma ExpectedDistancesNonNegative(router: Router, wps: seq<Waypoint>, loopMode: bool)
    ensures var segs := ExpectedSegments(router, wps, loopMode);
      forall i :: 0 <= i < |segs| ==> segs[i].distanceKm >= 0.0
    decreases |wps|
  {
    if |wps| >= 2 {
      ExpectedDistancesNonNegative(router, wps[..|wps| - 1], false);
    }
  }
}
