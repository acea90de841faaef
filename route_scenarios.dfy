/**
 * Whole runs of a route session, arrival by arrival.
 */
module RouteScenarios {
  import opened Wrappers
  import opened Geo
  import opened RouteModel

  /**
   * A session started on `segs` after `arrivals` reported arrivals: the
   * sequencer is fed once at the start and once after every arrival, for as
   * long as it keeps handing out legs.
   */
  function Run(segs: seq<RouteSegment>, loopMode: bool, dist: Distance, thr: real, arrivals: nat): FeedResult
  {
    if arrivals == 0 then Feed(segs, loopMode, dist, thr, Start, 1)
    else
      var prev := Run(segs, loopMode, dist, thr, arrivals - 1);
      if prev.outcome.Leg? then Feed(segs, loopMode, dist, thr, Arrive(prev.progress), 1) else prev
  }

  /** Three points, each pair of them at least `thr` apart. */
  predicate Spread(dist: Distance, thr: real, a: Pos, b: Pos, c: Pos)
  {
    dist(a, b) >= thr && dist(b, c) >= thr && dist(c, a) >= thr
  }

  /** A pair of a polyline driven as a leg, with the progress unchanged. */
  lemma PairFeed(segs: seq<RouteSegment>, loopMode: bool, dist: Distance, thr: real, a: Pos, b: Pos, c: Pos, i: nat, s: nat, done: nat, loops: nat)
    requires i < |segs| && segs[i].path == [a, b, c] && s < 2
    requires Spread(dist, thr, a, b, c)
    ensures var p := Progress(i, s, done, loops, None, false, None, 0);
      Feed(segs, loopMode, dist, thr, p, 1) == FeedResult(p, Leg(segs[i].path[s], segs[i].path[s + 1]), [])
  {
    var p := Progress(i, s, done, loops, None, false, None, 0);
    assert FeedOnce(segs, loopMode, dist, thr, p, 1) == Done(p, Leg(segs[i].path[s], segs[i].path[s + 1]));
    FeedStops(segs, loopMode, dist, thr, p, 1);
  }

  /** The last pair of a segment followed by another: a completed segment and the bridge into the next one. */
  lemma NextFeed(segs: seq<RouteSegment>, loopMode: bool, dist: Distance, thr: real, a: Pos, b: Pos, c: Pos, i: nat)
    requires i + 1 < |segs| && segs[i].path == [a, b, c] && segs[i + 1].path == [a, b, c]
    requires dist(c, a) >= thr
    ensures Feed(segs, loopMode, dist, thr, Progress(i, 2, i, 0, None, false, None, 0), 1)
         == FeedResult(Progress(i + 1, 0, i + 1, 0, None, true, None, 0), Leg(c, a), [SegmentComplete])
  {
    var p := Progress(i, 2, i, 0, None, false, None, 0);
    var q := Progress(i + 1, 0, i + 1, 0, Some(c), false, None, 0);
    assert FeedOnce(segs, loopMode, dist, thr, p, 1) == Next(q, Some(SegmentComplete), 1);
    FeedGoesOn(segs, loopMode, dist, thr, p, 1);
    assert FeedOnce(segs, loopMode, dist, thr, q, 1) == Done(q.(bridgeFrom := None, isBridging := true), Leg(c, a));
    FeedStops(segs, loopMode, dist, thr, q, 1);
  }

  /** The last pair of the last segment without loop mode: a completed segment, then the arrival. */
  lemma FinishFeed(segs: seq<RouteSegment>, dist: Distance, thr: real, a: Pos, b: Pos, c: Pos)
    requires |segs| >= 1 && segs[|segs| - 1].path == [a, b, c]
    ensures var n := |segs|;
      Feed(segs, false, dist, thr, Progress(n - 1, 2, n - 1, 0, None, false, None, 0), 1)
      == FeedResult(Progress(n, 0, n, 0, Some(c), false, None, 0), Finished, [SegmentComplete])
  {
    var n := |segs|;
    var p := Progress(n - 1, 2, n - 1, 0, None, false, None, 0);
    var q := Progress(n, 0, n, 0, Some(c), false, None, 0);
    assert FeedOnce(segs, false, dist, thr, p, 1) == Next(q, Some(SegmentComplete), 1);
    FeedGoesOn(segs, false, dist, thr, p, 1);
    FeedStops(segs, false, dist, thr, q, 1);
  }

  /** The last pair of the last loop segment: a completed segment, a completed loop, the bridge home. */
  lemma WrapFeed(segs: seq<RouteSegment>, dist: Distance, thr: real, a: Pos, b: Pos, c: Pos)
    requires |segs| >= 2 && segs[|segs| - 1].path == [a, b, c] && segs[0].path == [a, b, c]
    requires dist(c, a) >= thr
    ensures Feed(segs, true, dist, thr, Progress(|segs| - 1, 2, |segs| - 1, 0, None, false, None, 0), 1)
         == FeedResult(Progress(0, 0, |segs|, 1, None, true, None, 0), Leg(c, a), [SegmentComplete, LoopComplete])
  {
    var n := |segs|;
    var p := Progress(n - 1, 2, n - 1, 0, None, false, None, 0);
    var q := Progress(n, 0, n, 0, Some(c), false, None, 0);
    var w := Progress(0, 0, n, 1, Some(c), false, None, 0);
    assert FeedOnce(segs, true, dist, thr, p, 1) == Next(q, Some(SegmentComplete), 1);
    FeedGoesOn(segs, true, dist, thr, p, 1);
    assert Last(segs[n - 1].path) == c;
    assert FeedOnce(segs, true, dist, thr, q, 1) == Next(w, Some(LoopComplete), 0);
    FeedGoesOn(segs, true, dist, thr, q, 1);
    assert FeedOnce(segs, true, dist, thr, w, 0) == Done(w.(bridgeFrom := None, isBridging := true), Leg(c, a));
    FeedStops(segs, true, dist, thr, w, 0);
    assert [SegmentComplete] + ([LoopComplete] + []) == [SegmentComplete, LoopComplete];
  }

  /**
   * Two segments with the same three-point polyline and no loop: the session
   * drives two pairs of the first segment, bridges back to the start, drives
   * two pairs of the second, and arrives on the fifth arrival after two
   * completed segments.
   */
  lemma TwoSegmentsArriveOnFifthArrival(segs: seq<RouteSegment>, dist: Distance, thr: real, a: Pos, b: Pos, c: Pos)
    requires |segs| == 2 && segs[0].path == [a, b, c] && segs[1].path == [a, b, c]
    requires Spread(dist, thr, a, b, c)
    ensures Run(segs, false, dist, thr, 0).outcome == Leg(a, b)
    ensures Run(segs, false, dist, thr, 1).outcome == Leg(b, c)
    ensures Run(segs, false, dist, thr, 2).outcome == Leg(c, a)
    ensures Run(segs, false, dist, thr, 3).outcome == Leg(a, b)
    ensures Run(segs, false, dist, thr, 4).outcome == Leg(b, c)
    ensures Run(segs, false, dist, thr, 5).outcome == Finished
    ensures Run(segs, false, dist, thr, 5).progress.segmentsCompleted == 2
  {
    PairFeed(segs, false, dist, thr, a, b, c, 0, 0, 0, 0);
    assert Start == Progress(0, 0, 0, 0, None, false, None, 0);
    assert Run(segs, false, dist, thr, 0) == FeedResult(Start, Leg(a, b), []);
    PairFeed(segs, false, dist, thr, a, b, c, 0, 1, 0, 0);
    assert Run(segs, false, dist, thr, 1) == FeedResult(Progress(0, 1, 0, 0, None, false, None, 0), Leg(b, c), []);
    NextFeed(segs, false, dist, thr, a, b, c, 0);
    assert Run(segs, false, dist, thr, 2) == FeedResult(Progress(1, 0, 1, 0, None, true, None, 0), Leg(c, a), [SegmentComplete]);
    PairFeed(segs, false, dist, thr, a, b, c, 1, 0, 1, 0);
    assert Run(segs, false, dist, thr, 3) == FeedResult(Progress(1, 0, 1, 0, None, false, None, 0), Leg(a, b), []);
    PairFeed(segs, false, dist, thr, a, b, c, 1, 1, 1, 0);
    assert Run(segs, false, dist, thr, 4) == FeedResult(Progress(1, 1, 1, 0, None, false, None, 0), Leg(b, c), []);
    FinishFeed(segs, dist, thr, a, b, c);
  }

  /** The first segment of a loop: two pairs, then the bridge into the second segment. */
  lemma LoopFirstSegment(segs: seq<RouteSegment>, dist: Distance, thr: real, a: Pos, b: Pos, c: Pos)
    requires |segs| >= 2 && segs[0].path == [a, b, c] && segs[1].path == [a, b, c]
    requires Spread(dist, thr, a, b, c)
    ensures Run(segs, true, dist, thr, 1).outcome == Leg(b, c)
    ensures Run(segs, true, dist, thr, 2) == FeedResult(Progress(1, 0, 1, 0, None, true, None, 0), Leg(c, a), [SegmentComplete])
  {
    PairFeed(segs, true, dist, thr, a, b, c, 0, 0, 0, 0);
    assert Start == Progress(0, 0, 0, 0, None, false, None, 0);
    assert Run(segs, true, dist, thr, 0) == FeedResult(Start, Leg(a, b), []);
    PairFeed(segs, true, dist, thr, a, b, c, 0, 1, 0, 0);
    assert Run(segs, true, dist, thr, 1) == FeedResult(Progress(0, 1, 0, 0, None, false, None, 0), Leg(b, c), []);
    NextFeed(segs, true, dist, thr, a, b, c, 0);
  }

  /**
   * Three segments with the same three-point polyline in loop mode: after
   * nine arrivals the session has finished one loop, is back on the first
   * segment and is still driving.
   */
  lemma LoopOfThreeContinuesAfterNineArrivals(segs: seq<RouteSegment>, dist: Distance, thr: real, a: Pos, b: Pos, c: Pos)
    requires |segs| == 3 && segs[0].path == [a, b, c] && segs[1].path == [a, b, c] && segs[2].path == [a, b, c]
    requires Spread(dist, thr, a, b, c)
    ensures Run(segs, true, dist, thr, 7).progress.loopsCompleted == 0
    ensures Run(segs, true, dist, thr, 8).outcome == Leg(c, a)
    ensures Run(segs, true, dist, thr, 8).signals == [SegmentComplete, LoopComplete]
    ensures Run(segs, true, dist, thr, 9).outcome == Leg(a, b)
    ensures Run(segs, true, dist, thr, 9).progress.segmentIndex == 0
    ensures Run(segs, true, dist, thr, 9).progress.loopsCompleted == 1
    ensures Run(segs, true, dist, thr, 9).progress.segmentsCompleted == 3
  {
    LoopFirstSegment(segs, dist, thr, a, b, c);
    PairFeed(segs, true, dist, thr, a, b, c, 1, 0, 1, 0);
    assert Run(segs, true, dist, thr, 3) == FeedResult(Progress(1, 0, 1, 0, None, false, None, 0), Leg(a, b), []);
    PairFeed(segs, true, dist, thr, a, b, c, 1, 1, 1, 0);
    assert Run(segs, true, dist, thr, 4) == FeedResult(Progress(1, 1, 1, 0, None, false, None, 0), Leg(b, c), []);
    NextFeed(segs, true, dist, thr, a, b, c, 1);
    assert Run(segs, true, dist, thr, 5) == FeedResult(Progress(2, 0, 2, 0, None, true, None, 0), Leg(c, a), [SegmentComplete]);
    PairFeed(segs, true, dist, thr, a, b, c, 2, 0, 2, 0);
    assert Run(segs, true, dist, thr, 6) == FeedResult(Progress(2, 0, 2, 0, None, false, None, 0), Leg(a, b), []);
    PairFeed(segs, true, dist, thr, a, b, c, 2, 1, 2, 0);
    assert Run(segs, true, dist, thr, 7) == FeedResult(Progress(2, 1, 2, 0, None, false, None, 0), Leg(b, c), []);
    WrapFeed(segs, dist, thr, a, b, c);
    assert Run(segs, true, dist, thr, 8) == FeedResult(Progress(0, 0, 3, 1, None, true, None, 0), Leg(c, a), [SegmentComplete, LoopComplete]);
    var p := Progress(0, 0, 3, 1, None, false, None, 0);
    assert Arrive(Run(segs, true, dist, thr, 8).progress) == p;
    PairFeed(segs, true, dist, thr, a, b, c, 0, 0, 3, 1);
  }

  /**
   * A two-waypoint loop (one segment and its closure, both with the same
   * polyline): the fifth arrival completes a loop, and the session goes on.
   */
  lemma TwoPointLoopCompletesOnFifthArrival(segs: seq<RouteSegment>, dist: Distance, thr: real, a: Pos, b: Pos, c: Pos)
    requires |segs| == 2 && segs[0].path == [a, b, c] && segs[1].path == [a, b, c]
    requires Spread(dist, thr, a, b, c)
    ensures Run(segs, true, dist, thr, 4).progress.loopsCompleted == 0
    ensures Run(segs, true, dist, thr, 5).signals == [SegmentComplete, LoopComplete]
    ensures Run(segs, true, dist, thr, 5).progress.loopsCompleted == 1
    ensures Run(segs, true, dist, thr, 5).outcome == Leg(c, a)
  {
    LoopFirstSegment(segs, dist, thr, a, b, c);
    PairFeed(segs, true, dist, thr, a, b, c, 1, 0, 1, 0);
    assert Run(segs, true, dist, thr, 3) == FeedResult(Progress(1, 0, 1, 0, None, false, None, 0), Leg(a, b), []);
    PairFeed(segs, true, dist, thr, a, b, c, 1, 1, 1, 0);
    assert Run(segs, true, dist, thr, 4) == FeedResult(Progress(1, 1, 1, 0, None, false, None, 0), Leg(b, c), []);
    WrapFeed(segs, dist, thr, a, b, c);
  }
}
