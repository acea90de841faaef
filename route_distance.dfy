/**
 * Properties of `remaining_distance_km` and `recalculate_distance`.
 */
module RouteDistance {
  import opened Geo
  import opened RouteModel

  /** The length of what is left of a polyline is never negative. */
  lemma {:induction false} PathLengthNonNegative(dist: Distance, path: seq<Pos>, from: nat)
    ensures PathLength(dist, path, from) >= 0.0
    decreases |path| - from
  {
    if from + 1 < |path| {
      PathLengthNonNegative(dist, path, from + 1);
    }
  }

  /** A sum of router distances, none negative, is never negative. */
  lemma {:induction false} SegmentsDistanceNonNegative(segs: seq<RouteSegment>, from: nat)
    requires forall i :: 0 <= i < |segs| ==> segs[i].distanceKm >= 0.0
    ensures SegmentsDistance(segs, from) >= 0.0
    decreases |segs| - from
  {
    if from < |segs| {
      SegmentsDistanceNonNegative(segs, from + 1);
    }
  }

  /** The remaining distance is never negative, and nothing remains past the last segment. */
  lemma RemainingNonNegative(dist: Distance, segs: seq<RouteSegment>, p: Progress)
    requires forall i :: 0 <= i < |segs| ==> segs[i].distanceKm >= 0.0
    ensures RemainingDistance(dist, segs, p) >= 0.0
    ensures p.segmentIndex >= |segs| ==> RemainingDistance(dist, segs, p) == 0.0
  {
    if p.segmentIndex < |segs| {
      PathLengthNonNegative(dist, segs[p.segmentIndex].path, p.step);
      SegmentsDistanceNonNegative(segs, p.segmentIndex + 1);
    }
  }

  /** An arrival on the route's own polyline never increases the remaining distance. */
  lemma RemainingShrinksOnArrival(dist: Distance, segs: seq<RouteSegment>, p: Progress)
    requires !p.isBridging && p.reroute.None?
    ensures RemainingDistance(dist, segs, Arrive(p)) <= RemainingDistance(dist, segs, p)
  {
    if p.segmentIndex < |segs| {
      var path := segs[p.segmentIndex].path;
      if p.step + 1 < |path| {
        PathLengthNonNegative(dist, path, p.step + 1);
      }
    }
  }

  /**
   * At the start the remaining distance is the whole first polyline plus the
   * router's distance of every later segment.
   */
  lemma RemainingAtStart(dist: Distance, segs: seq<RouteSegment>)
    requires |segs| > 0
    ensures RemainingDistance(dist, segs, Start) == PathLength(dist, segs[0].path, 0) + SegmentsDistance(segs, 1)
  {
  }
}
