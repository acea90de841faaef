/**
 * Geographic positions and the distance function the services use.
 *
 * Haversine and destination-point trigonometry are not modelled: the distance
 * is an abstract function constrained only by what the services rely on.
 */
module Geo {

  /** A WGS84 position in degrees. */
  datatype Pos = Pos(lat: real, lng: real)

  /** A polyline as the router returns it: never empty. */
  type Path = p: seq<Pos> | |p| >= 1 witness [Pos(0.0, 0.0)]

  /** A great-circle distance in kilometres: never negative, zero from a point to itself. */
  type Distance = d: (Pos, Pos) -> real
    | (forall a: Pos, b: Pos :: d(a, b) >= 0.0) && (forall a: Pos :: d(a, a) == 0.0)
    witness (a: Pos, b: Pos) => 0.0

  /** The last point of a path (Python's `path[-1]`). */
  function Last(p: Path): Pos
  {
    p[|p| - 1]
  }
}
