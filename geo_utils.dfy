/** The geographic position type and the geodesy primitives that the race
    logic calls.

    The primitives (destination point, distance, angle difference, segment
    intersection) are spherical trigonometry whose code is not part of this
    model. They are therefore not defined here: a `Geodesy` value bundles four
    arbitrary total functions, and every operation of the race logic takes one
    as its first argument. Whatever is proved about the race logic thus holds
    for every implementation of the primitives. */
module GeoUtils {

  /** A latitude/longitude pair in degrees. */
  datatype Coordinate = Coordinate(lat: real, lng: real)

  /** The four primitives the race logic is built from.
      - destinationPoint(origin, distanceMeters, bearingDegrees): the point reached
        from origin after distanceMeters on the given compass bearing;
      - distance(a, b): the distance between two points, in meters;
      - angleDiff(a, b): the shortest angular difference of two headings, in degrees;
      - lineIntersection(p1, p2, q1, q2): whether segment p1-p2 crosses segment q1-q2. */
  datatype Geodesy = Geodesy(
    destinationPoint: (Coordinate, real, real) -> Coordinate,
    distance: (Coordinate, Coordinate) -> real,
    angleDiff: (real, real) -> real,
    lineIntersection: (Coordinate, Coordinate, Coordinate, Coordinate) -> bool)
}
