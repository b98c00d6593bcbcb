/** Coordinates, map viewport regions and route shaping of the map screen.
    Coordinates are mathematical reals: the screen does no arithmetic on
    them, it only copies them between records. */
module Geo {

  /** A `{latitude, longitude}` record. */
  datatype LatLng = LatLng(latitude: real, longitude: real)

  /** A map viewport: a centre plus the angular span shown around it. */
  datatype Region = Region(latitude: real, longitude: real, latitudeDelta: real, longitudeDelta: real)
  {
    function Center(): LatLng
    {
      LatLng(latitude, longitude)
    }
  }

  /** The fixed vertical span of every region the screen builds. */
  const LATITUDE_DELTA: real := 0.0922

  /** The region centred on a device position; `longitudeDelta` is the
      screen-dependent horizontal span (the latitude span times the
      window's aspect ratio). */
  function RegionAt(at: LatLng, longitudeDelta: real): (r: Region)
    ensures r.Center() == at
    ensures r.latitudeDelta == LATITUDE_DELTA && r.longitudeDelta == longitudeDelta
  {
    Region(at.latitude, at.longitude, LATITUDE_DELTA, longitudeDelta)
  }

  /** A region carries the fixed spans when it could have come from `RegionAt`. */
  predicate HasFixedSpan(r: Region, longitudeDelta: real)
  {
    r.latitudeDelta == LATITUDE_DELTA && r.longitudeDelta == longitudeDelta
  }

  /** The spans do not depend on the position, and the region is exactly
      determined by its centre: building a region from the centre of a
      fixed-span region gives that region back. */
  lemma RegionCenterRoundTrip(r: Region, longitudeDelta: real)
    ensures HasFixedSpan(r, longitudeDelta) <==> RegionAt(r.Center(), longitudeDelta) == r
  {
  }

  /** Two positions give the same region exactly when they are the same position. */
  lemma RegionAtInjective(a: LatLng, b: LatLng, longitudeDelta: real)
    ensures RegionAt(a, longitudeDelta) == RegionAt(b, longitudeDelta) <==> a == b
  {
  }

  /** The marker position: `{latitude: 0, longitude: 0}` before the first
      fix, and afterwards the very region object of that fix (deltas
      included, which the marker ignores). */
  datatype MarkerPosition = Bare(lat: real, lng: real) | OfRegion(region: Region)
  {
    function Coordinate(): LatLng
    {
      match this
      case Bare(lat, lng) => LatLng(lat, lng)
      case OfRegion(r) => r.Center()
    }
  }

  /** `points.map(point => ({latitude: point[0], longitude: point[1]}))`:
      decoded `[lat, lng]` pairs become coordinate records, one per pair,
      in the same order. */
  function ShapeRoute(points: seq<(real, real)>): (coords: seq<LatLng>)
    ensures |coords| == |points|
    ensures forall i :: 0 <= i < |points| ==>
      coords[i].latitude == points[i].0 && coords[i].longitude == points[i].1
  {
    if |points| == 0 then []
    else [LatLng(points[0].0, points[0].1)] + ShapeRoute(points[1..])
  }

  /** The pairs a list of coordinate records was shaped from. */
  function Unshape(coords: seq<LatLng>): (points: seq<(real, real)>)
    ensures |points| == |coords|
    ensures forall i :: 0 <= i < |coords| ==>
      points[i].0 == coords[i].latitude && points[i].1 == coords[i].longitude
  {
    if |coords| == 0 then []
    else [(coords[0].latitude, coords[0].longitude)] + Unshape(coords[1..])
  }

  /** Shaping loses nothing: it is undone by `Unshape`, in both directions. */
  lemma ShapeRouteRoundTrip(points: seq<(real, real)>, coords: seq<LatLng>)
    ensures Unshape(ShapeRoute(points)) == points
    ensures ShapeRoute(Unshape(coords)) == coords
  {
  }

  /** Shaping respects concatenation: a prefix of the route shapes to a
      prefix of the coordinates, so order is kept and nothing is merged. */
  lemma ShapeRouteAppend(a: seq<(real, real)>, b: seq<(real, real)>)
    ensures ShapeRoute(a + b) == ShapeRoute(a) + ShapeRoute(b)
  {
  }
}
