/** The session state of the map screen component and one pure transition
    per event that writes it.  Every event is one atomic transition; the
    network, the location source and the polyline decoder are inputs. */
module MapScreen {

  import opened Wrappers
  import opened Geo
  import Destination

  /** A food-search business as the screen reads it: its coordinates. */
  datatype YelpBusiness = YelpBusiness(coordinates: LatLng)

  /** A fuel-search place as the screen reads it: location, name and the
      optional price. */
  datatype GasPlace = GasPlace(location: LatLng, name: string, price: Option<string>)

  /** The component state: the map's region, the user's marker, the two
      provider marker lists, the destination text and the route. */
  datatype State = State(
    initialPosition: Region,
    markerPosition: MarkerPosition,
    yelpMarkers: seq<YelpBusiness>,
    gasMarkers: seq<GasPlace>,
    destinationLoc: string,
    coords: seq<LatLng>)

  /** The state the constructor sets up: zero region, marker at (0, 0),
      no markers, no destination text, no route. */
  function Initial(): (s: State)
    ensures s.initialPosition.Center() == LatLng(0.0, 0.0)
    ensures s.initialPosition.latitudeDelta == 0.0 && s.initialPosition.longitudeDelta == 0.0
    ensures s.markerPosition.Coordinate() == LatLng(0.0, 0.0) && s.markerPosition.Bare?
    ensures s.yelpMarkers == [] && s.gasMarkers == [] && s.coords == []
    ensures s.destinationLoc == ""
  {
    State(Region(0.0, 0.0, 0.0, 0.0), Bare(0.0, 0.0), [], [], "", [])
  }

  /** A position from the watch subscription: the region and the marker
      both become the region centred on the new position; nothing else
      changes. */
  function OnPosition(s: State, at: LatLng, longitudeDelta: real): (r: State)
    ensures r.initialPosition.Center() == at
    ensures HasFixedSpan(r.initialPosition, longitudeDelta)
    ensures r.markerPosition == OfRegion(r.initialPosition)
    ensures r.markerPosition.Coordinate() == at
    ensures r.yelpMarkers == s.yelpMarkers && r.gasMarkers == s.gasMarkers
    ensures r.destinationLoc == s.destinationLoc && r.coords == s.coords
  {
    var region := RegionAt(at, longitudeDelta);
    s.(initialPosition := region, markerPosition := OfRegion(region))
  }

  /** The one-shot startup fix: on success the same update as a watched
      position; on failure the user is alerted and the state is kept. */
  function OnInitialFix(s: State, fix: Option<LatLng>, longitudeDelta: real): (r: State)
    ensures fix.None? ==> r == s
    ensures fix.Some? ==>
      r.initialPosition.Center() == fix.value &&
      HasFixedSpan(r.initialPosition, longitudeDelta) &&
      r.markerPosition == OfRegion(r.initialPosition)
    ensures r.yelpMarkers == s.yelpMarkers && r.gasMarkers == s.gasMarkers
    ensures r.destinationLoc == s.destinationLoc && r.coords == s.coords
  {
    match fix
    case None => s
    case Some(at) =>
      var initialRegion := Region(at.latitude, at.longitude, LATITUDE_DELTA, longitudeDelta);
      s.(initialPosition := initialRegion, markerPosition := OfRegion(initialRegion))
  }

  /** A successful food-search response body: `data.businesses`. */
  datatype YelpReply = YelpReply(businesses: seq<YelpBusiness>)

  /** A successful fuel-search response body: `data.results`. */
  datatype GasReply = GasReply(results: seq<GasPlace>)

  /** The joint settlement of the two provider requests.  A request that
      failed settles as `None` (its own `.catch` returns `undefined`).  The
      state is written only when both succeeded, and then both lists are
      replaced from the replies; if either failed, reading `.data` of
      `undefined` throws before the state is written, the throw is
      swallowed, and nothing changes. */
  function OnProviders(s: State, yelp: Option<YelpReply>, gas: Option<GasReply>): (r: State)
    ensures yelp.Some? && gas.Some? ==>
      r.yelpMarkers == yelp.value.businesses && r.gasMarkers == gas.value.results
    ensures yelp.None? || gas.None? ==> r == s
    ensures r.initialPosition == s.initialPosition && r.markerPosition == s.markerPosition
    ensures r.destinationLoc == s.destinationLoc && r.coords == s.coords
  {
    match (yelp, gas)
    case (Some(y), Some(g)) => s.(yelpMarkers := y.businesses, gasMarkers := g.results)
    case _ => s
  }

  /** A destination edit in the search box assigns the text and nothing else. */
  function OnDestinationEdit(s: State, text: string): (r: State)
    ensures r.destinationLoc == text
    ensures r.initialPosition == s.initialPosition && r.markerPosition == s.markerPosition
    ensures r.yelpMarkers == s.yelpMarkers && r.gasMarkers == s.gasMarkers
    ensures r.coords == s.coords
  {
    s.(destinationLoc := text)
  }

  /** What a directions request asks for: the marker's coordinate as the
      origin and the normalised destination text. */
  datatype DirectionsQuery = DirectionsQuery(origin: LatLng, destination: string)

  /** The query values `getDirections` puts into the directions request. */
  function QueryOf(s: State): (q: DirectionsQuery)
    ensures q.origin == s.markerPosition.Coordinate()
    ensures |q.destination| == |s.destinationLoc|
    ensures ' ' !in q.destination
    ensures forall i :: 0 <= i < |q.destination| ==>
      q.destination[i] == (if s.destinationLoc[i] == ' ' then '+' else s.destinationLoc[i])
  {
    DirectionsQuery(s.markerPosition.Coordinate(), Destination.DestinationParser(s.destinationLoc))
  }

  /** How a directions request settled: the request failed, or it returned
      the encoded overview polylines of its routes, in order. */
  datatype DirectionsReply = RequestFailed | Routes(overviews: seq<string>)

  /** The route the screen draws for a reply, if any: the first route's
      overview decoded and shaped into coordinate records.  A failed request
      and a reply with no route (reading `routes[0]` throws) give none. */
  function RouteOf(reply: DirectionsReply, decode: string -> seq<(real, real)>): (route: Option<seq<LatLng>>)
    ensures route.Some? <==> reply.Routes? && |reply.overviews| > 0
    ensures route.Some? ==>
      var points := decode(reply.overviews[0]);
      |route.value| == |points| &&
      forall i :: 0 <= i < |points| ==> route.value[i] == LatLng(points[i].0, points[i].1)
  {
    if reply.Routes? && |reply.overviews| > 0 then Some(ShapeRoute(decode(reply.overviews[0])))
    else None
  }

  /** The settlement of a directions request.  On success `coords` is
      replaced wholesale by the shaped route and nothing else changes; on
      any failure the user is alerted and the state is kept. */
  function OnDirections(s: State, reply: DirectionsReply, decode: string -> seq<(real, real)>): (r: State)
    ensures RouteOf(reply, decode).None? ==> r == s
    ensures RouteOf(reply, decode).Some? ==> r == s.(coords := RouteOf(reply, decode).value)
    ensures reply.Routes? && |reply.overviews| > 0 ==>
      |r.coords| == |decode(reply.overviews[0])| &&
      forall i :: 0 <= i < |r.coords| ==>
        r.coords[i] == LatLng(decode(reply.overviews[0])[i].0, decode(reply.overviews[0])[i].1)
  {
    match RouteOf(reply, decode)
    case None => s
    case Some(route) => s.(coords := route)
  }

  /** The startup fix and a watched position, written separately, agree:
      at the same place they leave the same state. */
  lemma InitialFixAgreesWithWatch(s: State, at: LatLng, longitudeDelta: real)
    ensures OnInitialFix(s, Some(at), longitudeDelta) == OnPosition(s, at, longitudeDelta)
  {
  }

  /** After a watched position the directions origin is that position. */
  lemma QueryAfterPosition(s: State, at: LatLng, longitudeDelta: real)
    ensures QueryOf(OnPosition(s, at, longitudeDelta)).origin == at
  {
  }

  /** Before any fix the directions origin is the constructor's (0, 0). */
  lemma QueryBeforeFix()
    ensures QueryOf(Initial()).origin == LatLng(0.0, 0.0)
  {
  }

  /** A provider settlement never changes one marker list alone: whenever
      either list differs afterwards, both came from the two replies. */
  lemma ProvidersNeverOneListAlone(s: State, yelp: Option<YelpReply>, gas: Option<GasReply>)
    ensures var r := OnProviders(s, yelp, gas);
      r.yelpMarkers != s.yelpMarkers || r.gasMarkers != s.gasMarkers ==>
        yelp.Some? && gas.Some? &&
        r.yelpMarkers == yelp.value.businesses && r.gasMarkers == gas.value.results
  {
  }

  /** Applying the same settlement twice is applying it once; the lists are
      replaced, never extended. */
  lemma ProvidersIdempotent(s: State, yelp: Option<YelpReply>, gas: Option<GasReply>)
    ensures OnProviders(OnProviders(s, yelp, gas), yelp, gas) == OnProviders(s, yelp, gas)
  {
  }

  /** Applying the same directions reply twice is applying it once: the
      route is overwritten, nothing accumulates. */
  lemma DirectionsIdempotent(s: State, reply: DirectionsReply, decode: string -> seq<(real, real)>)
    ensures OnDirections(OnDirections(s, reply, decode), reply, decode) == OnDirections(s, reply, decode)
  {
  }

  /** A successful route does not depend on the route it replaces. */
  lemma DirectionsOverwrite(s: State, t: State, reply: DirectionsReply, decode: string -> seq<(real, real)>)
    requires RouteOf(reply, decode).Some?
    ensures OnDirections(s, reply, decode).coords == OnDirections(t, reply, decode).coords
  {
  }
}
