/** A session of the map screen as the ordered sequence of events the
    component received, each applied as one atomic transition, and what
    the state holds after any such sequence. */
module Session {

  import opened Wrappers
  import opened Geo
  import opened MapScreen

  /** What the environment supplies: the horizontal span of a region (it
      depends on the window) and the polyline decoder. */
  datatype Env = Env(longitudeDelta: real, decode: string -> seq<(real, real)>)

  /** The events that write the state. */
  datatype Event =
    | InitialFix(fix: Option<LatLng>)
    | PositionUpdate(at: LatLng)
    | ProvidersSettled(yelp: Option<YelpReply>, gas: Option<GasReply>)
    | DestinationEdit(text: string)
    | DirectionsSettled(reply: DirectionsReply)

  function Step(env: Env, s: State, e: Event): State
  {
    match e
    case InitialFix(fix) => OnInitialFix(s, fix, env.longitudeDelta)
    case PositionUpdate(at) => OnPosition(s, at, env.longitudeDelta)
    case ProvidersSettled(yelp, gas) => OnProviders(s, yelp, gas)
    case DestinationEdit(text) => OnDestinationEdit(s, text)
    case DirectionsSettled(reply) => OnDirections(s, reply, env.decode)
  }

  /** The state after the events, applied oldest first. */
  function Run(env: Env, s: State, events: seq<Event>): State
    decreases |events|
  {
    if |events| == 0 then s
    else Step(env, Run(env, s, events[..|events| - 1]), events[|events| - 1])
  }

  /** The two lists of the most recent settlement in which both providers
      succeeded, if there is one. */
  function LastMarkers(events: seq<Event>): Option<(seq<YelpBusiness>, seq<GasPlace>)>
    decreases |events|
  {
    if |events| == 0 then None
    else
      var e := events[|events| - 1];
      if e.ProvidersSettled? && e.yelp.Some? && e.gas.Some? then
        Some((e.yelp.value.businesses, e.gas.value.results))
      else LastMarkers(events[..|events| - 1])
  }

  /** The shaped route of the most recent successful directions reply, if any. */
  function LastRoute(env: Env, events: seq<Event>): Option<seq<LatLng>>
    decreases |events|
  {
    if |events| == 0 then None
    else
      var e := events[|events| - 1];
      if e.DirectionsSettled? && RouteOf(e.reply, env.decode).Some? then
        RouteOf(e.reply, env.decode)
      else LastRoute(env, events[..|events| - 1])
  }

  /** The text of the most recent destination edit, if any. */
  function LastDestination(events: seq<Event>): Option<string>
    decreases |events|
  {
    if |events| == 0 then None
    else
      var e := events[|events| - 1];
      if e.DestinationEdit? then Some(e.text)
      else LastDestination(events[..|events| - 1])
  }

  /** The marker lists always come, both together, from the latest
      settlement in which both providers succeeded; with none yet they are
      still the starting lists.  A list is never written alone, and a failed
      settlement never clears one. */
  lemma {:induction false} MarkersFromLastJointSuccess(env: Env, s: State, events: seq<Event>)
    ensures var r := Run(env, s, events);
      match LastMarkers(events)
      case None => r.yelpMarkers == s.yelpMarkers && r.gasMarkers == s.gasMarkers
      case Some(lists) => r.yelpMarkers == lists.0 && r.gasMarkers == lists.1
    decreases |events|
  {
    if |events| > 0 {
      MarkersFromLastJointSuccess(env, s, events[..|events| - 1]);
    }
  }

  /** The route drawn is the one of the latest successful directions reply;
      with none yet it is still the starting route. */
  lemma {:induction false} CoordsFromLastRoute(env: Env, s: State, events: seq<Event>)
    ensures var r := Run(env, s, events);
      match LastRoute(env, events)
      case None => r.coords == s.coords
      case Some(route) => r.coords == route
    decreases |events|
  {
    if |events| > 0 {
      CoordsFromLastRoute(env, s, events[..|events| - 1]);
    }
  }

  /** The destination text is the text of the latest edit; with none yet it
      is still the starting text. */
  lemma {:induction false} DestinationFromLastEdit(env: Env, s: State, events: seq<Event>)
    ensures var r := Run(env, s, events);
      match LastDestination(events)
      case None => r.destinationLoc == s.destinationLoc
      case Some(text) => r.destinationLoc == text
    decreases |events|
  {
    if |events| > 0 {
      DestinationFromLastEdit(env, s, events[..|events| - 1]);
    }
  }

  /** The region and the marker agree: either nothing has been fixed yet
      (the constructor's zero state), or the marker is the very region the
      map shows, with the fixed spans. */
  predicate Consistent(env: Env, s: State)
  {
    || (s.initialPosition == Region(0.0, 0.0, 0.0, 0.0) && s.markerPosition == Bare(0.0, 0.0))
    || (s.markerPosition == OfRegion(s.initialPosition) &&
        HasFixedSpan(s.initialPosition, env.longitudeDelta))
  }

  /** From the constructor's state, every sequence of events leaves the
      region and the marker consistent. */
  lemma {:induction false} RunKeepsConsistent(env: Env, events: seq<Event>)
    ensures Consistent(env, Run(env, Initial(), events))
    decreases |events|
  {
    if |events| > 0 {
      RunKeepsConsistent(env, events[..|events| - 1]);
    }
  }

  /** Once a position has arrived, the marker stands at the centre of the
      map region, and the region has the fixed spans. */
  lemma {:induction false} MarkerFollowsRegion(env: Env, s: State, events: seq<Event>, k: nat)
    requires k < |events| && (events[k].PositionUpdate? || (events[k].InitialFix? && events[k].fix.Some?))
    ensures var r := Run(env, s, events);
      r.markerPosition == OfRegion(r.initialPosition) && HasFixedSpan(r.initialPosition, env.longitudeDelta)
    decreases |events|
  {
    if k < |events| - 1 {
      MarkerFollowsRegion(env, s, events[..|events| - 1], k);
    }
  }
}
