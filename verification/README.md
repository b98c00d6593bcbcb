# Map screen core, modelled in Dafny

This project models the non-UI logic of the `ReactMaps` map screen
(`src/components/MapScreen.js`): the destination normaliser that turns the
search-box text into the `destination` value of a directions request, the
construction of map viewport regions from device positions, the shaping of
decoded route points into coordinate records, and the component state with
one pure transition per event that writes it (a position fix, the joint
settlement of the food and fuel provider requests, a destination edit, and
the settlement of a directions request).

Modules:

- `JsString` (`jsstring.dfy`): `split` with a one-character separator and
  `join` with a string glue, as JavaScript defines them, with a pointwise
  reference meaning (`ReplaceAll`) and the split/join round trip.
- `Destination` (`destination.dfy`): `destinationParser`, written as the
  source writes it (`split(" ").join('+')`) and proved equal to a
  character-by-character rewrite.
- `Geo` (`geo.dfy`): coordinates, regions with the fixed spans, the
  marker position, and route shaping with its inverse.
- `MapScreen` (`mapscreen.dfy`): the state record and the transitions.
- `Session` (`session.dfy`): a session as a sequence of events, and what
  the state holds after any sequence ("last writer wins" per field group,
  and the region/marker consistency invariant).
- `Wrappers` (`wrappers.dfy`): the `Option` type used for `undefined`.

Inputs that the screen receives from outside become parameters: device
positions are `LatLng` values, each provider request settles as an
`Option` of its reply body, a directions request settles as
`RequestFailed` or the list of encoded overview polylines, the polyline
decoder is a function parameter `decode`, and the horizontal span
`LONGITUDE_DELTA` is a parameter because it depends on the window's
aspect ratio. The vertical span `LATITUDE_DELTA` is the constant 0.0922.

Behaviour of the code that the model keeps as written:

- There is no per-provider fallback, in which a failed provider gives an
  empty list and the other list is still applied. A failed request
  settles as `undefined`; the joint callback throws on `.data` before
  `setState` (MapScreen.js:86-87), the outer `.catch` swallows the error,
  and neither list changes (`OnProviders`).
- Whitespace runs are not collapsed into one join token. The code splits
  on each single space, so `n` spaces become `n` pluses, and tabs or
  other whitespace are kept (`Destination.RunOfSpaces`).
- No teardown flag guards the state against responses that settle after
  `componentWillUnmount`; see "Left out".

## Model

| member | source | states |
|---|---|---|
| `Destination.DestinationParser` | src/components/MapScreen.js:100-102 | the result has the input's length; at each index a space becomes `+` and every other character is kept; the result holds no space |
| `JsString.JoinSplitIsReplaceAll` | src/components/MapScreen.js:101 | splitting on a separator and joining with a glue replaces every separator occurrence by the glue and keeps all other characters in order (empty pieces are kept) |
| `JsString.SplitJoinRoundTrip` | src/components/MapScreen.js:101 | joining the pieces of a split with the separator itself gives back the original string |
| `JsString.Split` | src/components/MapScreen.js:101 | a split has one more piece than there are separators, and no piece contains the separator |
| `JsString.JoinAppend` | src/components/MapScreen.js:101 | joining the concatenation of two non-empty piece lists is joining each and putting one glue between the results |
| `Destination.IdentityOnSpaceFree` | src/components/MapScreen.js:100-102 | text without a space is returned unchanged |
| `Destination.Idempotent` | src/components/MapScreen.js:100-102 | normalising an already normalised destination changes nothing |
| `Destination.RunOfSpaces` | src/components/MapScreen.js:100-102 | runs of spaces are not collapsed: `n` spaces give `n` pluses |
| `Destination.Concatenation` | src/components/MapScreen.js:100-102 | the normaliser acts on each part of a concatenation independently |
| `Destination.TwoSpaces` | src/components/MapScreen.js:100-102 | three space-free words separated by single spaces come out separated by single pluses |
| `Destination.SanFrancisco` | src/components/MapScreen.js:100-102 | `"San Francisco CA"` becomes `"San+Francisco+CA"` |
| `Geo.RegionAt` | src/components/MapScreen.js:69-74 | the region built from a position is centred on that position and has the fixed latitude span and the given longitude span |
| `Geo.RegionCenterRoundTrip` | src/components/MapScreen.js:19-20 | a region has the fixed spans exactly when rebuilding it from its own centre gives it back; the spans do not depend on the position |
| `Geo.RegionAtInjective` | src/components/MapScreen.js:53-58 | two positions give the same region exactly when they are the same position |
| `Geo.ShapeRoute` | src/components/MapScreen.js:112-117 | shaping keeps the number and order of points: entry `i` has latitude `points[i][0]` and longitude `points[i][1]` |
| `Geo.ShapeRouteRoundTrip` | src/components/MapScreen.js:112-117 | shaping loses nothing: it is inverted by reading the pairs back, in both directions |
| `Geo.ShapeRouteAppend` | src/components/MapScreen.js:112-117 | shaping a concatenation of point lists concatenates the shaped lists, so nothing is reordered or merged |
| `MapScreen.Initial` | src/components/MapScreen.js:26-41 | the starting state has a zero region, a marker at (0, 0) without spans, empty marker lists, empty destination text and no route |
| `MapScreen.OnPosition` | src/components/MapScreen.js:65-77 | a watched position sets the region to the fixed-span region centred there and the marker to that same region; the marker lists, destination text and route are unchanged |
| `MapScreen.OnInitialFix` | src/components/MapScreen.js:49-63 | a successful startup fix sets the region and the marker to the same fixed-span region centred on it; a failed fix leaves the whole state unchanged; the other fields never change |
| `MapScreen.InitialFixAgreesWithWatch` | src/components/MapScreen.js:53-77 | the separately written startup-fix update (`initialRegion`) and watched-position update (`lastRegion`) leave the same state for the same position |
| `MapScreen.OnProviders` | src/components/MapScreen.js:80-92 | when both provider requests succeed both marker lists are replaced wholesale from the replies; when either fails the whole state is unchanged; region, marker, destination and route never change |
| `MapScreen.ProvidersNeverOneListAlone` | src/components/MapScreen.js:84-92 | if either marker list changes, both providers succeeded and both lists now equal their replies |
| `MapScreen.ProvidersIdempotent` | src/components/MapScreen.js:85-88 | applying the same settlement twice gives the same state as once: lists are replaced, not extended |
| `MapScreen.OnDestinationEdit` | src/components/MapScreen.js:193 | an edit assigns the destination text and leaves every other field unchanged |
| `MapScreen.QueryOf` | src/components/MapScreen.js:105-109 | the directions request's origin is the marker's coordinate and its destination is the edited text with each space turned into `+` |
| `MapScreen.QueryAfterPosition` | src/components/MapScreen.js:105-108 | after a watched position the directions origin is that position |
| `MapScreen.QueryBeforeFix` | src/components/MapScreen.js:105-108 | pressing Go before any fix sends the constructor's origin (0, 0) |
| `MapScreen.RouteOf` | src/components/MapScreen.js:110-117 | a reply yields a route exactly when the request succeeded with at least one route, and then the route has one record per decoded point of the first overview, in order, entry `i` holding `point[0]` as latitude and `point[1]` as longitude |
| `MapScreen.OnDirections` | src/components/MapScreen.js:110-126 | a successful reply replaces the route wholesale, point by point from the decoded first overview, and changes nothing else; a failed request or a reply without routes leaves the whole state unchanged |
| `MapScreen.DirectionsIdempotent` | src/components/MapScreen.js:119-123 | applying the same directions reply twice gives the same state as once |
| `MapScreen.DirectionsOverwrite` | src/components/MapScreen.js:119-123 | after a successful reply the route does not depend on the route it replaced |
| `Session.MarkersFromLastJointSuccess` | src/components/MapScreen.js:80-92 | after any event sequence both marker lists are those of the latest settlement in which both providers succeeded, or the starting lists if there was none |
| `Session.CoordsFromLastRoute` | src/components/MapScreen.js:110-126 | after any event sequence the route is the shaped route of the latest successful directions reply, or the starting route if there was none |
| `Session.DestinationFromLastEdit` | src/components/MapScreen.js:193 | after any event sequence the destination text is that of the latest edit, or the starting text if there was none |
| `Session.RunKeepsConsistent` | src/components/MapScreen.js:26-77 | from the starting state, every event sequence leaves the marker either at the untouched zero state or equal to the map region with the fixed spans |
| `Session.MarkerFollowsRegion` | src/components/MapScreen.js:76-77 | once any position has arrived, the marker is the map region and the region has the fixed spans, whatever events follow |

## Left out

- Polyline decoding: `Polyline.decode` is a call into `@mapbox/polyline`, which is not part of this model; the decoder is the parameter `decode`, assumed total (it returns points for any string).
- HTTP requests and URL strings: the food, fuel and directions requests are network I/O; their outcomes are inputs. URL formatting of numbers and the credentials are not modelled, nor is the fuel search's hard-coded location `37.78825,-122.4324`.
- Provider response parsing: a successful reply is taken as its list (`data.businesses`, `data.results`); a successful HTTP response whose body lacks that field would store `undefined`, which is not modelled.
- Geolocation: `getCurrentPosition` options, the `watchPosition`/`clearWatch` subscription lifetime and `parseFloat` of the device coordinates are device I/O; a position arrives as a `LatLng`.
- Teardown: `clearWatch` is only called from `componentWillUnmount` (MapScreen.js:96-98), and the code has no guard of its own against a request that settles later; React then ignores the `setState` of the unmounted component, so such a settlement writes nothing observable. Unmounting is not modelled: every session here is a mounted component.
- Async ordering: promise settlement, `axios.all`, and the batching of the two `setState` calls in each position callback are not modelled; each event is one atomic transition. In particular, whether the food request reads the marker before or after the new position is committed is not modelled.
- Screen dimensions: `Dimensions` and the aspect ratio are floating-point screen geometry; `LONGITUDE_DELTA` is the parameter `longitudeDelta`.
- Floating point: coordinates and spans are mathematical reals; the constant 0.0922 is exact here.
- Presentation and diagnostics: `render`, the markers, images, styles, `SearchBox`, `alert` and `console.log` are UI or side effects only.
