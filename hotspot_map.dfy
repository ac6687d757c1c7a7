/** The map screen (components/screens/MapScreen.jsx): either the one potion
    the route carries, or every hotspot from the network, with no stored
    fallback. Its live tracking is commented out, so the position and trail
    it draws never change. */
module HotspotMap {
  import opened Platform
  import Home

  datatype RouteParams = RouteParams(potion: Option<Hotspot>)
  datatype Route = Route(params: Option<RouteParams>)

  /** A map region: a centre and the span shown around it. */
  datatype Region = Region(latitude: real, longitude: real, latitudeDelta: real, longitudeDelta: real)

  /** The fixed centre used when no potion is given. */
  const DefaultCentre := Coordinates(51.9173, 4.4843)

  /** `route?.params?.potion || null`: a potion when the route and its
      parameters are there and carry one. */
  function PotionOf(route: Option<Route>): (p: Option<Hotspot>)
    ensures p.Some? <==> route.Some? && route.value.params.Some? && route.value.params.value.potion.Some?
    ensures p.Some? ==> p == route.value.params.value.potion
  {
    if route.Some? && route.value.params.Some? then route.value.params.value.potion else None
  }

  /** What `.then((res) => res.json())` gives: the parsed body whatever the
      status; None when the request or the parse fails. */
  function ParsedBody(f: Fetch): (r: Option<seq<Hotspot>>)
    ensures r.Some? ==> f.Received? && f.response.body == r
    ensures f.Received? ==> r == f.response.body
  {
    if f.Received? then f.response.body else None
  }

  /** `initialRegion`: centred on the potion with a 0.01 span, or on the
      default centre with a 0.1 span. */
  function InitialRegion(potion: Option<Hotspot>): (r: Region)
    ensures Coordinates(r.latitude, r.longitude) == if potion.Some? then potion.value.coordinates else DefaultCentre
    ensures r.latitudeDelta == r.longitudeDelta
    ensures r.latitudeDelta == if potion.Some? then 0.01 else 0.1
  {
    match potion
    case Some(p) => Region(p.coordinates.latitude, p.coordinates.longitude, 0.01, 0.01)
    case None => Region(DefaultCentre.latitude, DefaultCentre.longitude, 0.1, 0.1)
  }

  class MapScreen {
    /** Tracking state, drawn but never updated on this screen. */
    var location: Option<Coordinates>
    var path: seq<Coordinates>
    var errorMsg: Option<string>
    var hotspots: seq<Hotspot>
    var loading: bool
    const potion: Option<Hotspot>

    ghost predicate TrackingIdle()
      reads this
    {
      location == None && path == [] && errorMsg == None
    }

    constructor (route: Option<Route>)
      ensures potion == PotionOf(route)
      ensures hotspots == [] && loading
      ensures TrackingIdle()
    {
      potion := PotionOf(route);
      location, path, errorMsg := None, [], None;
      hotspots, loading := [], true;
    }

    /** The selection effect. With a potion, it is the only hotspot and no
        request is made; otherwise the parsed body is shown whatever the
        response status, and a failed request or parse leaves the list as
        it was. `loading` ends false on every path, and the tracking state
        is outside the frame. */
    method SelectHotspots(fetch: Fetch) returns (requested: bool)
      modifies this`hotspots, this`loading
      ensures requested <==> potion.None?
      ensures potion.Some? ==> hotspots == [potion.value]
      ensures potion.None? && ParsedBody(fetch).Some? ==> hotspots == ParsedBody(fetch).value
      ensures potion.None? && ParsedBody(fetch).None? ==> hotspots == old(hotspots)
      ensures !loading
    {
      if potion.None? {
        requested := true;
        var json := ParsedBody(fetch);
        if json.Some? {
          hotspots := json.value;
        }
        loading := false;
      } else {
        requested := false;
        hotspots := [potion.value];
        loading := false;
      }
    }
  }

  /** Opening the map for a potion shows exactly that potion, centred on
      it, without a request, whatever the network would have answered. */
  method OpenForPotion(p: Hotspot, fetch: Fetch) returns (shown: seq<Hotspot>, region: Region, requested: bool)
    ensures shown == [p] && !requested
    ensures Coordinates(region.latitude, region.longitude) == shown[0].coordinates
  {
    var screen := new MapScreen(Some(Route(Some(RouteParams(Some(p))))));
    requested := screen.SelectHotspots(fetch);
    shown := screen.hotspots;
    region := InitialRegion(screen.potion);
  }

  /** Opened without a potion, the map shows what the endpoint answered even
      for a response that is not ok, and nothing after a failure. */
  method OpenWithoutPotion(fetch: Fetch) returns (shown: seq<Hotspot>, region: Region)
    ensures fetch.Received? && fetch.response.body.Some? ==> shown == fetch.response.body.value
    ensures fetch.NetworkFailure? || fetch.response.body.None? ==> shown == []
    ensures Coordinates(region.latitude, region.longitude) == DefaultCentre
  {
    var screen := new MapScreen(None);
    var _ := screen.SelectHotspots(fetch);
    shown := screen.hotspots;
    region := InitialRegion(screen.potion);
  }

  /** This screen shows every list the home screen accepts from the same
      answer, and besides those exactly the parsed bodies of responses that
      are not ok. */
  lemma MapAcceptsWhatHomeAccepts(f: Fetch)
    ensures Home.OkBody(f).Some? ==> ParsedBody(f) == Home.OkBody(f)
    ensures ParsedBody(f) != Home.OkBody(f) <==> f.Received? && !f.response.ok && f.response.body.Some?
  {
  }
}
