/** The route detail screen: the map region that frames a recorded route. */
module RouteDetail {
  import opened Numbers
  import opened Workouts

  /** A map region: its centre and the span it shows on each axis. */
  datatype Region = Region(latitude: real, longitude: real, latitudeDelta: real, longitudeDelta: real)

  /** The region shown for a workout without a route. */
  const DefaultRegion := Region(37.78825, -122.4324, 0.01, 0.01)

  /** The smallest span the map is zoomed to. */
  const MinDelta: real := 0.005

  function Latitudes(route: seq<LatLng>): (xs: seq<real>)
    ensures |xs| == |route| && forall i :: 0 <= i < |route| ==> xs[i] == route[i].latitude
  {
    seq(|route|, i requires 0 <= i < |route| => route[i].latitude)
  }

  function Longitudes(route: seq<LatLng>): (xs: seq<real>)
    ensures |xs| == |route| && forall i :: 0 <= i < |route| ==> xs[i] == route[i].longitude
  {
    seq(|route|, i requires 0 <= i < |route| => route[i].longitude)
  }

  /** The span for one axis: the extent with 20% padding, at least `MinDelta`. */
  function Span(lo: real, hi: real): (d: real)
    requires lo <= hi
    ensures d >= MinDelta && d >= (hi - lo) * 1.2
    ensures d == (hi - lo) * 1.2 || d == MinDelta
  {
    var padded := (hi - lo) * 1.2;
    if padded > MinDelta then padded else MinDelta
  }

  /**
   * `getMapRegion`: the default region for an empty route; otherwise centred
   * on the middle of the route's bounding box, each span the axis's extent
   * padded by 20% and at least the minimum zoom.
   */
  function GetMapRegion(route: seq<LatLng>): (r: Region)
    ensures route == [] ==> r == DefaultRegion
    ensures route != [] ==> r.latitude == (Max(Latitudes(route)) + Min(Latitudes(route))) / 2.0
    ensures route != [] ==> r.longitude == (Max(Longitudes(route)) + Min(Longitudes(route))) / 2.0
    ensures route != [] ==> r.latitudeDelta >= MinDelta && r.longitudeDelta >= MinDelta
    ensures route != [] ==> r.latitudeDelta >= Max(Latitudes(route)) - Min(Latitudes(route))
    ensures route != [] ==> r.longitudeDelta >= Max(Longitudes(route)) - Min(Longitudes(route))
    ensures route != [] ==> r.latitudeDelta == Span(Min(Latitudes(route)), Max(Latitudes(route)))
    ensures route != [] ==> r.longitudeDelta == Span(Min(Longitudes(route)), Max(Longitudes(route)))
  {
    if route == [] then DefaultRegion
    else
      var lats, lngs := Latitudes(route), Longitudes(route);
      var maxLat, minLat := Max(lats), Min(lats);
      var maxLng, minLng := Max(lngs), Min(lngs);
      assert minLat <= lats[0] <= maxLat && minLng <= lngs[0] <= maxLng;
      Region((maxLat + minLat) / 2.0, (maxLng + minLng) / 2.0, Span(minLat, maxLat), Span(minLng, maxLng))
  }

  /** A point is inside a region: within half a span of the centre on both axes. */
  predicate Shows(r: Region, p: LatLng) {
    r.latitude - r.latitudeDelta / 2.0 <= p.latitude <= r.latitude + r.latitudeDelta / 2.0
    && r.longitude - r.longitudeDelta / 2.0 <= p.longitude <= r.longitude + r.longitudeDelta / 2.0
  }

  /** Every point of the route is on the map. */
  lemma RegionShowsRoute(route: seq<LatLng>)
    ensures forall i :: 0 <= i < |route| ==> Shows(GetMapRegion(route), route[i])
  {
    if route != [] {
      var r := GetMapRegion(route);
      var lats, lngs := Latitudes(route), Longitudes(route);
      forall i | 0 <= i < |route| ensures Shows(r, route[i]) {
        assert Min(lats) <= lats[i] <= Max(lats);
        assert Min(lngs) <= lngs[i] <= Max(lngs);
      }
    }
  }
}
