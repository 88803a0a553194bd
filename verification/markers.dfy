/**
 The feature-to-marker mapping of the earthquake layer.

 Each feed record becomes one circle marker: its radius scales the
 magnitude by five, its fill is the depth colour, and its stroke colour and
 fill opacity are fixed. The marker layer keeps one marker per record, in
 feed order.
 */
module Markers {
  import Depth

  datatype Option<T> = None | Some(value: T)

  /**
   A GeoJSON point position: longitude and latitude always, the depth in
   km as an optional third coordinate.
   */
  datatype Position = Position(lon: real, lat: real, depth: Option<real>)

  /** One seismic event of the feed; `time` is epoch milliseconds. */
  datatype Feature = Feature(place: string, mag: real, time: int, coordinates: Position)

  /** A map position in the widget's latitude-first order. */
  datatype LatLng = LatLng(lat: real, lng: real)

  /** The circle-marker options derived for one feature. */
  datatype Marker = Marker(center: LatLng, radius: real, fillColor: string, color: string, fillOpacity: real)

  /** Linear scale from magnitude to radius. */
  const RadiusScale: real := 5.0
  /** Stroke colour of every marker. */
  const Stroke: string := "#000"
  /** Fill opacity of every marker. */
  const Opacity: real := 0.8

  /**
   The colour of a feature's third coordinate. A position without one reads
   as `undefined`, every `>` against it is false, and the classifier falls
   through to green.
   */
  function DepthColor(depth: Option<real>): (hex: string)
    ensures depth.None? ==> hex == Depth.Green
    ensures depth.Some? ==> hex == Depth.BucketOf(depth.value).Hex()
  {
    Depth.ColorIsBucketHex(if depth.Some? then depth.value else 0.0);
    match depth
    case Some(d) => Depth.GetColor(d)
    case None => Depth.Green
  }

  /** The widget's conversion of a [lon, lat] position to latitude-first order. */
  function ToLatLng(p: Position): LatLng {
    LatLng(p.lat, p.lon)
  }

  /** The marker drawn for one feature. */
  function ToMarker(f: Feature): (m: Marker)
    ensures m.center.lat == f.coordinates.lat && m.center.lng == f.coordinates.lon
    ensures m.radius == RadiusScale * f.mag
    ensures m.fillColor in Depth.Palette
    ensures f.coordinates.depth.None? ==> m.fillColor == Depth.Green
    ensures forall b: Depth.Bucket :: f.coordinates.depth.Some? ==>
              (m.fillColor == b.Hex() <==> b.Contains(f.coordinates.depth.value))
    ensures m.color == Stroke && m.fillOpacity == Opacity
  {
    var size := f.mag * RadiusScale;
    var color := DepthColor(f.coordinates.depth);
    forall b: Depth.Bucket | f.coordinates.depth.Some?
      ensures color == b.Hex() <==> b.Contains(f.coordinates.depth.value)
    {
      Depth.ColorIdentifiesBucket(b, f.coordinates.depth.value);
    }
    Marker(ToLatLng(f.coordinates), size, color, Stroke, Opacity)
  }

  /** Recovers the magnitude from a marker: the radius is neither clamped nor rounded. */
  function MagnitudeOf(m: Marker): real {
    m.radius / RadiusScale
  }

  /** Magnitude survives the trip through the radius exactly. */
  lemma MagnitudeRoundTrip(f: Feature)
    ensures MagnitudeOf(ToMarker(f)) == f.mag
  {
  }

  /** A stronger event never gets a smaller circle, and equal events equal circles. */
  lemma RadiusMonotone(f: Feature, g: Feature)
    ensures f.mag < g.mag <==> ToMarker(f).radius < ToMarker(g).radius
    ensures f.mag == g.mag <==> ToMarker(f).radius == ToMarker(g).radius
  {
  }

  /** A magnitude 4.0 event at [-100, 35, 30]. */
  lemma ExampleFeature(place: string, time: int)
    ensures ToMarker(Feature(place, 4.0, time, Position(-100.0, 35.0, Some(30.0))))
            == Marker(LatLng(35.0, -100.0), 20.0, Depth.Yellow, "#000", 0.8)
  {
  }

  /** The marker layer built from a feature collection. */
  method ToMarkers(features: seq<Feature>) returns (markers: seq<Marker>)
    ensures |markers| == |features|
    ensures forall i :: 0 <= i < |features| ==> markers[i] == ToMarker(features[i])
    ensures forall i :: 0 <= i < |markers| ==> markers[i].radius == RadiusScale * features[i].mag
  {
    markers := [];
    var k := 0;
    while k < |features|
      invariant 0 <= k <= |features|
      invariant |markers| == k
      invariant forall i :: 0 <= i < k ==> markers[i] == ToMarker(features[i])
    {
      markers := markers + [ToMarker(features[k])];
      k := k + 1;
    }
  }
}
