/**
 * What a chosen search result turns into: a short name (the place name up
 * to its first comma) and a square preview polygon around the result's
 * coordinates.
 */
module SearchPreview {
  import opened AoiTypes

  /** The first piece of `s` when it is split at commas: everything before the first comma, or all of `s`. */
  function FirstSegment(s: string): (r: string)
    ensures ',' !in r
    ensures r <= s
    ensures |r| < |s| ==> s[|r|] == ','
    ensures ',' !in s ==> r == s
  {
    if s == [] || s[0] == ',' then []
    else [s[0]] + FirstSegment(s[1..])
  }

  /** The two conditions on FirstSegment pin it down: no other prefix meets them. */
  lemma FirstSegmentUnique(s: string, p: string)
    requires p <= s && ',' !in p && (|p| < |s| ==> s[|p|] == ',')
    ensures p == FirstSegment(s)
  {
  }

  /** Half the side of the preview square, in degrees. */
  const Delta: real := 0.05

  /** The closed ring of the preview square around (lon, lat), counter-clockwise from the south-west corner. */
  function PreviewRing(lon: real, lat: real): (r: seq<Point>)
    ensures |r| == 5 && r[0] == r[4]
    ensures forall i :: 0 <= i < 4 ==> (r[i].lon == lon - Delta || r[i].lon == lon + Delta)
    ensures forall i :: 0 <= i < 4 ==> (r[i].lat == lat - Delta || r[i].lat == lat + Delta)
    ensures forall i, j :: 0 <= i < j < 4 ==> r[i] != r[j]
  {
    [ Point(lon - Delta, lat - Delta),
      Point(lon + Delta, lat - Delta),
      Point(lon + Delta, lat + Delta),
      Point(lon - Delta, lat + Delta),
      Point(lon - Delta, lat - Delta) ]
  }

  /** The preview geometry, a GeoJSON polygon with the preview ring as its only ring. */
  function PreviewGeometry(lon: real, lat: real): (g: Geometry)
    ensures g.Polygon? && |g.coordinates| == 1
    ensures g.coordinates[0] == PreviewRing(lon, lat)
  {
    Polygon([PreviewRing(lon, lat)])
  }

  function Abs(x: real): real { if x < 0.0 then -x else x }

  /** Twice the signed (shoelace) area enclosed by a closed ring. */
  function TwiceSignedArea(ring: seq<Point>): real
  {
    if |ring| < 2 then 0.0
    else ring[0].lon * ring[1].lat - ring[1].lon * ring[0].lat + TwiceSignedArea(ring[1..])
  }

  /**
   * Each side of the preview ring runs along one axis with length 2 * Delta,
   * the ring is counter-clockwise, and it encloses (2 * Delta)^2 square
   * degrees wherever it is centred.
   */
  lemma PreviewRingIsSquare(lon: real, lat: real)
    ensures var r := PreviewRing(lon, lat);
      forall i :: 0 <= i < 4 ==>
        (r[i].lon == r[i + 1].lon && Abs(r[i].lat - r[i + 1].lat) == 2.0 * Delta) ||
        (r[i].lat == r[i + 1].lat && Abs(r[i].lon - r[i + 1].lon) == 2.0 * Delta)
    ensures TwiceSignedArea(PreviewRing(lon, lat)) == 2.0 * (2.0 * Delta) * (2.0 * Delta)
  {
    var r := PreviewRing(lon, lat);
    var d := Delta;
    var e0 := r[0].lon * r[1].lat - r[1].lon * r[0].lat;
    var e1 := r[1].lon * r[2].lat - r[2].lon * r[1].lat;
    var e2 := r[2].lon * r[3].lat - r[3].lon * r[2].lat;
    var e3 := r[3].lon * r[4].lat - r[4].lon * r[3].lat;
    assert TwiceSignedArea(r[4..]) == 0.0;
    assert r[3..][1..] == r[4..];
    assert TwiceSignedArea(r[3..]) == e3;
    assert r[2..][1..] == r[3..];
    assert TwiceSignedArea(r[2..]) == e2 + e3;
    assert r[1..][1..] == r[2..];
    assert TwiceSignedArea(r[1..]) == e1 + e2 + e3;
    assert TwiceSignedArea(r) == e0 + e1 + e2 + e3;
    assert e0 == -2.0 * d * (lat - d);
    assert e1 == 2.0 * d * (lon + d);
    assert e2 == 2.0 * d * (lat + d);
    assert e3 == -2.0 * d * (lon - d);
  }

  /** The centre of the preview square is the search result's point. */
  lemma PreviewRingCentre(lon: real, lat: real)
    ensures var r := PreviewRing(lon, lat);
      (r[0].lon + r[2].lon) / 2.0 == lon && (r[0].lat + r[2].lat) / 2.0 == lat &&
      (r[1].lon + r[3].lon) / 2.0 == lon && (r[1].lat + r[3].lat) / 2.0 == lat
  {
  }
}
