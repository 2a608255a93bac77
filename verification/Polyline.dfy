/**
 The polyline encoder against the decoder of Google's Encoded Polyline
 Algorithm Format. A string is a sequence of UTF-16 code units, and the shifts
 are the 32-bit ones of JavaScript.
 */
module Polyline {
  import opened Tables
  import opened Numbers

  datatype LatLng = LatLng(latitude: real, longitude: real)

  const TWO_30 := 0x4000_0000
  const TWO_32 := 0x1_0000_0000

  /** The signed 32-bit integer that agrees with x modulo 2^32. */
  function ToInt32(x: int): int {
    (x + TWO_32 / 2) % TWO_32 - TWO_32 / 2
  }

  /** `value < 0 ? ~(value << 1) : value << 1` */
  function ZigZag(value: int): int {
    if value < 0 then -ToInt32(2 * value) - 1 else ToInt32(2 * value)
  }

  function CodeUnit(x: int): int { x % 0x1_0000 }

  /** The units of a shifted value, least significant five bits first. */
  function Chunks(v: int): seq<int>
    decreases if v > 0 then v else 0
  {
    if v >= 0x20 then [CodeUnit(0x20 + v % 0x20 + 63)] + Chunks(v / 0x20) else [CodeUnit(v + 63)]
  }

  method EncodeValue(value: int) returns (output: seq<int>)
    ensures output == Chunks(ZigZag(value))
  {
    var v := if value < 0 then -ToInt32(2 * value) - 1 else ToInt32(2 * value);
    output := [];
    while v >= 0x20
      invariant output + Chunks(v) == Chunks(ZigZag(value))
      decreases v
    {
      output := output + [CodeUnit(0x20 + v % 0x20 + 63)];
      v := v / 0x20;
    }
    output := output + [CodeUnit(v + 63)];
  }

  // ----- the decoder of the format -----

  /** One shifted value and what follows it: units up to the first one without
      the continuation bit. */
  function ReadShifted(units: seq<int>): (r: Option<(nat, seq<int>)>)
    ensures r.Some? ==> |r.value.1| < |units|
  {
    if units == [] || units[0] < 63 || units[0] > 126 then None
    else
      var b := units[0] - 63;
      if b < 0x20 then Some((b, units[1..]))
      else
        var rest := ReadShifted(units[1..]);
        if rest.None? then None else Some((b - 0x20 + 0x20 * rest.value.0, rest.value.1))
  }

  function Unshift(w: nat): int {
    if w % 2 == 1 then -(w / 2) - 1 else w / 2
  }

  function ReadValue(units: seq<int>): (r: Option<(int, seq<int>)>)
    ensures r.Some? ==> |r.value.1| < |units|
  {
    var r := ReadShifted(units);
    if r.None? then None else Some((Unshift(r.value.0), r.value.1))
  }

  // ----- one value -----

  /** Read back whatever follows: the last unit ends the value. */
  lemma {:induction false} ChunksRead(v: nat, rest: seq<int>)
    ensures ReadShifted(Chunks(v) + rest) == Some((v, rest))
    ensures forall i :: 0 <= i < |Chunks(v)| ==> 63 <= Chunks(v)[i] <= 126
  {
    var units := Chunks(v) + rest;
    if v >= 0x20 {
      ChunksRead(v / 0x20, rest);
      assert units[1..] == Chunks(v / 0x20) + rest;
    } else {
      assert units[1..] == rest;
    }
  }

  /** A negative shifted value, which only an overflow makes, is a single unit. */
  lemma OverflowRead(y: int, rest: seq<int>)
    requires y < 0
    ensures var r := ReadShifted(Chunks(y) + rest);
            r.Some? && r.value.1 == rest ==> r.value.0 < 0x20
  {
    assert (Chunks(y) + rest)[1..] == rest;
  }

  /** The encoder is exact on 31-bit values and on no others. */
  lemma ValueRoundTrip(value: int, rest: seq<int>)
    ensures ReadValue(Chunks(ZigZag(value)) + rest) == Some((value, rest)) <==> -TWO_30 <= value < TWO_30
  {
    var w := ZigZag(value);
    ZigZagInverse(value);
    if w >= 0 {
      ChunksRead(w, rest);
    } else {
      OverflowRead(w, rest);
    }
  }

  /** The zig-zag shift loses nothing on 31-bit values. On any other it gives a
      number of the wrong size, or one that does not come back. */
  lemma ZigZagInverse(value: int)
    ensures ZigZag(value) >= 0 ==> (Unshift(ZigZag(value)) == value <==> -TWO_30 <= value < TWO_30)
    ensures ZigZag(value) < 0 ==> !(-TWO_30 <= value < TWO_30)
    ensures ZigZag(value) < 0 ==> forall w: nat :: w < 0x20 ==> Unshift(w) != value
  {
  }

  // ----- whole lines -----

  function Scaled(p: LatLng): (int, int) {
    (Round(p.latitude * 100000.0), Round(p.longitude * 100000.0))
  }

  function ScaledAll(points: seq<LatLng>): seq<(int, int)> {
    if points == [] then [] else [Scaled(points[0])] + ScaledAll(points[1..])
  }

  function EncodeFrom(points: seq<LatLng>, last: (int, int)): seq<int> {
    if points == [] then []
    else
      var at := Scaled(points[0]);
      Chunks(ZigZag(at.0 - last.0)) + Chunks(ZigZag(at.1 - last.1)) + EncodeFrom(points[1..], at)
  }

  lemma EncodeStep(points: seq<LatLng>, i: nat, last: (int, int), prefix: seq<int>)
    requires i < |points|
    ensures var at := Scaled(points[i]);
            prefix + EncodeFrom(points[i..], last)
            == ((prefix + Chunks(ZigZag(at.0 - last.0))) + Chunks(ZigZag(at.1 - last.1))) + EncodeFrom(points[i + 1..], at)
  {
    assert points[i..][1..] == points[i + 1..];
  }

  method EncodePolyline(points: seq<LatLng>) returns (result: seq<int>)
    ensures result == EncodeFrom(points, (0, 0))
  {
    var lastLat, lastLng := 0, 0;
    result := [];
    for i := 0 to |points|
      invariant result + EncodeFrom(points[i..], (lastLat, lastLng)) == EncodeFrom(points, (0, 0))
    {
      EncodeStep(points, i, (lastLat, lastLng), result);
      var lat := Round(points[i].latitude * 100000.0);
      var lng := Round(points[i].longitude * 100000.0);
      var latUnits := EncodeValue(lat - lastLat);
      result := result + latUnits;
      var lngUnits := EncodeValue(lng - lastLng);
      result := result + lngUnits;
      lastLat := lat;
      lastLng := lng;
    }
  }

  /** Two differences in a row, and what follows them. */
  function ReadPair(units: seq<int>): (r: Option<((int, int), seq<int>)>)
    ensures r.Some? ==> |r.value.1| < |units|
  {
    var lat := ReadValue(units);
    if lat.None? then None
    else
      var lng := ReadValue(lat.value.1);
      if lng.None? then None else Some(((lat.value.0, lng.value.0), lng.value.1))
  }

  /** The decoder of a whole line: pairs of differences until the string ends. */
  function DecodeFrom(units: seq<int>, last: (int, int)): Option<seq<(int, int)>>
    decreases |units|, 1
  {
    if units == [] then Some([])
    else
      var pair := ReadPair(units);
      if pair.None? then None else DecodeAfter(pair.value.0, pair.value.1, last)
  }

  function DecodeAfter(d: (int, int), rest: seq<int>, last: (int, int)): Option<seq<(int, int)>>
    decreases |rest|, 2
  {
    var at := (last.0 + d.0, last.1 + d.1);
    var tail := DecodeFrom(rest, at);
    if tail.None? then None else Some([at] + tail.value)
  }

  /** Every step of the line is a 31-bit difference. */
  predicate StepsFit(points: seq<LatLng>, last: (int, int)) {
    points == [] ||
    (var at := Scaled(points[0]);
     -TWO_30 <= at.0 - last.0 < TWO_30 && -TWO_30 <= at.1 - last.1 < TWO_30 && StepsFit(points[1..], at))
  }

  lemma FitsUnsigned(value: int)
    requires -TWO_30 <= value < TWO_30
    ensures ZigZag(value) >= 0
  {
  }

  lemma {:induction false} LinePrintable(points: seq<LatLng>, last: (int, int))
    requires StepsFit(points, last)
    ensures forall u :: u in EncodeFrom(points, last) ==> 63 <= u <= 126
  {
    if points != [] {
      var at := Scaled(points[0]);
      LinePrintable(points[1..], at);
      FitsUnsigned(at.0 - last.0);
      FitsUnsigned(at.1 - last.1);
      ChunksRead(ZigZag(at.0 - last.0), []);
      ChunksRead(ZigZag(at.1 - last.1), []);
    }
  }

  /** One point is read off the front of a line. */
  lemma PointRead(lat: seq<int>, lng: seq<int>, rest: seq<int>, d: (int, int), last: (int, int))
    requires ReadValue(lat + (lng + rest)) == Some((d.0, lng + rest)) && ReadValue(lng + rest) == Some((d.1, rest))
    ensures DecodeFrom(lat + (lng + rest), last) == DecodeAfter(d, rest, last)
  {
    PairThenRest(lat + (lng + rest), d, rest, last);
  }

  lemma PairThenRest(units: seq<int>, d: (int, int), rest: seq<int>, last: (int, int))
    requires units != [] && ReadPair(units) == Some((d, rest))
    ensures DecodeFrom(units, last) == DecodeAfter(d, rest, last)
  {
  }

  lemma LinePrepend(points: seq<LatLng>, last: (int, int))
    requires points != []
    ensures var at := Scaled(points[0]);
            EncodeFrom(points, last) ==
            Chunks(ZigZag(at.0 - last.0)) + (Chunks(ZigZag(at.1 - last.1)) + EncodeFrom(points[1..], at))
  {
    var at := Scaled(points[0]);
    var lat, lng, rest := Chunks(ZigZag(at.0 - last.0)), Chunks(ZigZag(at.1 - last.1)), EncodeFrom(points[1..], at);
    assert lat + lng + rest == lat + (lng + rest);
  }

  lemma {:induction false} LineRoundTrip(points: seq<LatLng>, last: (int, int))
    requires StepsFit(points, last)
    ensures DecodeFrom(EncodeFrom(points, last), last) == Some(ScaledAll(points))
  {
    if points != [] {
      var at := Scaled(points[0]);
      LineRoundTrip(points[1..], at);
      LinePrepend(points, last);
      var rest := EncodeFrom(points[1..], at);
      ValueRoundTrip(at.0 - last.0, Chunks(ZigZag(at.1 - last.1)) + rest);
      ValueRoundTrip(at.1 - last.1, rest);
      PointRead(Chunks(ZigZag(at.0 - last.0)), Chunks(ZigZag(at.1 - last.1)), rest, (at.0 - last.0, at.1 - last.1), last);
    }
  }

  predicate OnEarth(p: LatLng) {
    -90.0 <= p.latitude <= 90.0 && -180.0 <= p.longitude <= 180.0
  }

  lemma {:induction false} EarthStepsFit(points: seq<LatLng>, last: (int, int))
    requires forall i :: 0 <= i < |points| ==> OnEarth(points[i])
    requires -9_000_000 <= last.0 <= 9_000_000 && -18_000_000 <= last.1 <= 18_000_000
    ensures StepsFit(points, last)
  {
    if points != [] {
      assert OnEarth(points[0]);
      EarthStepsFit(points[1..], Scaled(points[0]));
    }
  }

  /** Any list of coordinates comes back, rounded to five decimals, and is
      written in printable characters only. */
  lemma PolylineRoundTrip(points: seq<LatLng>)
    requires forall i :: 0 <= i < |points| ==> OnEarth(points[i])
    ensures DecodeFrom(EncodeFrom(points, (0, 0)), (0, 0)) == Some(ScaledAll(points))
    ensures forall u :: u in EncodeFrom(points, (0, 0)) ==> 63 <= u <= 126
  {
    EarthStepsFit(points, (0, 0));
    LinePrintable(points, (0, 0));
    LineRoundTrip(points, (0, 0));
  }

  /** And rounding moves a coordinate by at most half of the fifth decimal. */
  lemma RoundedIsClose(point: LatLng)
    ensures -0.000005 <= Scaled(point).0 as real / 100000.0 - point.latitude <= 0.000005
    ensures -0.000005 <= Scaled(point).1 as real / 100000.0 - point.longitude <= 0.000005
  {
    var lat, lng := Scaled(point).0, Scaled(point).1;
    assert point.latitude * 100000.0 - 0.5 <= lat as real <= point.latitude * 100000.0 + 0.5;
    assert point.longitude * 100000.0 - 0.5 <= lng as real <= point.longitude * 100000.0 + 0.5;
  }
}
