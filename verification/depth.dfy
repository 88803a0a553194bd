/**
 Depth classification of an earthquake marker.

 The map colours every event by its hypocentre depth in kilometres. The
 classifier is a step function with three strict `>` thresholds (100, 50
 and 20 km) and four hex colours. Depths are modelled as `real`; the
 rounding of JavaScript doubles plays no part in the comparisons.
 */
module Depth {

  const Red: string := "#FF0000"
  const Orange: string := "#FF7F00"
  const Yellow: string := "#FFFF00"
  const Green: string := "#00FF00"

  /** The four depth bands of the map, from shallow to very deep. */
  datatype Bucket = Shallow | Intermediate | Deep | VeryDeep {

    /** The interval of depths the band stands for: open below, closed above. */
    predicate Contains(depth: real) {
      match this
      case Shallow => depth <= 20.0
      case Intermediate => 20.0 < depth <= 50.0
      case Deep => 50.0 < depth <= 100.0
      case VeryDeep => 100.0 < depth
    }

    /** Position of the band in the order green < yellow < orange < red. */
    function Rank(): nat {
      match this
      case Shallow => 0
      case Intermediate => 1
      case Deep => 2
      case VeryDeep => 3
    }

    /** The marker colour drawn for the band. */
    function Hex(): string {
      match this
      case Shallow => Green
      case Intermediate => Yellow
      case Deep => Orange
      case VeryDeep => Red
    }

    /** The caption the legend prints beside the band's swatch. */
    function Caption(): string {
      match this
      case Shallow => "<20"
      case Intermediate => "20-50"
      case Deep => "50-100"
      case VeryDeep => ">100"
    }
  }

  /** Every colour the classifier can produce. */
  const Palette: set<string> := {Green, Yellow, Orange, Red}

  /** The depth-to-colour step function of the map. */
  function GetColor(depth: real): (hex: string)
    ensures hex == Red <==> depth > 100.0
    ensures hex == Orange <==> 50.0 < depth <= 100.0
    ensures hex == Yellow <==> 20.0 < depth <= 50.0
    ensures hex == Green <==> depth <= 20.0
    ensures hex in Palette
  {
    if depth > 100.0 then Red
    else if depth > 50.0 then Orange
    else if depth > 20.0 then Yellow
    else Green
  }

  /** The one band whose interval holds `depth`: the bands partition the line. */
  function BucketOf(depth: real): (b: Bucket)
    ensures b.Contains(depth)
    ensures forall c: Bucket :: c.Contains(depth) <==> c == b
  {
    if depth <= 20.0 then Shallow
    else if depth <= 50.0 then Intermediate
    else if depth <= 100.0 then Deep
    else VeryDeep
  }

  /** Distinct bands have distinct colours, so a colour names its band. */
  lemma HexInjective(b: Bucket, c: Bucket)
    ensures b.Hex() == c.Hex() <==> b == c
  {
  }

  /** The classifier's colour is the colour of the band holding the depth. */
  lemma ColorIsBucketHex(depth: real)
    ensures GetColor(depth) == BucketOf(depth).Hex()
  {
  }

  /** A depth is drawn in a band's colour exactly when it lies in that band. */
  lemma ColorIdentifiesBucket(b: Bucket, depth: real)
    ensures GetColor(depth) == b.Hex() <==> b.Contains(depth)
  {
    ColorIsBucketHex(depth);
    HexInjective(b, BucketOf(depth));
  }

  /**
   A deeper event is never drawn in a shallower band's colour: if two
   depths are ordered, so are the bands of the colours they receive.
   */
  lemma GetColorMonotone(d1: real, d2: real, b1: Bucket, b2: Bucket)
    requires d1 <= d2
    requires GetColor(d1) == b1.Hex() && GetColor(d2) == b2.Hex()
    ensures b1.Rank() <= b2.Rank()
  {
    ColorIdentifiesBucket(b1, d1);
    ColorIdentifiesBucket(b2, d2);
  }

  /** The thresholds themselves fall in the shallower band (strict `>`). */
  lemma BoundaryDepths()
    ensures GetColor(100.0) == Orange
    ensures GetColor(50.0) == Yellow
    ensures GetColor(20.0) == Green
    ensures GetColor(0.0) == Green && GetColor(-3.5) == Green
    ensures forall d: real :: d <= 0.0 ==> GetColor(d) == Green
  {
  }
}
