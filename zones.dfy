/** The ALMG zone classifier and the risk score.
    Coordinates are mathematical reals: x is entropy, y ambiguity and
    z legitimacy, each nominally on the scale 0..1. */
module Zones {

  /** The five labels the classifier can return. */
  datatype Zone = Green | Gold | Yellow | Red | Purple

  /** The label as it is stored in a point and shown to the user. */
  function ZoneName(zone: Zone): (name: string)
    ensures name != ""
  {
    match zone
    case Green => "Green"
    case Gold => "Gold"
    case Yellow => "Yellow"
    case Red => "Red"
    case Purple => "Purple"
  }

  // The four tests of the rule chain; every bound is inclusive.

  predicate InGreenBand(x: real, y: real, z: real) { x <= 0.3 && y <= 0.3 && z >= 0.8 }
  predicate InGoldBand(x: real, y: real, z: real) { x <= 0.5 && y <= 0.5 && z >= 0.7 }
  predicate InYellowBand(x: real, y: real, z: real) { x <= 0.8 && y <= 0.8 && z >= 0.4 }
  predicate InRedBand(x: real, y: real, z: real) { x <= 0.95 && y <= 0.85 && z >= 0.2 }

  /** Ordered rule chain: the first band that holds decides, and Purple
      is whatever is left over. */
  function ClassifyZone(x: real, y: real, z: real): (zone: Zone)
    ensures zone == Purple <==>
      !InGreenBand(x, y, z) && !InGoldBand(x, y, z) && !InYellowBand(x, y, z) && !InRedBand(x, y, z)
  {
    if InGreenBand(x, y, z) then Green
    else if InGoldBand(x, y, z) then Gold
    else if InYellowBand(x, y, z) then Yellow
    else if InRedBand(x, y, z) then Red
    else Purple
  }

  /** Each label is returned exactly when its own test holds and no earlier test does. */
  lemma ClassifyZoneFirstMatch(x: real, y: real, z: real)
    ensures ClassifyZone(x, y, z) == Green <==> InGreenBand(x, y, z)
    ensures ClassifyZone(x, y, z) == Gold <==> !InGreenBand(x, y, z) && InGoldBand(x, y, z)
    ensures ClassifyZone(x, y, z) == Yellow <==>
      !InGreenBand(x, y, z) && !InGoldBand(x, y, z) && InYellowBand(x, y, z)
    ensures ClassifyZone(x, y, z) == Red <==>
      !InGreenBand(x, y, z) && !InGoldBand(x, y, z) && !InYellowBand(x, y, z) && InRedBand(x, y, z)
  {
  }

  /** The bands are nested, so a Green point passes every later test too;
      the chain still labels it Green. */
  lemma GreenTakesPrecedence(x: real, y: real, z: real)
    requires InGreenBand(x, y, z)
    ensures InGoldBand(x, y, z) && InYellowBand(x, y, z) && InRedBand(x, y, z)
    ensures ClassifyZone(x, y, z) == Green
  {
  }

  /** More generally, every band lies inside the next one. */
  lemma BandsNested(x: real, y: real, z: real)
    ensures InGreenBand(x, y, z) ==> InGoldBand(x, y, z)
    ensures InGoldBand(x, y, z) ==> InYellowBand(x, y, z)
    ensures InYellowBand(x, y, z) ==> InRedBand(x, y, z)
  {
  }

  /** The corner of the Green band is Green: the bounds are inclusive. */
  lemma GreenCornerIsGreen()
    ensures ClassifyZone(0.3, 0.3, 0.8) == Green
  {
  }

  /** No band admits an entropy above 0.95. */
  lemma HighEntropyIsPurple(x: real, y: real, z: real)
    requires x > 0.95
    ensures ClassifyZone(x, y, z) == Purple
  {
  }

  /** A low legitimacy (below 0.2) is Purple whatever x and y are. */
  lemma LowLegitimacyIsPurple(x: real, y: real, z: real)
    requires z < 0.2
    ensures ClassifyZone(x, y, z) == Purple
  {
  }

  /** Overall risk: weighted entropy and ambiguity plus the missing legitimacy.
      On the unit cube it stays on the unit scale. */
  function RiskScore(x: real, y: real, z: real): (risk: real)
    ensures 0.0 <= x <= 1.0 && 0.0 <= y <= 1.0 && 0.0 <= z <= 1.0 ==> 0.0 <= risk <= 1.0
    ensures x == 0.0 && y == 0.0 && z == 1.0 ==> risk == 0.0
    ensures x == 1.0 && y == 1.0 && z == 0.0 ==> risk == 1.0
  {
    x * 0.3 + y * 0.3 + (1.0 - z) * 0.4
  }

  /** Risk rises with entropy and ambiguity and falls with legitimacy. */
  lemma RiskScoreMonotone(x1: real, y1: real, z1: real, x2: real, y2: real, z2: real)
    requires x1 <= x2 && y1 <= y2 && z1 >= z2
    ensures RiskScore(x1, y1, z1) <= RiskScore(x2, y2, z2)
  {
  }

  /** Strictly so: raising any one of x or y, or lowering z, raises the risk. */
  lemma RiskScoreStrict(x1: real, y1: real, z1: real, x2: real, y2: real, z2: real)
    requires x1 <= x2 && y1 <= y2 && z1 >= z2
    requires x1 < x2 || y1 < y2 || z1 > z2
    ensures RiskScore(x1, y1, z1) < RiskScore(x2, y2, z2)
  {
  }
}
