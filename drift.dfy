/** The drift direction of a session summary: a trend read off the
    legitimacy (z) values of the first and the last point only. */
module Drifts {

  datatype Drift = Unknown | Stable | TowardGreen | TowardRed | TowardYellow

  /** The label the summary reports. */
  function DriftName(d: Drift): (name: string)
    ensures name != ""
  {
    match d
    case Unknown => "unknown"
    case Stable => "stable"
    case TowardGreen => "toward_green"
    case TowardRed => "toward_red"
    case TowardYellow => "toward_yellow"
  }

  function Abs(r: real): real { if r < 0.0 then -r else r }

  /** Changes of legitimacy smaller than this count as no movement. */
  const StableBand: real := 0.1
  /** A falling session that ends below this legitimacy drifts toward Red. */
  const RedFloor: real := 0.4

  /** The drift of a session from its legitimacy values, in order. A
      direction other than Unknown needs two points; each direction agrees
      with the sign of the change from the first to the last value. */
  function DriftOf(zs: seq<real>): (d: Drift)
    ensures d == Unknown <==> |zs| < 2
    ensures d == TowardGreen ==> |zs| >= 2 && zs[|zs| - 1] > zs[0]
    ensures d == TowardRed || d == TowardYellow ==> |zs| >= 2 && zs[|zs| - 1] < zs[0]
    ensures d == TowardRed ==> |zs| >= 2 && zs[|zs| - 1] < RedFloor
  {
    if |zs| >= 2 then
      var change := zs[|zs| - 1] - zs[0];
      if Abs(change) < StableBand then Stable
      else if change > 0.0 then TowardGreen
      else if zs[|zs| - 1] < RedFloor then TowardRed
      else TowardYellow
    else Unknown
  }

  /** Each direction in terms of the first and last legitimacy value. */
  lemma DriftCases(zs: seq<real>)
    ensures DriftOf(zs) == Unknown <==> |zs| < 2
    ensures DriftOf(zs) == Stable <==>
      |zs| >= 2 && -0.1 < zs[|zs| - 1] - zs[0] < 0.1
    ensures DriftOf(zs) == TowardGreen <==>
      |zs| >= 2 && zs[|zs| - 1] >= zs[0] + 0.1
    ensures DriftOf(zs) == TowardRed <==>
      |zs| >= 2 && zs[|zs| - 1] <= zs[0] - 0.1 && zs[|zs| - 1] < 0.4
    ensures DriftOf(zs) == TowardYellow <==>
      |zs| >= 2 && zs[|zs| - 1] <= zs[0] - 0.1 && zs[|zs| - 1] >= 0.4
  {
  }

  /** Only the two end points matter: the points in between never change the drift. */
  lemma DriftEndpointsOnly(zs: seq<real>)
    requires |zs| >= 2
    ensures DriftOf(zs) == DriftOf([zs[0], zs[|zs| - 1]])
  {
  }
}
