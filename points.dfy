/** One recorded turn of a conversation in ALMG space. */
module Points {
  import opened Zones

  /** A point as the tracker stores it. The zone is kept as text because a
      session read back from a file may carry any label; `timestamp` is an
      ISO time string supplied by the clock. */
  datatype Point = Point(
    turn: int,
    x: real,
    y: real,
    z: real,
    zone: string,
    topic: string,
    timestamp: string)

  /** Building a point fills in the two defaults: an empty timestamp becomes
      the current time `now`, and an empty zone becomes the classifier's label
      for the coordinates. Given fields are kept as they are. */
  function NewPoint(turn: int, x: real, y: real, z: real, zone: string,
                    topic: string, timestamp: string, now: string): (p: Point)
    ensures p.turn == turn && p.x == x && p.y == y && p.z == z && p.topic == topic
    ensures p.zone != ""
    ensures zone != "" ==> p.zone == zone
    ensures zone == "" ==> p.zone == ZoneName(ClassifyZone(x, y, z))
    ensures p.timestamp == (if timestamp == "" then now else timestamp)
  {
    Point(turn, x, y, z,
          if zone == "" then ZoneName(ClassifyZone(x, y, z)) else zone,
          topic,
          if timestamp == "" then now else timestamp)
  }

  /** The labels of a trajectory, in order. */
  function ZoneLabels(points: seq<Point>): (zones: seq<string>)
    ensures |zones| == |points|
    ensures forall i :: 0 <= i < |points| ==> zones[i] == points[i].zone
  {
    seq(|points|, i requires 0 <= i < |points| => points[i].zone)
  }

  /** One coordinate of every point, in order. */
  function Xs(points: seq<Point>): (xs: seq<real>)
    ensures |xs| == |points|
    ensures forall i :: 0 <= i < |points| ==> xs[i] == points[i].x
  {
    seq(|points|, i requires 0 <= i < |points| => points[i].x)
  }

  function Ys(points: seq<Point>): (ys: seq<real>)
    ensures |ys| == |points|
    ensures forall i :: 0 <= i < |points| ==> ys[i] == points[i].y
  {
    seq(|points|, i requires 0 <= i < |points| => points[i].y)
  }

  function Zs(points: seq<Point>): (zs: seq<real>)
    ensures |zs| == |points|
    ensures forall i :: 0 <= i < |points| ==> zs[i] == points[i].z
  {
    seq(|points|, i requires 0 <= i < |points| => points[i].z)
  }
}
