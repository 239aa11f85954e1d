/** An ALMG tracking session: an identified, append-only trajectory of
    classified points and the summary derived from it. */
module Tracker {
  import opened Zones
  import opened Points
  import opened Averages
  import opened Drifts
  import opened Dominance
  import opened Events
  import opened Records

  /** The summary of a session; an empty trajectory has no data. */
  datatype Summary =
    | NoData
    | Stats(avgX: real, avgY: real, avgZ: real,
            dominantZone: string, drift: Drift, notableEvents: seq<Transition>)

  /** The point recorded as the next turn after `count` earlier points. */
  function Recorded(count: nat, x: real, y: real, z: real, topic: string, now: string): (p: Point)
    ensures p.turn == count + 1
    ensures p.x == x && p.y == y && p.z == z && p.topic == topic && p.timestamp == now
    ensures p.zone == ZoneName(ClassifyZone(x, y, z))
  {
    NewPoint(count + 1, x, y, z, ZoneName(ClassifyZone(x, y, z)), topic, "", now)
  }

  /** Turn k + 1 sits at position k. */
  predicate TurnsSequential(points: seq<Point>)
  {
    forall k :: 0 <= k < |points| ==> points[k].turn == k + 1
  }

  /** The coordinates, topic and clock reading of one added point. */
  datatype Reading = Reading(x: real, y: real, z: real, topic: string, now: string)

  /** The trajectory after adding each reading in turn. */
  function Replay(points: seq<Point>, readings: seq<Reading>): seq<Point>
    decreases readings
  {
    if readings == [] then points
    else
      var r := readings[0];
      Replay(points + [Recorded(|points|, r.x, r.y, r.z, r.topic, r.now)], readings[1..])
  }

  /** Adding readings keeps earlier points, and each new point carries the
      next turn number and its classified zone. */
  lemma {:induction false} ReplayAppends(points: seq<Point>, readings: seq<Reading>)
    ensures |Replay(points, readings)| == |points| + |readings|
    ensures Replay(points, readings)[..|points|] == points
    ensures forall k :: 0 <= k < |readings| ==>
      Replay(points, readings)[|points| + k] ==
        Recorded(|points| + k, readings[k].x, readings[k].y, readings[k].z, readings[k].topic, readings[k].now)
    decreases readings
  {
    if readings != [] {
      var r := readings[0];
      var next := points + [Recorded(|points|, r.x, r.y, r.z, r.topic, r.now)];
      var rest := readings[1..];
      var result := Replay(points, readings);
      assert result == Replay(next, rest);
      ReplayAppends(next, rest);
      assert result[..|next|] == next;
      assert result[..|points|] == next[..|points|] == points;
      forall k | 0 <= k < |readings|
        ensures result[|points| + k] ==
          Recorded(|points| + k, readings[k].x, readings[k].y, readings[k].z, readings[k].topic, readings[k].now)
      {
        if k == 0 {
          assert result[|points|] == next[|points|];
        } else {
          assert readings[k] == rest[k - 1];
          assert result[|points| + k] == result[|next| + (k - 1)];
        }
      }
    }
  }

  /** n additions to an empty session number the turns 1..n, in order, and
      point k holds the k-th reading, labelled with its classification. */
  lemma ReplayFromEmpty(readings: seq<Reading>)
    ensures |Replay([], readings)| == |readings|
    ensures TurnsSequential(Replay([], readings))
    ensures forall k :: 0 <= k < |readings| ==>
      Replay([], readings)[k] ==
        Recorded(k, readings[k].x, readings[k].y, readings[k].z, readings[k].topic, readings[k].now)
  {
    ReplayAppends([], readings);
    forall k | 0 <= k < |readings|
      ensures Replay([], readings)[k] ==
        Recorded(k, readings[k].x, readings[k].y, readings[k].z, readings[k].topic, readings[k].now)
    {
      assert 0 + k == k;
    }
  }

  /** The first point of a trajectory starting (0.15, 0.12, 0.88), then
      (0.35, 0.40, 0.72), then (0.75, 0.78, 0.45) is Green, then Gold, then
      Yellow: two transitions, drifting toward Yellow, Green dominant by
      being seen first. */
  lemma GreenGoldYellowTrajectory(now: string)
    ensures var points := Replay([], [Reading(0.15, 0.12, 0.88, "", now),
                                      Reading(0.35, 0.40, 0.72, "", now),
                                      Reading(0.75, 0.78, 0.45, "", now)]);
      ZoneLabels(points) == ["Green", "Gold", "Yellow"] && Zs(points) == [0.88, 0.72, 0.45]
  {
    var readings := [Reading(0.15, 0.12, 0.88, "", now),
                     Reading(0.35, 0.40, 0.72, "", now),
                     Reading(0.75, 0.78, 0.45, "", now)];
    var points := Replay([], readings);
    ReplayFromEmpty(readings);
    assert points[0] == Recorded(0, 0.15, 0.12, 0.88, "", now);
    assert points[1] == Recorded(1, 0.35, 0.40, 0.72, "", now);
    assert points[2] == Recorded(2, 0.75, 0.78, 0.45, "", now);
  }

  lemma GreenGoldYellowZones()
    ensures Transitions(["Green", "Gold", "Yellow"]) ==
      [Transition(2, "Green", "Gold"), Transition(3, "Gold", "Yellow")]
    ensures IsDominant(["Green", "Gold", "Yellow"], "Green")
  {
    var zones: seq<string> := ["Green", "Gold", "Yellow"];
    assert zones[..2] == ["Green", "Gold"] && zones[..2][..1] == ["Green"];
    assert Transitions(zones[..2]) == [Transition(2, "Green", "Gold")];
    forall zone | zone in zones
      ensures Count(zones, zone) == 1
    {
      assert zone == "Green" || zone == "Gold" || zone == "Yellow";
    }
    assert FirstIndex(zones, "Green") == 0;
  }

  lemma GreenGoldYellowExample(now: string)
    ensures var points := Replay([], [Reading(0.15, 0.12, 0.88, "", now),
                                      Reading(0.35, 0.40, 0.72, "", now),
                                      Reading(0.75, 0.78, 0.45, "", now)]);
      Transitions(ZoneLabels(points)) ==
        [Transition(2, "Green", "Gold"), Transition(3, "Gold", "Yellow")] &&
      DriftOf(Zs(points)) == TowardYellow &&
      IsDominant(ZoneLabels(points), "Green")
  {
    var readings := [Reading(0.15, 0.12, 0.88, "", now),
                     Reading(0.35, 0.40, 0.72, "", now),
                     Reading(0.75, 0.78, 0.45, "", now)];
    GreenGoldYellowTrajectory(now);
    GreenGoldYellowZones();
  }

  /** The drift reads legitimacy alone: here the zone worsens from Yellow
      to Purple while the drift reports "toward_green". */
  lemma DriftIgnoresZones(now: string)
    ensures var points := Replay([], [Reading(0.1, 0.1, 0.5, "", now), Reading(0.99, 0.1, 0.9, "", now)]);
      ZoneLabels(points) == ["Yellow", "Purple"] && DriftOf(Zs(points)) == TowardGreen
  {
    var readings := [Reading(0.1, 0.1, 0.5, "", now), Reading(0.99, 0.1, 0.9, "", now)];
    var points := Replay([], readings);
    ReplayFromEmpty(readings);
    assert points[0] == Recorded(0, 0.1, 0.1, 0.5, "", now);
    assert points[1] == Recorded(1, 0.99, 0.1, 0.9, "", now);
    assert Zs(points) == [0.5, 0.9];
  }

  class Session {
    var sessionId: string
    var model: string
    var trajectory: seq<Point>
    var createdAt: string

    /** The session's fields as a value. */
    function Fields(): SessionFields
      reads this
    {
      SessionFields(sessionId, model, trajectory, createdAt)
    }

    /** Builds a session from its fields; an empty id is replaced by
        `generatedId` (a digest of the clock and the model name) and an
        empty creation time by `now`. */
    constructor (sessionId: string, model: string, trajectory: seq<Point>, createdAt: string,
                 generatedId: string, now: string)
      ensures Fields() == InitSession(SessionFields(sessionId, model, trajectory, createdAt), generatedId, now)
    {
      this.sessionId := if sessionId == "" then generatedId else sessionId;
      this.model := model;
      this.trajectory := trajectory;
      this.createdAt := if createdAt == "" then now else createdAt;
    }

    /** Appends the next turn: classified, numbered after the points already
        there, stamped with `now`. Nothing else changes. */
    method AddPoint(x: real, y: real, z: real, topic: string, now: string) returns (p: Point)
      modifies this
      ensures p == Recorded(|old(trajectory)|, x, y, z, topic, now)
      ensures trajectory == old(trajectory) + [p]
      ensures sessionId == old(sessionId) && model == old(model) && createdAt == old(createdAt)
      ensures TurnsSequential(old(trajectory)) ==> TurnsSequential(trajectory)
    {
      p := NewPoint(|trajectory| + 1, x, y, z, ZoneName(ClassifyZone(x, y, z)), topic, "", now);
      trajectory := trajectory + [p];
    }

    /** The summary statistics of the trajectory. */
    method Summarize() returns (s: Summary)
      ensures s == NoData <==> trajectory == []
      ensures s.Stats? ==> s.avgX == Mean(Xs(trajectory)) && Min(Xs(trajectory)) <= s.avgX <= Max(Xs(trajectory))
      ensures s.Stats? ==> s.avgY == Mean(Ys(trajectory)) && Min(Ys(trajectory)) <= s.avgY <= Max(Ys(trajectory))
      ensures s.Stats? ==> s.avgZ == Mean(Zs(trajectory)) && Min(Zs(trajectory)) <= s.avgZ <= Max(Zs(trajectory))
      ensures s.Stats? ==> IsDominant(ZoneLabels(trajectory), s.dominantZone)
      ensures s.Stats? ==> s.drift == DriftOf(Zs(trajectory))
      ensures s.Stats? ==> s.notableEvents == Transitions(ZoneLabels(trajectory))
    {
      if trajectory == [] {
        return NoData;
      }
      var xs, ys, zs, zones := Xs(trajectory), Ys(trajectory), Zs(trajectory), ZoneLabels(trajectory);
      var dominant := DominantZone(zones);
      var drift := DriftOf(zs);
      var notable := NotableEvents(trajectory);
      MeanBetweenExtremes(xs);
      MeanBetweenExtremes(ys);
      MeanBetweenExtremes(zs);
      s := Stats(Mean(xs), Mean(ys), Mean(zs), dominant, drift, notable);
    }

    /** The export document of the session. */
    function ToDoc(): (d: SessionDoc)
      reads this
      ensures d.totalExchanges == Some(|trajectory|)
    {
      EncodeSession(Fields())
    }
  }
}
