/** The field mapping behind a session export and import. A document is
    the parsed JSON object: each key may be present (`Some`) or absent
    (`None`); the JSON text itself is not modelled. */
module Records {
  import opened Zones
  import opened Points

  datatype Option<T> = None | Some(value: T) {
    function GetOr(default: T): T
    {
      match this
      case Some(v) => v
      case None => default
    }
  }

  datatype Result<T> = Ok(value: T) | Err(message: string)

  /** One trajectory entry of a session document. */
  datatype PointDoc = PointDoc(
    turn: Option<int>,
    x: Option<real>,
    y: Option<real>,
    z: Option<real>,
    zone: Option<string>,
    topic: Option<string>,
    timestamp: Option<string>)

  /** The keys of a session document that import reads, plus the point
      count that export writes. */
  datatype SessionDoc = SessionDoc(
    sessionId: Option<string>,
    model: Option<string>,
    createdAt: Option<string>,
    totalExchanges: Option<int>,
    trajectory: Option<seq<PointDoc>>)

  /** The constructor arguments of a session. */
  datatype SessionFields = SessionFields(
    sessionId: string,
    model: string,
    trajectory: seq<Point>,
    createdAt: string)

  /** Every field of a point becomes a key of its entry, so the entry can be
      read back, and a point whose defaults would not fire comes back as it was. */
  function EncodePoint(p: Point): (d: PointDoc)
    ensures HasRequiredKeys(d)
    ensures Settled(p) ==> forall now :: DecodePoint(d, now) == Ok(p)
  {
    PointDoc(Some(p.turn), Some(p.x), Some(p.y), Some(p.z), Some(p.zone), Some(p.topic), Some(p.timestamp))
  }

  /** turn, x, y, z and zone have no default: an entry without one of them
      cannot be turned into a point. */
  predicate HasRequiredKeys(d: PointDoc)
  {
    d.turn.Some? && d.x.Some? && d.y.Some? && d.z.Some? && d.zone.Some?
  }

  /** Builds a point from an entry: topic and timestamp default to empty, and
      point construction then fills an empty timestamp with `now` and an
      empty zone with the classifier's label. */
  function DecodePoint(d: PointDoc, now: string): (r: Result<Point>)
    ensures r.Ok? <==> HasRequiredKeys(d)
    ensures r.Ok? ==> r.value.turn == d.turn.value && r.value.x == d.x.value
    ensures r.Ok? ==> r.value.y == d.y.value && r.value.z == d.z.value
    ensures r.Ok? ==> r.value.topic == d.topic.GetOr("") && r.value.zone != ""
    ensures r.Ok? && d.zone.value != "" ==> r.value.zone == d.zone.value
    ensures r.Ok? && d.zone.value == "" ==> r.value.zone == ZoneName(ClassifyZone(d.x.value, d.y.value, d.z.value))
    ensures r.Ok? ==> r.value.timestamp == (if d.timestamp.GetOr("") == "" then now else d.timestamp.value)
  {
    if !HasRequiredKeys(d) then Err("point entry is missing a required key")
    else Ok(NewPoint(d.turn.value, d.x.value, d.y.value, d.z.value, d.zone.value,
                     d.topic.GetOr(""), d.timestamp.GetOr(""), now))
  }

  /** Decodes the entries in order; the first bad entry fails the whole import. */
  function DecodePoints(ds: seq<PointDoc>, now: string): (r: Result<seq<Point>>)
    ensures r.Ok? <==> forall i :: 0 <= i < |ds| ==> HasRequiredKeys(ds[i])
    ensures r.Ok? ==> |r.value| == |ds|
    ensures r.Ok? ==> forall i :: 0 <= i < |ds| ==> DecodePoint(ds[i], now) == Ok(r.value[i])
  {
    if ds == [] then Ok([])
    else
      match DecodePoint(ds[0], now)
      case Err(m) => Err(m)
      case Ok(p) =>
        match DecodePoints(ds[1..], now)
        case Err(m) => Err(m)
        case Ok(ps) => Ok([p] + ps)
  }

  /** Export: the identifying fields, the point count and every point. */
  function EncodeSession(f: SessionFields): (d: SessionDoc)
    ensures d.totalExchanges == Some(|f.trajectory|)
  {
    SessionDoc(Some(f.sessionId), Some(f.model), Some(f.createdAt), Some(|f.trajectory|),
               Some(seq(|f.trajectory|, i requires 0 <= i < |f.trajectory| => EncodePoint(f.trajectory[i]))))
  }

  /** Import: a missing id or creation time becomes empty (and is filled in
      when the session is built), a missing model becomes "Unknown", a
      missing trajectory is empty; the point count is not read. */
  function DecodeSession(d: SessionDoc, now: string): (r: Result<SessionFields>)
    ensures r.Ok? <==> forall i :: 0 <= i < |d.trajectory.GetOr([])| ==> HasRequiredKeys(d.trajectory.GetOr([])[i])
    ensures r.Ok? ==> r.value.model == d.model.GetOr("Unknown")
    ensures r.Ok? ==> |r.value.trajectory| == |d.trajectory.GetOr([])|
    ensures r.Ok? ==> DecodePoints(d.trajectory.GetOr([]), now) == Ok(r.value.trajectory)
    ensures r.Ok? ==> r.value.sessionId == d.sessionId.GetOr("") && r.value.createdAt == d.createdAt.GetOr("")
  {
    match DecodePoints(d.trajectory.GetOr([]), now)
    case Err(m) => Err(m)
    case Ok(points) =>
      Ok(SessionFields(d.sessionId.GetOr(""), d.model.GetOr("Unknown"), points, d.createdAt.GetOr("")))
  }

  /** Session construction: an empty id is replaced by a generated one and an
      empty creation time by `now`. */
  function InitSession(f: SessionFields, generatedId: string, now: string): (g: SessionFields)
    ensures g.model == f.model && g.trajectory == f.trajectory
    ensures g.sessionId == (if f.sessionId == "" then generatedId else f.sessionId)
    ensures g.createdAt == (if f.createdAt == "" then now else f.createdAt)
  {
    SessionFields(if f.sessionId == "" then generatedId else f.sessionId,
                  f.model, f.trajectory,
                  if f.createdAt == "" then now else f.createdAt)
  }

  /** A point survives the trip when neither of its defaults would fire. */
  predicate Settled(p: Point)
  {
    p.zone != "" && p.timestamp != ""
  }

  /** A session whose id, creation time and points are all filled in. */
  predicate SettledSession(f: SessionFields)
  {
    f.sessionId != "" && f.createdAt != "" &&
    forall i :: 0 <= i < |f.trajectory| ==> Settled(f.trajectory[i])
  }

  lemma {:induction false} DecodePointsRoundTrip(points: seq<Point>, now: string)
    requires forall i :: 0 <= i < |points| ==> Settled(points[i])
    ensures DecodePoints(seq(|points|, i requires 0 <= i < |points| => EncodePoint(points[i])), now) == Ok(points)
  {
    var ds := seq(|points|, i requires 0 <= i < |points| => EncodePoint(points[i]));
    if points != [] {
      var rest := seq(|points| - 1, i requires 0 <= i < |points| - 1 => EncodePoint(points[1..][i]));
      assert ds[1..] == rest;
      DecodePointsRoundTrip(points[1..], now);
      assert DecodePoint(ds[0], now) == Ok(points[0]);
      assert [points[0]] + points[1..] == points;
    }
  }

  /** Import after export rebuilds the same session, whatever the clock and
      the id generator say. */
  lemma SessionRoundTrip(f: SessionFields, generatedId: string, now: string)
    requires SettledSession(f)
    ensures DecodeSession(EncodeSession(f), now).Ok?
    ensures InitSession(DecodeSession(EncodeSession(f), now).value, generatedId, now) == f
  {
  }
}
