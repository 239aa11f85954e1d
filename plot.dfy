/** The character grid of the trajectory view: entropy (x) across,
    legitimacy (z) down, one glyph per point, later points drawn over
    earlier ones. */
module Plot {
  import opened Points

  const Width: int := 40
  const Height: int := 20

  /** Conversion of a real to an integer by truncation toward zero. */
  function Truncate(r: real): (t: int)
    ensures 0.0 <= r ==> 0 <= t && t as real <= r < t as real + 1.0
    ensures r < 0.0 ==> t <= 0 && t as real - 1.0 < r <= t as real
  {
    if r >= 0.0 then r.Floor else -((-r).Floor)
  }

  /** max(lo, min(hi, v)). */
  function Clamp(v: int, lo: int, hi: int): (c: int)
    requires lo <= hi
    ensures lo <= c <= hi
    ensures lo <= v <= hi ==> c == v
    ensures v < lo ==> c == lo
    ensures v > hi ==> c == hi
  {
    if v < lo then lo else if v > hi then hi else v
  }

  /** The column a point is drawn in. */
  function Column(x: real): (col: int)
    ensures 0 <= col < Width
  {
    Clamp(Truncate(x * (Width - 1) as real), 0, Width - 1)
  }

  /** The row a point is drawn in; high legitimacy is at the top. */
  function Row(z: real): (row: int)
    ensures 0 <= row < Height
  {
    Clamp(Truncate((1.0 - z) * (Height - 1) as real), 0, Height - 1)
  }

  /** On the unit scale the clamp never bites: the cell is the plain scaled floor. */
  lemma CellUnclampedOnUnitScale(x: real, z: real)
    requires 0.0 <= x <= 1.0 && 0.0 <= z <= 1.0
    ensures Column(x) == (x * 39.0).Floor
    ensures Row(z) == ((1.0 - z) * 19.0).Floor
  {
  }

  /** Truncation toward zero is monotone. */
  lemma TruncateMonotone(a: real, b: real)
    requires a <= b
    ensures Truncate(a) <= Truncate(b)
  {
  }

  /** The view keeps order: more entropy is never further left, more
      legitimacy never lower. */
  lemma CellMonotone(x1: real, x2: real, z1: real, z2: real)
    requires x1 <= x2 && z1 <= z2
    ensures Column(x1) <= Column(x2)
    ensures Row(z2) <= Row(z1)
  {
  }

  /** The glyph for a zone label; an unknown label is drawn as '?'. */
  function Glyph(zone: string): (g: char)
    ensures g != ' '
  {
    if zone == "Green" then '●'
    else if zone == "Gold" then '◉'
    else if zone == "Yellow" then '○'
    else if zone == "Red" then '◎'
    else if zone == "Purple" then '◯'
    else '?'
  }

  predicate HitsCell(p: Point, row: int, col: int)
  {
    Row(p.z) == row && Column(p.x) == col
  }

  /** Point k lands in the cell and no later point does. */
  predicate LatestHit(points: seq<Point>, k: int, row: int, col: int)
  {
    0 <= k < |points| && HitsCell(points[k], row, col) &&
    forall j :: k < j < |points| ==> !HitsCell(points[j], row, col)
  }

  /** What the cell shows after all points are drawn: the glyph of the last
      point that lands there, blank if none does. */
  function CellAfter(points: seq<Point>, row: int, col: int): char
  {
    if points == [] then ' '
    else
      var last := points[|points| - 1];
      if HitsCell(last, row, col) then Glyph(last.zone)
      else CellAfter(points[..|points| - 1], row, col)
  }

  /** A cell is blank exactly when no point lands in it; otherwise it shows
      the glyph of the latest point that does. */
  lemma {:induction false} CellAfterLastHit(points: seq<Point>, row: int, col: int)
    ensures CellAfter(points, row, col) == ' ' <==>
      forall k :: 0 <= k < |points| ==> !HitsCell(points[k], row, col)
    ensures forall k :: LatestHit(points, k, row, col) ==>
      CellAfter(points, row, col) == Glyph(points[k].zone)
  {
    if points != [] {
      var n := |points|;
      var prefix := points[..n - 1];
      CellAfterLastHit(prefix, row, col);
      assert forall k :: 0 <= k < |prefix| ==> prefix[k] == points[k];
      if !HitsCell(points[n - 1], row, col) {
        assert CellAfter(points, row, col) == CellAfter(prefix, row, col);
        forall k | LatestHit(points, k, row, col)
          ensures CellAfter(points, row, col) == Glyph(points[k].zone)
        {
          assert LatestHit(prefix, k, row, col);
        }
      } else {
        assert CellAfter(points, row, col) == Glyph(points[n - 1].zone);
        forall k | LatestHit(points, k, row, col)
          ensures k == n - 1
        {
        }
      }
    }
  }

  /** Draws every point of the trajectory on a blank grid, in order. */
  method PlotPoints(points: seq<Point>) returns (grid: array2<char>)
    ensures fresh(grid)
    ensures grid.Length0 == Height && grid.Length1 == Width
    ensures forall row, col :: 0 <= row < Height && 0 <= col < Width ==>
      grid[row, col] == CellAfter(points, row, col)
  {
    grid := new char[Height, Width]((_, _) => ' ');
    for i := 0 to |points|
      invariant forall row, col :: 0 <= row < Height && 0 <= col < Width ==>
        grid[row, col] == CellAfter(points[..i], row, col)
    {
      var p := points[i];
      var row := Row(p.z);
      var col := Column(p.x);
      assert points[..i + 1][..i] == points[..i];
      grid[row, col] := Glyph(p.zone);
    }
    assert points[..|points|] == points;
  }
}
