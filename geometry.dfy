/** Optional values: a node that may or may not carry an attribute, a pixel
    layout cell that may or may not produce a pixel. */
module Wrappers {
  datatype Option<+T> = None | Some(value: T)
}

/** Planar geometry shared by every part of the simulation.

    The game compares Euclidean distances (`math.hypot`) against radii.  For a
    radius `r`, `hypot(p - q) < r` holds exactly when `0 < r` and the squared
    distance is below `r * r`, so every proximity test here is stated on squared
    distances and no square root is needed. */
module Geometry {
  datatype Point = Point(x: real, y: real)

  /** The playing field of the main game (src/constants.py, WINDOW_WIDTH/HEIGHT). */
  const WindowWidth: real := 480.0
  const WindowHeight: real := 800.0

  function Abs(v: real): (r: real)
    ensures r >= 0.0 && (r == v || r == -v)
  {
    if v < 0.0 then -v else v
  }

  function Min(a: real, b: real): (r: real)
    ensures r <= a && r <= b && (r == a || r == b)
  {
    if a <= b then a else b
  }

  function Max(a: real, b: real): (r: real)
    ensures r >= a && r >= b && (r == a || r == b)
  {
    if a >= b then a else b
  }

  /** Squared Euclidean distance. */
  function Dist2(p: Point, q: Point): (d: real)
    ensures d >= 0.0
  {
    (p.x - q.x) * (p.x - q.x) + (p.y - q.y) * (p.y - q.y)
  }

  /** The strict radius test `hypot(p - q) < r`. */
  predicate Within(p: Point, q: Point, r: real)
  {
    0.0 < r && Dist2(p, q) < r * r
  }

  /** `max(lo, min(v, hi))`, the clamp the game applies after every move. */
  function Clamp(v: real, lo: real, hi: real): (r: real)
    requires lo <= hi
    ensures lo <= r <= hi
    ensures lo <= v <= hi ==> r == v
    ensures v < lo ==> r == lo
    ensures hi < v ==> r == hi
  {
    Max(lo, Min(v, hi))
  }

  predicate InBox(p: Point, lo: Point, hi: Point)
  {
    lo.x <= p.x <= hi.x && lo.y <= p.y <= hi.y
  }

  /** Inside the 480 x 800 field, borders included. */
  predicate InWorld(p: Point)
  {
    InBox(p, Point(0.0, 0.0), Point(WindowWidth, WindowHeight))
  }

  /** Clamp a point into the 480 x 800 field. */
  function ClampToWorld(p: Point): (r: Point)
    ensures InWorld(r)
    ensures InWorld(p) ==> r == p
  {
    Point(Clamp(p.x, 0.0, WindowWidth), Clamp(p.y, 0.0, WindowHeight))
  }

  /** The heading ants and the snake take towards a point: the displacement
      divided by its L1 length `|dx| + |dy|`, or the current heading when the
      displacement is zero (the source skips the division when the total is 0).
      The result has L1 length one, is parallel to the displacement and points
      the same way. */
  function HeadingToward(from: Point, to: Point, current: Point): (h: Point)
    ensures from == to ==> h == current
    ensures from != to ==> Abs(h.x) + Abs(h.y) == 1.0
    ensures from != to ==> h.x * (to.y - from.y) == h.y * (to.x - from.x)
    ensures from != to ==> h.x * (to.x - from.x) >= 0.0 && h.y * (to.y - from.y) >= 0.0
  {
    var dx, dy := to.x - from.x, to.y - from.y;
    var total := Abs(dx) + Abs(dy);
    if total == 0.0 then current
    else
      var h := Point(dx / total, dy / total);
      HeadingFacts(dx, dy, total);
      h
  }

  lemma HeadingFacts(dx: real, dy: real, total: real)
    requires total == Abs(dx) + Abs(dy) && total != 0.0
    ensures Abs(dx / total) + Abs(dy / total) == 1.0
    ensures (dx / total) * dy == (dy / total) * dx
    ensures (dx / total) * dx >= 0.0 && (dy / total) * dy >= 0.0
  {
    var inv := 1.0 / total;
    assert total > 0.0 && inv > 0.0;
    assert total * inv == 1.0;
    ScaleByPositive(dx, total, inv);
    ScaleByPositive(dy, total, inv);
    calc {
      Abs(dx / total) + Abs(dy / total);
      Abs(dx) * inv + Abs(dy) * inv;
      (Abs(dx) + Abs(dy)) * inv;
      1.0;
    }
    assert (dx / total) * dy == dx * dy * inv == (dy / total) * dx;
    assert (dx / total) * dx == (dx * dx) * inv;
    assert (dy / total) * dy == (dy * dy) * inv;
  }

  lemma ScaleByPositive(v: real, total: real, inv: real)
    requires total > 0.0 && inv == 1.0 / total
    ensures v / total == v * inv
    ensures Abs(v / total) == Abs(v) * inv
  {
  }

  /** `k` is the index Python's `min(..., key=distance)` returns: a closest
      point, and the first one among equally close points. */
  predicate IsFirstNearest(p: Point, qs: seq<Point>, k: int)
  {
    && 0 <= k < |qs|
    && (forall j :: 0 <= j < |qs| ==> Dist2(p, qs[k]) <= Dist2(p, qs[j]))
    && (forall j :: 0 <= j < k ==> Dist2(p, qs[k]) < Dist2(p, qs[j]))
  }

  /** The tie-break makes the nearest point unique. */
  lemma FirstNearestUnique(p: Point, qs: seq<Point>, k: int, k': int)
    requires IsFirstNearest(p, qs, k) && IsFirstNearest(p, qs, k')
    ensures k == k'
  {
    assert Dist2(p, qs[k]) <= Dist2(p, qs[k']);
    assert Dist2(p, qs[k']) <= Dist2(p, qs[k]);
  }

  /** The index `min(range(len(qs)), key=...)` picks: a nearest point, the
      first one on a tie. */
  function NearestIndex(p: Point, qs: seq<Point>): (k: nat)
    requires |qs| > 0
    ensures IsFirstNearest(p, qs, k)
    decreases |qs|
  {
    if |qs| == 1 then 0
    else
      var k := NearestIndex(p, qs[..|qs| - 1]);
      if Dist2(p, qs[|qs| - 1]) < Dist2(p, qs[k]) then |qs| - 1 else k
  }

  /** A sequence that holds every object at most once. */
  predicate Distinct<T(==)>(s: seq<T>)
  {
    forall i, j :: 0 <= i < j < |s| ==> s[i] != s[j]
  }

  /** Dropping one element keeps a list duplicate-free. */
  lemma DistinctRemove<T>(s: seq<T>, k: nat)
    requires Distinct(s) && k < |s|
    ensures Distinct(s[..k] + s[k + 1..])
  {
    var r := s[..k] + s[k + 1..];
    forall i, j | 0 <= i < j < |r|
      ensures r[i] != r[j]
    {
      var i' := if i < k then i else i + 1;
      var j' := if j < k then j else j + 1;
      assert r[i] == s[i'] && r[j] == s[j'];
    }
  }

  /** Appending a new element keeps a list duplicate-free. */
  lemma DistinctAppend<T>(s: seq<T>, x: T)
    requires Distinct(s) && x !in s
    ensures Distinct(s + [x])
  {
  }
}
