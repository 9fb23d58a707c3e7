/** Input normalisation: cap the minutiae, fold the angle once, sort by (x, y). */
module Xyt {
  import opened StableSort

  datatype Minutia = Minutia(x: int, y: int, theta: int)

  /** The three parallel columns stage 1 reads. */
  datatype Prepared = Prepared(x: seq<int>, y: seq<int>, theta: seq<int>)

  datatype Point = Point(x: int, y: int, theta: int)

  predicate ByXY(a: Point, b: Point) {
    a.x < b.x || (a.x == b.x && a.y <= b.y)
  }

  /** One conditional subtraction, not a modulo. */
  function FoldTheta(t: int): (r: int)
    ensures 0 <= t <= 359 ==> -180 < r <= 180
    ensures (r - t) % 360 == 0
  {
    if t > 180 then t - 360 else t
  }

  function Normalised(m: Minutia): (r: Point) {
    Point(m.x, m.y, FoldTheta(m.theta))
  }

  function Taken(minutiae: seq<Minutia>, max: nat): (r: seq<Minutia>) {
    if |minutiae| <= max then minutiae else minutiae[..max]
  }

  function Points(minutiae: seq<Minutia>): (r: seq<Point>)
    ensures |r| == |minutiae|
  {
    seq(|minutiae|, i requires 0 <= i < |minutiae| => Normalised(minutiae[i]))
  }

  /** The rows behind a prepared print: the first `max` minutiae, stably sorted. */
  function Rows(minutiae: seq<Minutia>, max: nat): (r: seq<Point>) {
    Sort(Points(Taken(minutiae, max)), ByXY)
  }

  function Columns(rows: seq<Point>): (p: Prepared)
    ensures |p.x| == |p.y| == |p.theta| == |rows|
  {
    Prepared(seq(|rows|, i requires 0 <= i < |rows| => rows[i].x),
             seq(|rows|, i requires 0 <= i < |rows| => rows[i].y),
             seq(|rows|, i requires 0 <= i < |rows| => rows[i].theta))
  }

  /** The columns are parallel and ascend by (x, y). */
  ghost predicate Valid(p: Prepared) {
    && |p.x| == |p.y| == |p.theta|
    && forall i, j :: 0 <= i < j < |p.x| ==> p.x[i] < p.x[j] || (p.x[i] == p.x[j] && p.y[i] <= p.y[j])
  }

  lemma ByXYIsPreorder()
    ensures Preorder(ByXY)
  {
  }

  method Prepare(minutiae: seq<Minutia>, max: nat) returns (p: Prepared)
    ensures p == Columns(Rows(minutiae, max))
    ensures Valid(p) && |p.x| == if |minutiae| <= max then |minutiae| else max
  {
    var rows := Rows(minutiae, max);
    SortElements(Points(Taken(minutiae, max)), ByXY);
    ByXYIsPreorder();
    SortSorts(Points(Taken(minutiae, max)), ByXY);
    var x, y, theta := [], [], [];
    for i := 0 to |rows|
      invariant |x| == |y| == |theta| == i
      invariant forall k :: 0 <= k < i ==> x[k] == rows[k].x && y[k] == rows[k].y && theta[k] == rows[k].theta
    {
      x, y, theta := x + [rows[i].x], y + [rows[i].y], theta + [rows[i].theta];
    }
    p := Prepared(x, y, theta);
  }

  /** The points of a prepared print. */
  function PointsOf(p: Prepared): (r: seq<Point>)
    requires |p.x| == |p.y| == |p.theta|
    ensures |r| == |p.x| && forall i :: 0 <= i < |r| ==> r[i] == Point(p.x[i], p.y[i], p.theta[i])
  {
    seq(|p.x|, i requires 0 <= i < |p.x| => Point(p.x[i], p.y[i], p.theta[i]))
  }

  /** A print is prepared from its first 150 minutiae as listed, every one with its angle folded, and no other. */
  lemma PreparedHoldsFirst(minutiae: seq<Minutia>, max: nat, first: seq<Point>)
    requires |first| == if |minutiae| < max then |minutiae| else max
    requires forall i :: 0 <= i < |first| ==> var m := minutiae[i];
      first[i] == Point(m.x, m.y, if m.theta > 180 then m.theta - 360 else m.theta)
    ensures multiset(PointsOf(Columns(Rows(minutiae, max)))) == multiset(first)
  {
    hide Sort, ByXY;
    var points := Points(Taken(minutiae, max));
    SortElements(points, ByXY);
    assert points == first;
    assert PointsOf(Columns(Rows(minutiae, max))) == Rows(minutiae, max);
  }
}
