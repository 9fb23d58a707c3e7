/**
 * Clusters of compatible edges, the gates two clusters must pass to be compatible, and the chains of
 * later compatible clusters that the score is computed from.
 */
module Clusters {
  import opened Consts
  import opened Seqs
  import opened Cliques
  import opened Paths
  import opened Rotation
  import opened Xyt

  /** The two prints, and the rounded direction of a vector `(dy, dx)`. */
  datatype Prints = Prints(probe: Prepared, gallery: Prepared, angle: (int, int) -> int)

  /** A cluster's mean rotation and the centroids of its near endpoints in either print. */
  datatype Average = Average(rot: int, px: int, py: int, gx: int, gy: int)

  datatype Cluster = Cluster(edges: seq<int>, avg: Average, probeEnds: seq<int>, galleryEnds: seq<int>)

  /** Every endpoint a row starts at has coordinates. */
  ghost predicate PrintsFit(t: Table, pr: Prints) {
    && |pr.probe.x| == |pr.probe.y| && |pr.gallery.x| == |pr.gallery.y|
    && forall i :: 0 <= i < |t.rows| ==>
         1 <= t.rows[i].pk <= |pr.probe.x| && 1 <= t.rows[i].ga <= |pr.gallery.x|
  }

  /** One column of the table, along the edges of a path. */
  function Along(path: seq<int>, rows: seq<ColpRow>, field: ColpRow -> int): (r: seq<int>)
    requires AllWithin(path, 1, |rows|)
    ensures |r| == |path| && forall i :: 0 <= i < |r| ==> r[i] == field(rows[path[i] - 1])
  {
    seq(|path|, i requires 0 <= i < |path| => field(rows[path[i] - 1]))
  }

  function Rot(r: ColpRow): int { r.rot }
  function Pk(r: ColpRow): int { r.pk }
  function Pj(r: ColpRow): int { r.pj }
  function Ga(r: ColpRow): int { r.ga }
  function Gb(r: ColpRow): int { r.gb }

  // --- One cluster ----------------------------------------------------------------------------

  function InsertSorted(s: seq<int>, x: int): (r: seq<int>) {
    if s == [] then [x] else
    var m := |s| - 1;
    if x == s[m] then s else if s[m] < x then s + [x] else InsertSorted(s[..m], x) + [s[m]]
  }

  lemma {:induction false} InsertSortedKeeps(s: seq<int>, x: int)
    requires Ascending(s)
    ensures Ascending(InsertSorted(s, x))
    ensures forall y :: y in InsertSorted(s, x) <==> y in s || y == x
  {
    if s == [] {
    } else if x == s[|s| - 1] {
    } else if s[|s| - 1] < x {
      AscendingSnoc(s, x);
    } else {
      var m := |s| - 1;
      InsertSortedKeeps(s[..m], x);
      var r := InsertSorted(s[..m], x);
      forall y | y in r ensures y < s[m] { }
      AscendingSnoc(r, s[m]);
      hide *;
      assert s == s[..m] + [s[m]];
    }
  }

  /** The sorted set of the endpoints at both ends of a path's edges. */
  function Ends(a: seq<int>, b: seq<int>): (r: seq<int>)
    requires |a| == |b|
  {
    if a == [] then [] else
    var m := |a| - 1;
    InsertSorted(InsertSorted(Ends(a[..m], b[..m]), a[m]), b[m])
  }

  /** A cluster's endpoint list is exactly the set of its edges' endpoints, ascending. */
  lemma {:induction false} EndsAreEndpoints(a: seq<int>, b: seq<int>)
    requires |a| == |b|
    ensures Ascending(Ends(a, b))
    ensures forall y :: y in Ends(a, b) <==> y in a || y in b
  {
    if a != [] {
      var m := |a| - 1;
      EndsAreEndpoints(a[..m], b[..m]);
      InsertSortedKeeps(Ends(a[..m], b[..m]), a[m]);
      InsertSortedKeeps(InsertSorted(Ends(a[..m], b[..m]), a[m]), b[m]);
      assert a == a[..m] + [a[m]] && b == b[..m] + [b[m]];
    }
  }

  /** A sum as 32-bit addition accumulates it. */
  function WrapSum(v: seq<int>): (r: int) {
    if v == [] then 0 else Wrap32(WrapSum(v[..|v| - 1]) + v[|v| - 1])
  }

  function Coordinates(col: seq<int>, ids: seq<int>): (r: seq<int>)
    requires AllWithin(ids, 1, |col|)
    ensures |r| == |ids| && forall i :: 0 <= i < |r| ==> r[i] == col[ids[i] - 1]
  {
    seq(|ids|, i requires 0 <= i < |ids| => col[ids[i] - 1])
  }

  function Centroid(col: seq<int>, ids: seq<int>): (r: int)
    requires ids != [] && AllWithin(ids, 1, |col|)
  {
    TruncDiv(WrapSum(Coordinates(col, ids)), |ids|)
  }

  function ClusterOf(path: seq<int>, t: Table, pr: Prints): (c: Cluster)
    requires path != [] && AllWithin(path, 1, |t.rows|) && PrintsFit(t, pr)
  {
    var ps, gs := Along(path, t.rows, Pk), Along(path, t.rows, Ga);
    var avg := Average(MeanRotation(Along(path, t.rows, Rot)), Centroid(pr.probe.x, ps), Centroid(pr.probe.y, ps),
                       Centroid(pr.gallery.x, gs), Centroid(pr.gallery.y, gs));
    Cluster(path, avg, Ends(ps, Along(path, t.rows, Pj)), Ends(gs, Along(path, t.rows, Gb)))
  }

  /** Everything a cluster is made from, accumulated along its edges. */
  datatype Gathered = Gathered(angles: Split, px: int, py: int, gx: int, gy: int,
                               probeEnds: seq<int>, galleryEnds: seq<int>)

  function Gather(path: seq<int>, t: Table, pr: Prints): (g: Gathered)
    requires AllWithin(path, 1, |t.rows|) && PrintsFit(t, pr)
  {
    var ps, gs := Along(path, t.rows, Pk), Along(path, t.rows, Ga);
    Gathered(SplitSum(Along(path, t.rows, Rot)),
             WrapSum(Coordinates(pr.probe.x, ps)), WrapSum(Coordinates(pr.probe.y, ps)),
             WrapSum(Coordinates(pr.gallery.x, gs)), WrapSum(Coordinates(pr.gallery.y, gs)),
             Ends(ps, Along(path, t.rows, Pj)), Ends(gs, Along(path, t.rows, Gb)))
  }

  function CountAngle(s: Split, a: int): (r: Split) {
    if a < 0 then s.(neg := s.neg + a, nneg := s.nneg + 1) else s.(pos := s.pos + a, npos := s.npos + 1)
  }

  /** One edge's contribution. */
  function GatherEdge(g: Gathered, row: ColpRow, pr: Prints): (r: Gathered)
    requires 1 <= row.pk <= |pr.probe.x| == |pr.probe.y| && 1 <= row.ga <= |pr.gallery.x| == |pr.gallery.y|
  {
    Gathered(CountAngle(g.angles, row.rot),
             Wrap32(g.px + pr.probe.x[row.pk - 1]), Wrap32(g.py + pr.probe.y[row.pk - 1]),
             Wrap32(g.gx + pr.gallery.x[row.ga - 1]), Wrap32(g.gy + pr.gallery.y[row.ga - 1]),
             InsertSorted(InsertSorted(g.probeEnds, row.pk), row.pj),
             InsertSorted(InsertSorted(g.galleryEnds, row.ga), row.gb))
  }

  lemma AlongSnoc(path: seq<int>, rows: seq<ColpRow>, field: ColpRow -> int, i: nat)
    requires AllWithin(path, 1, |rows|) && i < |path|
    ensures AllWithin(path[..i], 1, |rows|) && AllWithin(path[..i + 1], 1, |rows|)
    ensures Along(path[..i + 1], rows, field) == Along(path[..i], rows, field) + [field(rows[path[i] - 1])]
  {
  }

  lemma CoordinateSumSnoc(col: seq<int>, ids: seq<int>, id: int)
    requires AllWithin(ids, 1, |col|) && 1 <= id <= |col|
    ensures AllWithin(ids + [id], 1, |col|)
    ensures WrapSum(Coordinates(col, ids + [id])) == Wrap32(WrapSum(Coordinates(col, ids)) + col[id - 1])
  {
    var c := Coordinates(col, ids + [id]);
    assert c[..|c| - 1] == Coordinates(col, ids) && c[|c| - 1] == col[id - 1];
  }

  lemma EndsSnoc(a: seq<int>, b: seq<int>, x: int, y: int)
    requires |a| == |b|
    ensures Ends(a + [x], b + [y]) == InsertSorted(InsertSorted(Ends(a, b), x), y)
  {
    assert (a + [x])[..|a|] == a && (b + [y])[..|b|] == b;
  }

  lemma SplitSumSnoc(v: seq<int>, a: int)
    ensures SplitSum(v + [a]) == CountAngle(SplitSum(v), a)
  {
    assert (v + [a])[..|v|] == v;
  }

  lemma GatherSnoc(path: seq<int>, t: Table, pr: Prints, i: nat)
    requires AllWithin(path, 1, |t.rows|) && PrintsFit(t, pr) && i < |path|
    ensures AllWithin(path[..i], 1, |t.rows|) && AllWithin(path[..i + 1], 1, |t.rows|)
    ensures Gather(path[..i + 1], t, pr) == GatherEdge(Gather(path[..i], t, pr), t.rows[path[i] - 1], pr)
  {
    hide Along, Coordinates, Ends, WrapSum, SplitSum, InsertSorted, CountAngle, Wrap32;
    var row := t.rows[path[i] - 1];
    AlongSnoc(path, t.rows, Rot, i);
    AlongSnoc(path, t.rows, Pk, i);
    AlongSnoc(path, t.rows, Pj, i);
    AlongSnoc(path, t.rows, Ga, i);
    AlongSnoc(path, t.rows, Gb, i);
    var ps, gs := Along(path[..i], t.rows, Pk), Along(path[..i], t.rows, Ga);
    SplitSumSnoc(Along(path[..i], t.rows, Rot), row.rot);
    CoordinateSumSnoc(pr.probe.x, ps, row.pk);
    CoordinateSumSnoc(pr.probe.y, ps, row.pk);
    CoordinateSumSnoc(pr.gallery.x, gs, row.ga);
    CoordinateSumSnoc(pr.gallery.y, gs, row.ga);
    EndsSnoc(ps, Along(path[..i], t.rows, Pj), row.pk, row.pj);
    EndsSnoc(gs, Along(path[..i], t.rows, Gb), row.ga, row.gb);
  }

  /** The accumulated values are what the cluster is made of. */
  lemma GatheredIsCluster(path: seq<int>, t: Table, pr: Prints)
    requires path != [] && AllWithin(path, 1, |t.rows|) && PrintsFit(t, pr)
    ensures var g, c := Gather(path, t, pr), ClusterOf(path, t, pr);
      && g.angles.nneg + g.angles.npos > 0
      && c.avg == Average(FoldMean(RawMean(g.angles)), TruncDiv(g.px, |path|), TruncDiv(g.py, |path|),
                          TruncDiv(g.gx, |path|), TruncDiv(g.gy, |path|))
      && c == Cluster(path, c.avg, g.probeEnds, g.galleryEnds)
      && Ascending(g.probeEnds) && Ascending(g.galleryEnds)
  {
    EndsAreEndpoints(Along(path, t.rows, Pk), Along(path, t.rows, Pj));
    EndsAreEndpoints(Along(path, t.rows, Ga), Along(path, t.rows, Gb));
  }

  lemma GatherNothing(path: seq<int>, t: Table, pr: Prints)
    requires PrintsFit(t, pr)
    ensures AllWithin(path[..0], 1, |t.rows|)
    ensures Gather(path[..0], t, pr) == Gathered(Split(0, 0, 0, 0), 0, 0, 0, 0, [], [])
  {
  }

  lemma NearEndsFit(t: Table, pr: Prints, e: int)
    requires PrintsFit(t, pr) && 1 <= e <= |t.rows|
    ensures var row := t.rows[e - 1];
      1 <= row.pk <= |pr.probe.x| == |pr.probe.y| && 1 <= row.ga <= |pr.gallery.x| == |pr.gallery.y|
  {
  }

  // --- Compatibility --------------------------------------------------------------------------

  predicate Meets(a: seq<int>, b: seq<int>) {
    exists i :: 0 <= i < |a| && a[i] in b
  }

  /** The vectors between the two clusters' centroids have lengths within the tolerance of one another. */
  predicate SpacingAgrees(dpx: int, dpy: int, dgx: int, dgy: int) {
    var tt, ai := dpx * dpx + dpy * dpy, dgy * dgy + dgx * dgx;
    10 * (if tt >= ai then tt - ai else ai - tt) <= tt + ai
  }

  /** The linear test is the squared one: the squared lengths are at most a tenth of their sum apart. */
  lemma SpacingIsSquared(dpx: int, dpy: int, dgx: int, dgy: int)
    ensures var tt, ai := dpx * dpx + dpy * dpy, dgy * dgy + dgx * dgx;
      SpacingAgrees(dpx, dpy, dgx, dgy) <==> !(100 * ((tt - ai) * (tt - ai)) > (tt + ai) * (tt + ai))
  {
    var tt, ai := dpx * dpx + dpy * dpy, dgy * dgy + dgx * dgx;
    var d := if tt >= ai then tt - ai else ai - tt;
    SquaresAreNat(dpx, dpy);
    SquaresAreNat(dgy, dgx);
    TenthSquared(d, tt - ai);
    SquareBelow(tt + ai, 10 * d);
  }

  lemma SquaresAreNat(a: int, b: int)
    ensures a * a + b * b >= 0
  {
  }

  lemma TenthSquared(d: int, e: int)
    requires d == e || d == -e
    ensures (10 * d) * (10 * d) == 100 * (e * e)
  {
  }

  /** The rotation, spacing and direction gates between an earlier cluster and a later one. */
  predicate GatesPass(a: Average, b: Average, angle: (int, int) -> int) {
    var dpx, dpy := Wrap32(b.px - a.px), Wrap32(b.py - a.py);
    var dgx, dgy := Wrap32(b.gx - a.gx), Wrap32(b.gy - a.gy);
    && !OutOfBand(b.rot - a.rot)
    && SpacingAgrees(dpx, dpy, dgx, dgy)
    && !OutOfBand(MeanRotation([b.rot, a.rot]) - Iangle180(angle(dpy, dpx) - angle(dgy, dgx)))
  }

  predicate Compatible(a: Cluster, b: Cluster, angle: (int, int) -> int) {
    && GatesPass(a.avg, b.avg, angle)
    && !Meets(a.probeEnds, b.probeEnds) && !Meets(a.galleryEnds, b.galleryEnds)
  }

  // --- The graph of clusters ------------------------------------------------------------------

  /** Cluster `i` followed by the compatible clusters among `i + 1 .. hi`. */
  function Chain(cs: seq<Cluster>, angle: (int, int) -> int, i: nat, hi: nat): (r: seq<int>)
    requires i < |cs| && hi <= |cs|
  {
    if hi <= i + 1 then [i] else
    Chain(cs, angle, i, hi - 1) + if Compatible(cs[i], cs[hi - 1], angle) then [hi - 1] else []
  }

  function Chains(cs: seq<Cluster>, angle: (int, int) -> int): (r: seq<seq<int>>)
    ensures |r| == |cs| && forall i :: 0 <= i < |r| ==> r[i] == Chain(cs, angle, i, |cs|)
  {
    seq(|cs|, i requires 0 <= i < |cs| => Chain(cs, angle, i, |cs|))
  }

  /** Each cluster weighs its edges. */
  function Counts(cs: seq<Cluster>): (r: seq<int>)
    ensures |r| == |cs| && forall i :: 0 <= i < |r| ==> r[i] == |cs[i].edges|
  {
    seq(|cs|, i requires 0 <= i < |cs| => |cs[i].edges|)
  }

  lemma {:induction false} ChainIsFilter(cs: seq<Cluster>, angle: (int, int) -> int, i: nat, hi: nat)
    requires i < hi <= |cs|
    ensures var r := Chain(cs, angle, i, hi);
      && r != [] && r[0] == i && Ascending(r) && AllWithin(r, i, hi - 1)
      && forall j :: i < j < hi ==> (j in r <==> Compatible(cs[i], cs[j], angle))
  {
    hide Compatible;
    if hi > i + 1 {
      ChainIsFilter(cs, angle, i, hi - 1);
    }
  }

  lemma ChainsAreChains(cs: seq<Cluster>, angle: (int, int) -> int)
    ensures IsChains(Chains(cs, angle))
    ensures forall i, j :: 0 <= i < j < |cs| ==> (j in Chains(cs, angle)[i] <==> Compatible(cs[i], cs[j], angle))
  {
    hide Compatible;
    forall i | 0 <= i < |cs|
      ensures var r := Chains(cs, angle)[i];
        && r != [] && r[0] == i && Ascending(r) && AllWithin(r, i, |cs| - 1)
        && forall j :: i < j < |cs| ==> (j in r <==> Compatible(cs[i], cs[j], angle))
    {
      ChainIsFilter(cs, angle, i, |cs|);
    }
  }

  /** A longer list of clusters does not change the chain among the first `hi`. */
  lemma {:induction false} ChainOfPrefix(cs: seq<Cluster>, c: Cluster, angle: (int, int) -> int, i: nat, hi: nat)
    requires i < |cs| && hi <= |cs|
    ensures Chain(cs + [c], angle, i, hi) == Chain(cs, angle, i, hi)
  {
    hide Compatible;
    if hi > i + 1 {
      ChainOfPrefix(cs, c, angle, i, hi - 1);
    }
  }
}
