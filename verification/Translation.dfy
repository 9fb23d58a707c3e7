/**
 * Moving a print by whole pixels does not move its score: stage 1 reads only coordinate differences,
 * and stage 3 reads centroids only in differences between clusters of the same print.
 */
module Translation {
  import opened Consts
  import opened Seqs
  import opened StableSort
  import opened Xyt
  import opened Intra
  import opened Inter
  import opened Paths
  import CliqueOverrun
  import opened Clusters
  import opened ScoreFacts
  import Rotation
  import opened Seeds
  import opened Recast
  import opened Matcher
  import opened Pipeline

  // --- Stages 1 and 2 -------------------------------------------------------------------------

  function Shifted(ms: seq<Minutia>, dx: int, dy: int): (r: seq<Minutia>)
    ensures |r| == |ms|
    ensures forall i :: 0 <= i < |r| ==> r[i] == Minutia(ms[i].x + dx, ms[i].y + dy, ms[i].theta)
  {
    seq(|ms|, i requires 0 <= i < |ms| => Minutia(ms[i].x + dx, ms[i].y + dy, ms[i].theta))
  }

  function ShiftedPoint(p: Point, dx: int, dy: int): (r: Point) {
    Point(p.x + dx, p.y + dy, p.theta)
  }

  function ShiftedPoints(ps: seq<Point>, dx: int, dy: int): (r: seq<Point>)
    ensures |r| == |ps| && forall i :: 0 <= i < |r| ==> r[i] == ShiftedPoint(ps[i], dx, dy)
  {
    seq(|ps|, i requires 0 <= i < |ps| => ShiftedPoint(ps[i], dx, dy))
  }

  function ShiftedColumn(v: seq<int>, d: int): (r: seq<int>)
    ensures |r| == |v| && forall i :: 0 <= i < |r| ==> r[i] == v[i] + d
  {
    seq(|v|, i requires 0 <= i < |v| => v[i] + d)
  }

  function ShiftedPrint(p: Prepared, dx: int, dy: int): (r: Prepared) {
    Prepared(ShiftedColumn(p.x, dx), ShiftedColumn(p.y, dy), p.theta)
  }

  lemma {:induction false} InsertShifts(s: seq<Point>, x: Point, dx: int, dy: int)
    ensures Insert(ShiftedPoints(s, dx, dy), ShiftedPoint(x, dx, dy), ByXY) == ShiftedPoints(Insert(s, x, ByXY), dx, dy)
  {
    if s != [] && !ByXY(s[|s| - 1], x) {
      var m := |s| - 1;
      InsertShifts(s[..m], x, dx, dy);
      assert ShiftedPoints(s, dx, dy)[..m] == ShiftedPoints(s[..m], dx, dy);
    }
  }

  lemma {:induction false} SortShifts(s: seq<Point>, dx: int, dy: int)
    ensures Sort(ShiftedPoints(s, dx, dy), ByXY) == ShiftedPoints(Sort(s, ByXY), dx, dy)
  {
    if s != [] {
      var m := |s| - 1;
      SortShifts(s[..m], dx, dy);
      assert ShiftedPoints(s, dx, dy)[..m] == ShiftedPoints(s[..m], dx, dy);
      InsertShifts(Sort(s[..m], ByXY), s[m], dx, dy);
    }
  }

  lemma PrepShifts(ms: seq<Minutia>, dx: int, dy: int)
    ensures Prep(Shifted(ms, dx, dy)) == ShiftedPrint(Prep(ms), dx, dy)
  {
    var max := DEFAULT_BOZORTH_MINUTIAE;
    var taken := Taken(ms, max);
    assert Taken(Shifted(ms, dx, dy), max) == Shifted(taken, dx, dy);
    assert Points(Shifted(taken, dx, dy)) == ShiftedPoints(Points(taken), dx, dy);
    SortShifts(Points(taken), dx, dy);
    hide Sort, Taken, Points, ByXY;
    ColumnsShift(Rows(ms, max), dx, dy);
  }

  lemma ColumnsShift(rows: seq<Point>, dx: int, dy: int)
    ensures Columns(ShiftedPoints(rows, dx, dy)) == ShiftedPrint(Columns(rows), dx, dy)
  {
  }

  lemma {:induction false} ScanIgnoresShift(p: Prepared, dx: int, dy: int, slope: Slope, k: nat, j: nat)
    requires Parallel(p) && k < |p.x|
    ensures ScanFrom(ShiftedPrint(p, dx, dy), slope, k, j) == ScanFrom(p, slope, k, j)
    decreases |p.x| - j
  {
    if j < |p.x| {
      ScanIgnoresShift(p, dx, dy, slope, k, j + 1);
      hide Wrap32;
      var p' := ShiftedPrint(p, dx, dy);
      assert p'.x[j] - p'.x[k] == p.x[j] - p.x[k] && p'.y[j] - p'.y[k] == p.y[j] - p.y[k];
      assert EdgeRow(p', k, j, slope) == EdgeRow(p, k, j, slope);
    }
  }

  lemma {:induction false} ScanAllIgnoresShift(p: Prepared, dx: int, dy: int, slope: Slope, k: nat)
    requires Parallel(p)
    ensures ScanAll(ShiftedPrint(p, dx, dy), slope, k) == ScanAll(p, slope, k)
    decreases |p.x| - k
  {
    if k + 1 < |p.x| {
      ScanIgnoresShift(p, dx, dy, slope, k, k + 1);
      ScanAllIgnoresShift(p, dx, dy, slope, k + 1);
    }
  }

  /** Stage 1's table, sorted and pruned, does not see where the print lies. */
  lemma TablesIgnoreShift(p: Prepared, dx: int, dy: int, slope: Slope)
    requires Parallel(p)
    ensures EdgeTable(ShiftedPrint(p, dx, dy), slope) == EdgeTable(p, slope)
    ensures PrunedTable(ShiftedPrint(p, dx, dy), slope) == PrunedTable(p, slope)
  {
    ScanAllIgnoresShift(p, dx, dy, slope, 0);
  }

  // --- Centroids ------------------------------------------------------------------------------

  /** The largest coordinate whose sum over a whole table still fits 32 bits. */
  const MAX_COORDINATE := 107_379

  ghost predicate InImage(v: seq<int>) {
    forall i :: 0 <= i < |v| ==> 0 <= v[i] <= MAX_COORDINATE
  }

  ghost function PlainSum(v: seq<int>): (r: int) {
    if v == [] then 0 else PlainSum(v[..|v| - 1]) + v[|v| - 1]
  }

  /** Wrapping at every step is wrapping once: only the whole sum has to fit. */
  lemma {:induction false} WrapSumIsWrapped(v: seq<int>)
    ensures WrapSum(v) == Wrap32(PlainSum(v))
  {
    if v != [] {
      WrapSumIsWrapped(v[..|v| - 1]);
      WrapTwice(PlainSum(v[..|v| - 1]), v[|v| - 1]);
      hide Wrap32;
    }
  }

  lemma WrapTwice(a: int, b: int)
    ensures Wrap32(Wrap32(a) + b) == Wrap32(a + b)
  {
  }

  lemma {:induction false} SumInImage(v: seq<int>)
    requires InImage(v)
    ensures 0 <= PlainSum(v) <= |v| * MAX_COORDINATE
  {
    if v != [] {
      SumInImage(v[..|v| - 1]);
    }
  }

  lemma {:induction false} SumShifts(v: seq<int>, d: int)
    ensures PlainSum(ShiftedColumn(v, d)) == PlainSum(v) + |v| * d
  {
    if v != [] {
      var m := |v| - 1;
      SumShifts(v[..m], d);
      assert ShiftedColumn(v, d)[..m] == ShiftedColumn(v[..m], d);
    }
  }

  predicate Fits32(a: int) {
    -0x8000_0000 <= a < 0x8000_0000
  }

  /** A sum `s` of `n` coordinates keeps its side of zero when each moves by `d`, or divides evenly. */
  predicate Carries(s: int, n: int, d: int)
    requires n > 0
  {
    (s >= 0 && s + n * d >= 0) || (s <= 0 && s + n * d <= 0) || s % n == 0
  }

  /** Truncating division moves by `d` exactly when the sum carries. */
  lemma DivisionShifts(s: int, n: int, d: int)
    requires n > 0
    ensures TruncDiv(s + n * d, n) == TruncDiv(s, n) + d <==> Carries(s, n, d)
  {
    hide TruncDiv;
    FloorShifts(s, n, d);
    TruncIsFloor(s, n);
    TruncIsFloor(s + n * d, n);
    ZeroDividesEvenly(n);
    SidesDecide(s, s + n * d, s / n, d, s % n);
  }

  lemma ZeroDividesEvenly(n: int)
    requires n > 0
    ensures 0 % n == 0
  {
  }

  /** Both numbers are rounded up to zero or neither is, exactly when they lie on one side of it or are whole. */
  lemma SidesDecide(s: int, t: int, q: int, d: int, rem: int)
    requires (s == 0 || t == 0) ==> rem == 0
    ensures q + d + (if t < 0 && rem != 0 then 1 else 0) == q + (if s < 0 && rem != 0 then 1 else 0) + d
      <==> (s >= 0 && t >= 0) || (s <= 0 && t <= 0) || rem == 0
  {
  }

  lemma FloorShifts(s: int, n: int, d: int)
    requires n > 0
    ensures (s + n * d) / n == s / n + d && (s + n * d) % n == s % n
  {
    assert n * (s / n + d) == n * (s / n) + n * d;
    FloorIs(s + n * d, n, s / n + d, s % n);
  }

  lemma FloorIs(s: int, n: int, q: int, r: int)
    requires 0 <= r < n && s == n * q + r
    ensures s / n == q && s % n == r
  {
    var q' := s / n;
    assert n * (q + 1) == n * q + n && n * (q' + 1) == n * q' + n;
    if q' < q { ScaleUp(n, q' + 1, q); }
    if q' > q { ScaleUp(n, q + 1, q'); }
  }

  /** Truncation is the floor, and one more for a negative number that does not divide evenly. */
  lemma TruncIsFloor(s: int, n: int)
    requires n > 0
    ensures TruncDiv(s, n) == s / n + if s < 0 && s % n != 0 then 1 else 0
  {
    var q, r := TruncDiv(s, n), s / n;
    assert n * (q - 1) == n * q - n && n * (r + 1) == n * r + n && n * (r + 2) == n * r + 2 * n;
    if q < r { ScaleUp(n, q + 1, r); }
    if q > r + 1 { ScaleUp(n, r + 2, q); }
  }

  /**
   * A centroid moves with its print exactly when the coordinate sum carries, whatever the signs of the
   * coordinates themselves.
   */
  lemma CentroidShifts(col: seq<int>, ids: seq<int>, d: int)
    requires ids != [] && AllWithin(ids, 1, |col|)
    requires var s := PlainSum(Coordinates(col, ids)); Fits32(s) && Fits32(s + |ids| * d)
    ensures AllWithin(ids, 1, |ShiftedColumn(col, d)|)
    ensures Centroid(ShiftedColumn(col, d), ids) == Centroid(col, ids) + d
      <==> Carries(PlainSum(Coordinates(col, ids)), |ids|, d)
  {
    hide PlainSum, WrapSum, TruncDiv, Carries;
    var v := Coordinates(col, ids);
    assert Coordinates(ShiftedColumn(col, d), ids) == ShiftedColumn(v, d);
    WrapSumIsWrapped(v);
    WrapSumIsWrapped(ShiftedColumn(v, d));
    SumShifts(v, d);
    DivisionShifts(PlainSum(v), |v|, d);
  }

  /** The coordinates that `ids` picks from `col` fit 32 bits in sum, and carry a move by `d`. */
  ghost predicate SumCarries(col: seq<int>, ids: seq<int>, d: int)
    requires ids != [] && AllWithin(ids, 1, |col|)
  {
    var s := PlainSum(Coordinates(col, ids));
    Fits32(s) && Fits32(s + |ids| * d) && Carries(s, |ids|, d)
  }

  /** Coordinates in the image carry any move that stays in it. */
  lemma ImageCarries(col: seq<int>, ids: seq<int>, d: int)
    requires ids != [] && AllWithin(ids, 1, |col|) && |ids| <= TABLE_OVERFLOW_LIMIT
    requires InImage(col) && InImage(ShiftedColumn(col, d))
    ensures SumCarries(col, ids, d)
  {
    var v := Coordinates(col, ids);
    SumInImage(v);
    SumInImage(ShiftedColumn(v, d));
    SumShifts(v, d);
  }

  lemma WrapSumOfTwo(a: int, b: int)
    ensures WrapSum([a, b]) == Wrap32(Wrap32(a) + b)
  {
    assert [a, b][..1] == [a] && [a][..0] == [];
    assert WrapSum([a]) == Wrap32(WrapSum([]) + a);
  }

  lemma CentroidOfTwo(col: seq<int>, ids: seq<int>)
    requires |col| == 2 && ids == [1, 2]
    ensures Centroid(col, ids) == TruncDiv(Wrap32(Wrap32(col[0]) + col[1]), 2)
  {
    assert Coordinates(col, ids) == [col[0], col[1]];
    WrapSumOfTwo(col[0], col[1]);
    hide WrapSum, Wrap32;
  }

  /** The condition of `CentroidShifts` cannot be dropped: a sum that crosses zero, and a centroid that stays behind. */
  lemma CentroidCrossingZero(col: seq<int>, ids: seq<int>)
    requires col == [-7, 0] && ids == [1, 2]
    ensures Centroid(ShiftedColumn(col, 5), ids) != Centroid(col, ids) + 5
  {
    CentroidOfTwo(col, ids);
    CentroidOfTwo(ShiftedColumn(col, 5), ids);
    hide Centroid;
  }

  // --- Clusters -------------------------------------------------------------------------------

  /** How far the probe and the gallery have been moved. */
  datatype Move = Move(px: int, py: int, gx: int, gy: int)

  function MovedAverage(a: Average, d: Move): (r: Average) {
    Average(a.rot, a.px + d.px, a.py + d.py, a.gx + d.gx, a.gy + d.gy)
  }

  function MovedCluster(c: Cluster, d: Move): (r: Cluster) {
    c.(avg := MovedAverage(c.avg, d))
  }

  function MovedAll(cs: seq<Cluster>, d: Move): (r: seq<Cluster>)
    ensures |r| == |cs| && forall i :: 0 <= i < |r| ==> r[i] == MovedCluster(cs[i], d)
  {
    seq(|cs|, i requires 0 <= i < |cs| => MovedCluster(cs[i], d))
  }

  /** Moving both clusters moves no gate between them. */
  lemma GatesIgnoreMove(a: Average, b: Average, d: Move, angle: (int, int) -> int)
    ensures GatesPass(MovedAverage(a, d), MovedAverage(b, d), angle) <==> GatesPass(a, b, angle)
  {
    var a', b' := MovedAverage(a, d), MovedAverage(b, d);
    assert b'.px - a'.px == b.px - a.px && b'.py - a'.py == b.py - a.py;
    assert b'.gx - a'.gx == b.gx - a.gx && b'.gy - a'.gy == b.gy - a.gy;
    hide Wrap32, OutOfBand, SpacingAgrees, Rotation.MeanRotation, Iangle180;
  }

  lemma CompatibilityIgnoresMove(a: Cluster, b: Cluster, d: Move, angle: (int, int) -> int)
    ensures Compatible(MovedCluster(a, d), MovedCluster(b, d), angle) <==> Compatible(a, b, angle)
  {
    GatesIgnoreMove(a.avg, b.avg, d, angle);
    hide GatesPass, Meets;
  }

  lemma {:induction false} ChainIgnoresMove(cs: seq<Cluster>, d: Move, angle: (int, int) -> int, i: nat, hi: nat)
    requires i < |cs| && hi <= |cs|
    ensures Chain(MovedAll(cs, d), angle, i, hi) == Chain(cs, angle, i, hi)
  {
    if hi > i + 1 {
      ChainIgnoresMove(cs, d, angle, i, hi - 1);
      CompatibilityIgnoresMove(cs[i], cs[hi - 1], d, angle);
      hide Compatible;
    }
  }

  lemma SetIgnoresMove(cs: seq<Cluster>, d: Move, angle: (int, int) -> int, c: seq<int>)
    ensures CompatibleSet(MovedAll(cs, d), angle, c) <==> CompatibleSet(cs, angle, c)
  {
    hide Compatible;
    if AllWithin(c, 0, |cs| - 1) {
      forall i, j | 0 <= i < j < |c|
        ensures Compatible(MovedAll(cs, d)[c[i]], MovedAll(cs, d)[c[j]], angle)
          <==> Compatible(cs[c[i]], cs[c[j]], angle)
      {
        CompatibilityIgnoresMove(cs[c[i]], cs[c[j]], d, angle);
      }
    }
  }

  lemma ScoreIgnoresMove(cs: seq<Cluster>, d: Move, angle: (int, int) -> int, score: int)
    requires IsScore(cs, angle, score)
    ensures IsScore(MovedAll(cs, d), angle, score)
  {
    var cs' := MovedAll(cs, d);
    assert Counts(cs') == Counts(cs);
    hide CompatibleSet;
    var c :| CompatibleSet(cs, angle, c) && EdgeTotal(cs, c) == score;
    SetIgnoresMove(cs, d, angle, c);
    SetsAreWithin(cs, angle, c);
    SetsAreWithin(cs', angle, c);
    assert EdgeTotal(cs', c) == score;
    forall b | CompatibleSet(cs', angle, b) ensures AllWithin(b, 0, |cs'| - 1) && EdgeTotal(cs', b) <= score {
      SetIgnoresMove(cs, d, angle, b);
      SetsAreWithin(cs', angle, b);
      assert EdgeTotal(cs', b) == EdgeTotal(cs, b);
    }
  }

  /** The graph of the clusters stays, and with it whether the final loop stays in its arrays. */
  lemma ArraysIgnoreMove(cs: seq<Cluster>, d: Move, angle: (int, int) -> int, size: nat)
    ensures LeavesArrays(MovedAll(cs, d), angle, size) <==> LeavesArrays(cs, angle, size)
  {
    hide Chain, CliqueOverrun.Overrun;
    assert Counts(MovedAll(cs, d)) == Counts(cs);
    forall i | 0 <= i < |cs| ensures Chains(MovedAll(cs, d), angle)[i] == Chains(cs, angle)[i] {
      ChainIgnoresMove(cs, d, angle, i, |cs|);
    }
    assert Chains(MovedAll(cs, d), angle) == Chains(cs, angle);
  }

  lemma SetsAreWithin(cs: seq<Cluster>, angle: (int, int) -> int, c: seq<int>)
    requires CompatibleSet(cs, angle, c)
    ensures AllWithin(c, 0, |cs| - 1)
  {
  }

  lemma ScoreMovesBack(cs: seq<Cluster>, d: Move, angle: (int, int) -> int, score: int)
    ensures IsScore(MovedAll(cs, d), angle, score) <==> IsScore(cs, angle, score)
  {
    hide IsScore;
    if IsScore(cs, angle, score) {
      ScoreIgnoresMove(cs, d, angle, score);
    }
    if IsScore(MovedAll(cs, d), angle, score) {
      var back := Move(-d.px, -d.py, -d.gx, -d.gy);
      ScoreIgnoresMove(MovedAll(cs, d), back, angle, score);
      assert MovedAll(MovedAll(cs, d), back) == cs;
    }
  }

  // --- The search -----------------------------------------------------------------------------

  /** `pr'` is `pr` with both prints moved. */
  ghost predicate MovedPrints(pr: Prints, pr': Prints, d: Move) {
    && pr'.angle == pr.angle
    && pr'.probe.x == ShiftedColumn(pr.probe.x, d.px) && pr'.probe.y == ShiftedColumn(pr.probe.y, d.py)
    && pr'.gallery.x == ShiftedColumn(pr.gallery.x, d.gx) && pr'.gallery.y == ShiftedColumn(pr.gallery.y, d.gy)
  }

  /** The four coordinate sums over a path's near endpoints carry the move. */
  ghost predicate PathCarries(path: seq<int>, t: Table, pr: Prints, d: Move)
    requires path != [] && AllWithin(path, 1, |t.rows|) && PrintsFit(t, pr)
  {
    NearEndsWithin(path, t, pr);
    var ps, gs := Along(path, t.rows, Pk), Along(path, t.rows, Ga);
    && SumCarries(pr.probe.x, ps, d.px) && SumCarries(pr.probe.y, ps, d.py)
    && SumCarries(pr.gallery.x, gs, d.gx) && SumCarries(pr.gallery.y, gs, d.gy)
  }

  lemma ClusterMoves(path: seq<int>, t: Table, pr: Prints, pr': Prints, d: Move)
    requires path != [] && AllWithin(path, 1, |t.rows|)
    requires PrintsFit(t, pr) && PrintsFit(t, pr') && MovedPrints(pr, pr', d) && PathCarries(path, t, pr, d)
    ensures ClusterOf(path, t, pr') == MovedCluster(ClusterOf(path, t, pr), d)
  {
    hide Centroid, Ends, Rotation.MeanRotation, Coordinates, ShiftedColumn, PrintsFit, AllWithin, PlainSum;
    var ps, gs := Along(path, t.rows, Pk), Along(path, t.rows, Ga);
    NearEndsWithin(path, t, pr);
    NearEndsWithin(path, t, pr');
    CentroidShifts(pr.probe.x, ps, d.px);
    CentroidShifts(pr.probe.y, ps, d.py);
    CentroidShifts(pr.gallery.x, gs, d.gx);
    CentroidShifts(pr.gallery.y, gs, d.gy);
  }

  lemma NearEndsWithin(path: seq<int>, t: Table, pr: Prints)
    requires AllWithin(path, 1, |t.rows|) && PrintsFit(t, pr)
    ensures |pr.probe.x| == |pr.probe.y| && |pr.gallery.x| == |pr.gallery.y|
    ensures AllWithin(Along(path, t.rows, Pk), 1, |pr.probe.x|) && AllWithin(Along(path, t.rows, Ga), 1, |pr.gallery.x|)
  {
  }

  /** Every cluster's coordinate sums carry the move. */
  ghost predicate AllCarry(cs: seq<Cluster>, t: Table, pr: Prints, d: Move)
    requires ClustersOk(cs, t) && PrintsFit(t, pr)
  {
    forall i :: 0 <= i < |cs| ==> ClusterOk(cs[i], t) && PathCarries(cs[i].edges, t, pr, d)
  }

  /** The clusters of the moved prints are the moved clusters. */
  lemma ClustersMove(cs: seq<Cluster>, t: Table, pr: Prints, pr': Prints, d: Move)
    requires ClustersOk(cs, t) && PrintsFit(t, pr) && PrintsFit(t, pr') && MovedPrints(pr, pr', d)
    requires cs == OnPrints(cs, t, pr) && AllCarry(cs, t, pr, d)
    ensures OnPrints(cs, t, pr') == MovedAll(cs, d)
  {
    hide ClusterOf, PathCarries, MovedPrints, PrintsFit, MovedCluster, ClustersOk;
    forall i | 0 <= i < |cs| ensures OnPrints(cs, t, pr')[i] == MovedAll(cs, d)[i] {
      ClusterMoves(cs[i].edges, t, pr, pr', d);
    }
  }

  // --- The score ------------------------------------------------------------------------------

  lemma AnswersMove(e: Ending, e': Ending, angle: (int, int) -> int, big: nat, v: Verdict, d: Move)
    requires e'.QueueFull? == e.QueueFull?
    requires !e.QueueFull? ==> e'.s.clusters == MovedAll(e.s.clusters, d)
    ensures Answers(e', angle, big, v) <==> Answers(e, angle, big, v)
  {
    hide IsScore, LeavesArrays, MovedAll;
    if !e.QueueFull? {
      ArraysIgnoreMove(e.s.clusters, d, angle, big);
      if v.Scored? {
        ScoreMovesBack(e.s.clusters, d, angle, v.score);
      }
    }
  }

  /** The coordinate sums of every cluster that the search for `pr` forms carry the move. */
  ghost predicate SearchCarries(t: Table, pr: Prints, d: Move)
    requires TableOk(t) && PrintsFit(t, pr)
  {
    SearchKeepsClusters(t, pr);
    var e := SearchOf(t, pr);
    !e.QueueFull? ==> AllCarry(e.s.clusters, t, pr, d)
  }

  lemma SearchMoves(t: Table, pr: Prints, pr': Prints, d: Move)
    requires TableOk(t) && PrintsFit(t, pr) && PrintsFit(t, pr') && MovedPrints(pr, pr', d) && SearchCarries(t, pr, d)
    ensures var e, e' := SearchOf(t, pr), SearchOf(t, pr');
      e'.QueueFull? == e.QueueFull? && (!e.QueueFull? ==> e'.s.clusters == MovedAll(e.s.clusters, d))
  {
    hide MovedPrints, PrintsFit, TableOk, SearchOf, ClustersOk, AllCarry, OnPrints, MovedAll;
    SearchRecasts(t, pr, pr);
    SearchRecasts(t, pr, pr');
    var e := SearchOf(t, pr);
    if !e.QueueFull? {
      ClustersMove(e.s.clusters, t, pr, pr', d);
    }
  }

  /** The move carries every coordinate sum that stage 3 takes of the two prints. */
  ghost predicate SumsCarry(p: Prepared, g: Prepared, slope: Slope, angle: (int, int) -> int, d: Move)
    requires Parallel(p) && Parallel(g)
  {
    PairsFitStage3(p, g, slope, angle);
    var pr := Prints(p, g, angle);
    Computable(pr) ==> SearchCarries(PairsOf(p, g, slope), pr, d)
  }

  lemma PreparedMoves(p: Prepared, g: Prepared, d: Move, slope: Slope, angle: (int, int) -> int, v: Verdict)
    requires Parallel(p) && Parallel(g) && SumsCarry(p, g, slope, angle, d)
    ensures Scores(ShiftedPrint(p, d.px, d.py), ShiftedPrint(g, d.gx, d.gy), slope, angle, v)
      <==> Scores(p, g, slope, angle, v)
  {
    hide PairsOf, SearchOf, Answers, TableOk, PrintsFit, SearchCarries;
    var p', g' := ShiftedPrint(p, d.px, d.py), ShiftedPrint(g, d.gx, d.gy);
    PairsIgnoreMove(p, g, d, slope);
    PairsFitStage3(p, g, slope, angle);
    PairsFitStage3(p', g', slope, angle);
    var t, pr, pr' := PairsOf(p, g, slope), Prints(p, g, angle), Prints(p', g', angle);
    if Computable(pr) {
      SearchMoves(t, pr, pr', d);
      AnswersMove(SearchOf(t, pr), SearchOf(t, pr'), angle, ArraySize(t), v, d);
    }
  }

  /** The stage-2 table does not see where either print lies. */
  lemma PairsIgnoreMove(p: Prepared, g: Prepared, d: Move, slope: Slope)
    requires Parallel(p) && Parallel(g)
    ensures PairsOf(ShiftedPrint(p, d.px, d.py), ShiftedPrint(g, d.gx, d.gy), slope) == PairsOf(p, g, slope)
  {
    TablesIgnoreShift(p, d.px, d.py, slope);
    TablesIgnoreShift(g, d.gx, d.gy, slope);
    hide PrunedTable, PairTable;
  }

  /**
   * Moving either print by whole pixels changes nothing about the answer, as long as every coordinate sum
   * that the search takes for a cluster keeps its side of zero or divides evenly.
   */
  lemma TranslationKeepsScore(probe: seq<Minutia>, gallery: seq<Minutia>, d: Move, slope: Slope,
          angle: (int, int) -> int, v: Verdict)
    requires SumsCarry(Prep(probe), Prep(gallery), slope, angle, d)
    ensures Scores(Prep(Shifted(probe, d.px, d.py)), Prep(Shifted(gallery, d.gx, d.gy)), slope, angle, v)
      <==> Scores(Prep(probe), Prep(gallery), slope, angle, v)
  {
    hide Prep, Scores, SumsCarry;
    PrepShifts(probe, d.px, d.py);
    PrepShifts(gallery, d.gx, d.gy);
    PreparedMoves(Prep(probe), Prep(gallery), d, slope, angle, v);
  }

  // --- Prints in the image --------------------------------------------------------------------

  /** The print's coordinates lie in the image, before and after the move. */
  ghost predicate Movable(p: Prepared, dx: int, dy: int) {
    InImage(p.x) && InImage(p.y) && InImage(ShiftedColumn(p.x, dx)) && InImage(ShiftedColumn(p.y, dy))
  }

  lemma MovableCarries(p: Prepared, g: Prepared, d: Move, slope: Slope, angle: (int, int) -> int)
    requires Parallel(p) && Parallel(g) && Movable(p, d.px, d.py) && Movable(g, d.gx, d.gy)
    ensures SumsCarry(p, g, slope, angle, d)
  {
    hide PairsOf, SearchOf, TableOk, PrintsFit, PathCarries, Movable;
    PairsFitStage3(p, g, slope, angle);
    var t, pr := PairsOf(p, g, slope), Prints(p, g, angle);
    SearchKeepsClusters(t, pr);
    var e := SearchOf(t, pr);
    if !e.QueueFull? {
      forall i | 0 <= i < |e.s.clusters|
        ensures ClusterOk(e.s.clusters[i], t) && PathCarries(e.s.clusters[i].edges, t, pr, d)
      {
        assert ClusterOk(e.s.clusters[i], t);
        DistinctWithinIsShort(e.s.clusters[i].edges, |t.rows|);
        PathInImage(e.s.clusters[i].edges, t, pr, d);
      }
    }
  }

  lemma PathInImage(path: seq<int>, t: Table, pr: Prints, d: Move)
    requires path != [] && |path| <= TABLE_OVERFLOW_LIMIT && AllWithin(path, 1, |t.rows|) && PrintsFit(t, pr)
    requires Movable(pr.probe, d.px, d.py) && Movable(pr.gallery, d.gx, d.gy)
    ensures PathCarries(path, t, pr, d)
  {
    hide SumCarries, InImage, PrintsFit;
    NearEndsWithin(path, t, pr);
    var ps, gs := Along(path, t.rows, Pk), Along(path, t.rows, Ga);
    ImageCarries(pr.probe.x, ps, d.px);
    ImageCarries(pr.probe.y, ps, d.py);
    ImageCarries(pr.gallery.x, gs, d.gx);
    ImageCarries(pr.gallery.y, gs, d.gy);
  }

  /** Minutiae of a print that stays in the image when moved. */
  ghost predicate Within(ms: seq<Minutia>, dx: int, dy: int) {
    forall i :: 0 <= i < |ms| ==>
      && 0 <= ms[i].x <= MAX_COORDINATE && 0 <= ms[i].y <= MAX_COORDINATE
      && 0 <= ms[i].x + dx <= MAX_COORDINATE && 0 <= ms[i].y + dy <= MAX_COORDINATE
  }

  lemma WithinIsMovable(ms: seq<Minutia>, dx: int, dy: int)
    requires Within(ms, dx, dy)
    ensures Movable(Prep(ms), dx, dy)
  {
    hide Sort, ByXY, Points, Taken;
    forall i | 0 <= i < |Rows(ms, DEFAULT_BOZORTH_MINUTIAE)|
      ensures PointWithin(Rows(ms, DEFAULT_BOZORTH_MINUTIAE)[i], dx, dy)
    {
      RowStays(ms, dx, dy, i);
    }
  }

  predicate PointWithin(q: Point, dx: int, dy: int) {
    && 0 <= q.x <= MAX_COORDINATE && 0 <= q.y <= MAX_COORDINATE
    && 0 <= q.x + dx <= MAX_COORDINATE && 0 <= q.y + dy <= MAX_COORDINATE
  }

  lemma RowStays(ms: seq<Minutia>, dx: int, dy: int, i: nat)
    requires Within(ms, dx, dy) && i < |Rows(ms, DEFAULT_BOZORTH_MINUTIAE)|
    ensures PointWithin(Rows(ms, DEFAULT_BOZORTH_MINUTIAE)[i], dx, dy)
  {
    var taken := Taken(ms, DEFAULT_BOZORTH_MINUTIAE);
    var rows := Rows(ms, DEFAULT_BOZORTH_MINUTIAE);
    SortElements(Points(taken), ByXY);
    hide Sort, ByXY;
    assert rows[i] in multiset(rows);
    assert rows[i] in Points(taken);
    var k :| 0 <= k < |taken| && rows[i] == Points(taken)[k];
    assert taken[k] == ms[k];
    hide *;
  }

  /** Prints that stay in the image carry their move: no real print can have its score moved. */
  lemma ImagesCarry(probe: seq<Minutia>, gallery: seq<Minutia>, d: Move, slope: Slope, angle: (int, int) -> int)
    requires Within(probe, d.px, d.py) && Within(gallery, d.gx, d.gy)
    ensures SumsCarry(Prep(probe), Prep(gallery), slope, angle, d)
  {
    hide Prep, Within, Movable, SumsCarry;
    WithinIsMovable(probe, d.px, d.py);
    WithinIsMovable(gallery, d.gx, d.gy);
    MovableCarries(Prep(probe), Prep(gallery), d, slope, angle);
  }
}
