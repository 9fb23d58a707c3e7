/**
 * Stage 1: the table of compatible minutia pairs of one print, sorted by length and relative angles,
 * and the length it is pruned to.
 */
module Intra {
  import opened Consts
  import opened StableSort
  import opened Xyt

  /** Squared length, the two relative angles in order, the 1-based endpoints, the edge's direction. */
  datatype CompRow = CompRow(dist: int, betaMin: int, betaMax: int, k: int, j: int, theta: int)

  /** The rounded angle of an edge that is not vertical, from its extents `(dy, dx)`. */
  type Slope = (int, int) -> int

  ghost predicate SlopeOk(slope: Slope) {
    forall dy, dx :: -90 <= slope(dy, dx) <= 90
  }

  function EdgeAngle(dx: int, dy: int, slope: Slope): (r: int) {
    if dx == 0 then 90 else slope(dy, dx)
  }

  /** The two ridges point opposite ways. */
  predicate Opposite(tk: int, tj: int) {
    if tj > 0 then tk == tj - 180 else tk == tj + 180
  }

  function Dx(p: Prepared, k: nat, j: nat): (r: int)
    requires k < |p.x| && j < |p.x|
  {
    Wrap32(p.x[j] - p.x[k])
  }

  function Dy(p: Prepared, k: nat, j: nat): (r: int)
    requires k < |p.y| && j < |p.y|
  {
    Wrap32(p.y[j] - p.y[k])
  }

  function Length(p: Prepared, k: nat, j: nat): (r: int)
    requires k < |p.x| && j < |p.x| && |p.y| == |p.x|
  {
    Dx(p, k, j) * Dx(p, k, j) + Dy(p, k, j) * Dy(p, k, j)
  }

  predicate Parallel(p: Prepared) {
    |p.x| == |p.y| == |p.theta|
  }

  /** The pair carries an edge: not opposite, and not too far apart. */
  predicate IsEdge(p: Prepared, k: nat, j: nat)
    requires Parallel(p) && k < |p.x| && j < |p.x|
  {
    !Opposite(p.theta[k], p.theta[j]) && Length(p, k, j) <= DM_SQUARED
  }

  /** The edge's row; the smaller relative angle comes first, and +400 records that it is the far end's. */
  function EdgeRow(p: Prepared, k: nat, j: nat, slope: Slope): (r: CompRow)
    requires Parallel(p) && k < |p.x| && j < |p.x|
  {
    var theta := EdgeAngle(Dx(p, k, j), Dy(p, k, j), slope);
    var betaK := Iangle180(Wrap32(theta - p.theta[k]));
    var betaJ := Iangle180(Wrap32(Wrap32(theta - p.theta[j]) + 180));
    if betaK < betaJ then CompRow(Length(p, k, j), betaK, betaJ, k + 1, j + 1, theta)
    else CompRow(Length(p, k, j), betaJ, betaK, k + 1, j + 1, theta + 400)
  }

  predicate ByLength(a: CompRow, b: CompRow) {
    || a.dist < b.dist
    || (a.dist == b.dist && a.betaMin < b.betaMin)
    || (a.dist == b.dist && a.betaMin == b.betaMin && a.betaMax <= b.betaMax)
  }

  function Cut<T>(rows: seq<T>): (r: seq<T>)
    ensures |r| <= TABLE_OVERFLOW_LIMIT && (|rows| <= TABLE_OVERFLOW_LIMIT ==> r == rows)
  {
    if |rows| <= TABLE_OVERFLOW_LIMIT then rows else rows[..TABLE_OVERFLOW_LIMIT]
  }

  // --- The table by brute force ---------------------------------------------------------------

  /** The edges from `k` to `j, j + 1, ..`. */
  function EdgesFrom(p: Prepared, slope: Slope, k: nat, j: nat): (r: seq<CompRow>)
    requires Parallel(p) && k < |p.x|
    decreases |p.x| - j
  {
    if j >= |p.x| then []
    else (if IsEdge(p, k, j) then [EdgeRow(p, k, j, slope)] else []) + EdgesFrom(p, slope, k, j + 1)
  }

  /** Every edge from `k, k + 1, ..` to a later minutia. */
  function AllEdges(p: Prepared, slope: Slope, k: nat): (r: seq<CompRow>)
    requires Parallel(p)
    decreases |p.x| - k
  {
    if k >= |p.x| then [] else EdgesFrom(p, slope, k, k + 1) + AllEdges(p, slope, k + 1)
  }

  /** The table of a print: every edge, cut off at the table limit, stably sorted. */
  function Web(p: Prepared, slope: Slope): (r: seq<CompRow>)
    requires Parallel(p)
  {
    Sort(Cut(AllEdges(p, slope, 0)), ByLength)
  }

  // --- The table as the loops build it --------------------------------------------------------

  /** As `EdgesFrom`, but giving up at the first minutia too far away with an x beyond reach. */
  function ScanFrom(p: Prepared, slope: Slope, k: nat, j: nat): (r: seq<CompRow>)
    requires Parallel(p) && k < |p.x|
    decreases |p.x| - j
  {
    if j >= |p.x| then []
    else if Opposite(p.theta[k], p.theta[j]) then ScanFrom(p, slope, k, j + 1)
    else if Length(p, k, j) > DM_SQUARED then
      if Dx(p, k, j) > DM then [] else ScanFrom(p, slope, k, j + 1)
    else [EdgeRow(p, k, j, slope)] + ScanFrom(p, slope, k, j + 1)
  }

  function ScanAll(p: Prepared, slope: Slope, k: nat): (r: seq<CompRow>)
    requires Parallel(p)
    decreases |p.x| - k
  {
    if k + 1 >= |p.x| then [] else ScanFrom(p, slope, k, k + 1) + ScanAll(p, slope, k + 1)
  }

  /** What stage 1 returns, on any coordinates. */
  function EdgeTable(p: Prepared, slope: Slope): (r: seq<CompRow>)
    requires Parallel(p)
  {
    Sort(Cut(ScanAll(p, slope, 0)), ByLength)
  }

  lemma CutHere(rows: seq<CompRow>, rest: seq<CompRow>, all: seq<CompRow>)
    requires rows + rest == all && |rows| <= TABLE_OVERFLOW_LIMIT
    requires rest == [] || |rows| == TABLE_OVERFLOW_LIMIT
    ensures rows == Cut(all)
  {
  }

  /** The pairs of one minutia, until the scan gives up or the table is full. */
  method CompFrom(p: Prepared, k: nat, rows0: seq<CompRow>, slope: Slope) returns (rows: seq<CompRow>, full: bool)
    requires Parallel(p) && k < |p.x| && |rows0| < TABLE_OVERFLOW_LIMIT
    ensures full ==> |rows| == TABLE_OVERFLOW_LIMIT && rows <= rows0 + ScanFrom(p, slope, k, k + 1)
    ensures !full ==> |rows| < TABLE_OVERFLOW_LIMIT && rows == rows0 + ScanFrom(p, slope, k, k + 1)
  {
    ghost var goal := rows0 + ScanFrom(p, slope, k, k + 1);
    rows, full := rows0, false;
    var j := k + 1;
    var tk := p.theta[k];
    while j < |p.x|
      invariant k < j && |rows| < TABLE_OVERFLOW_LIMIT && rows + ScanFrom(p, slope, k, j) == goal
    {
      var tj := p.theta[j];
      if tj > 0 {
        if tk == tj - 180 {
          j := j + 1;
          continue;
        }
      } else if tk == tj + 180 {
        j := j + 1;
        continue;
      }
      var dx, dy := Wrap32(p.x[j] - p.x[k]), Wrap32(p.y[j] - p.y[k]);
      var distance := dx * dx + dy * dy;
      assert distance == Length(p, k, j);
      if distance > DM_SQUARED {
        if dx > DM {
          assert ScanFrom(p, slope, k, j) == [];
          return;
        }
        j := j + 1;
        continue;
      }
      ghost var rest := ScanFrom(p, slope, k, j + 1);
      assert rows + ([EdgeRow(p, k, j, slope)] + rest) == (rows + [EdgeRow(p, k, j, slope)]) + rest;
      var row := MakeRow(p, k, j, distance, dx, dy, slope);
      rows := rows + [row];
      if |rows| == TABLE_OVERFLOW_LIMIT {
        return rows, true;
      }
      j := j + 1;
    }
  }

  method MakeRow(p: Prepared, k: nat, j: nat, distance: int, dx: int, dy: int, slope: Slope) returns (row: CompRow)
    requires Parallel(p) && k < |p.x| && j < |p.x|
    requires dx == Dx(p, k, j) && dy == Dy(p, k, j) && distance == Length(p, k, j)
    ensures row == EdgeRow(p, k, j, slope)
  {
    var thetaKj := if dx == 0 then 90 else slope(dy, dx);
    var betaK := Iangle180(Wrap32(thetaKj - p.theta[k]));
    var betaJ := Iangle180(Wrap32(Wrap32(thetaKj - p.theta[j]) + 180));
    if betaK < betaJ {
      row := CompRow(distance, betaK, betaJ, k + 1, j + 1, thetaKj);
    } else {
      row := CompRow(distance, betaJ, betaK, k + 1, j + 1, thetaKj + 400);
    }
  }

  lemma ScanAllStep(p: Prepared, slope: Slope, k: nat)
    requires Parallel(p)
    ensures ScanAll(p, slope, k) ==
      if k + 1 >= |p.x| then [] else ScanFrom(p, slope, k, k + 1) + ScanAll(p, slope, k + 1)
  {
  }

  /** Builds and sorts the table; on a print in contract it is the brute-force one. */
  method Comp(p: Prepared, slope: Slope) returns (rows: seq<CompRow>)
    requires Parallel(p)
    ensures rows == EdgeTable(p, slope)
    ensures Valid(p) && InContract(p) ==> rows == Web(p, slope)
    ensures Valid(p) && InContract(p) && Canonical(p) && |p.x| <= 150 ==> ListsNearPairs(rows, p)
  {
    hide *;
    var table := CompAll(p, slope);
    rows := Sort(table, ByLength);
    TableInContract(p, slope);
  }

  /** The pairs of every minutia, until the table is full. */
  method CompAll(p: Prepared, slope: Slope) returns (table: seq<CompRow>)
    requires Parallel(p)
    ensures table == Cut(ScanAll(p, slope, 0))
  {
    hide ScanAll, ScanFrom, Cut;
    table := [];
    var k := 0;
    ghost var all := ScanAll(p, slope, 0);
    assert table + all == all;
    while k + 1 < |p.x|
      invariant 0 <= k && |table| < TABLE_OVERFLOW_LIMIT && table + ScanAll(p, slope, k) == all
    {
      ghost var before, here, later := table, ScanFrom(p, slope, k, k + 1), ScanAll(p, slope, k + 1);
      ScanGoesOn(p, slope, k, table, all);
      var full;
      table, full := CompFrom(p, k, table, slope);
      if full {
        CutShort(table, before + here, later, all);
        return;
      }
      k := k + 1;
    }
    ScanAllStep(p, slope, k);
    CutHere(table, ScanAll(p, slope, k), all);
  }

  lemma ScanGoesOn(p: Prepared, slope: Slope, k: nat, table: seq<CompRow>, all: seq<CompRow>)
    requires Parallel(p) && k + 1 < |p.x| && table + ScanAll(p, slope, k) == all
    ensures (table + ScanFrom(p, slope, k, k + 1)) + ScanAll(p, slope, k + 1) == all
  {
    hide ScanAll, ScanFrom;
    ScanAllStep(p, slope, k);
    var here, later := ScanFrom(p, slope, k, k + 1), ScanAll(p, slope, k + 1);
    assert table + (here + later) == (table + here) + later;
  }

  lemma TableInContract(p: Prepared, slope: Slope)
    requires Parallel(p)
    ensures EdgeTable(p, slope) == Sort(Cut(ScanAll(p, slope, 0)), ByLength)
    ensures Valid(p) && InContract(p) ==> EdgeTable(p, slope) == Web(p, slope)
    ensures Valid(p) && InContract(p) && Canonical(p) && |p.x| <= 150 ==> ListsNearPairs(EdgeTable(p, slope), p)
  {
    hide ScanAll, Sort, Web, Cut, Valid, InContract, Canonical, ListsNearPairs;
    if Valid(p) && InContract(p) {
      TableIsWeb(p, slope);
      if Canonical(p) && |p.x| <= 150 { RowsNearPairs(p, slope); }
    }
  }

  lemma TableIsWeb(p: Prepared, slope: Slope)
    requires Parallel(p) && Valid(p) && InContract(p)
    ensures EdgeTable(p, slope) == Web(p, slope)
  {
    ScanDropsNothing(p, slope, 0);
  }

  lemma CutShort(rows: seq<CompRow>, some: seq<CompRow>, later: seq<CompRow>, all: seq<CompRow>)
    requires rows <= some && some + later == all && |rows| == TABLE_OVERFLOW_LIMIT
    ensures rows == Cut(all)
  {
    assert rows == all[..|rows|];
  }

  // --- What the scan keeps --------------------------------------------------------------------

  /** Coordinates whose differences do not wrap. */
  ghost predicate InContract(p: Prepared) {
    && (forall i :: 0 <= i < |p.x| ==> -0x4000_0000 <= p.x[i] < 0x4000_0000)
    && (forall i :: 0 <= i < |p.y| ==> -0x4000_0000 <= p.y[i] < 0x4000_0000)
  }

  lemma FarBeyond(p: Prepared, k: nat, j: nat, i: nat)
    requires Parallel(p) && Valid(p) && InContract(p) && k < |p.x| && j <= i < |p.x| && Dx(p, k, j) > DM
    ensures Dx(p, k, i) > DM && !IsEdge(p, k, i)
  {
    assert p.x[i] >= p.x[j];
    SquareBelow(DM, Dx(p, k, i));
    assert Dy(p, k, i) * Dy(p, k, i) >= 0;
  }

  lemma {:induction false} NothingBeyond(p: Prepared, slope: Slope, k: nat, j: nat, i: nat)
    requires Parallel(p) && Valid(p) && InContract(p) && k < |p.x| && j < |p.x| && j <= i && Dx(p, k, j) > DM
    ensures EdgesFrom(p, slope, k, i) == []
    decreases |p.x| - i
  {
    if i < |p.x| {
      FarBeyond(p, k, j, i);
      NothingBeyond(p, slope, k, j, i + 1);
    }
  }

  /** On x-sorted columns, giving up early loses no edge. */
  lemma {:induction false} BreakDropsNothing(p: Prepared, slope: Slope, k: nat, j: nat)
    requires Parallel(p) && Valid(p) && InContract(p) && k < |p.x|
    ensures ScanFrom(p, slope, k, j) == EdgesFrom(p, slope, k, j)
    decreases |p.x| - j
  {
    if j < |p.x| {
      hide Valid, InContract, EdgeRow;
      if Dx(p, k, j) > DM {
        NothingBeyond(p, slope, k, j, j);
        NothingBeyond(p, slope, k, j, j + 1);
      }
      BreakDropsNothing(p, slope, k, j + 1);
    }
  }

  lemma {:induction false} ScanDropsNothing(p: Prepared, slope: Slope, k: nat)
    requires Parallel(p) && Valid(p) && InContract(p)
    ensures ScanAll(p, slope, k) == AllEdges(p, slope, k)
    decreases |p.x| - k
  {
    if k + 1 < |p.x| {
      BreakDropsNothing(p, slope, k, k + 1);
      ScanDropsNothing(p, slope, k + 1);
    } else if k < |p.x| {
      assert EdgesFrom(p, slope, k, k + 1) == [] && AllEdges(p, slope, k + 1) == [];
    }
  }

  /** On an unsorted print giving up early can lose one: the near pair behind a far minutia. */
  lemma BreakNeedsOrder(slope: Slope)
    ensures var p := Prepared([0, 200, 10], [0, 0, 0], [0, 0, 0]);
      ScanFrom(p, slope, 0, 1) == [] && EdgesFrom(p, slope, 0, 1) == [EdgeRow(p, 0, 2, slope)]
  {
    var p := Prepared([0, 200, 10], [0, 0, 0], [0, 0, 0]);
    assert Dx(p, 0, 1) == 200 && Dy(p, 0, 1) == 0 && Length(p, 0, 1) == 40000;
    assert Dx(p, 0, 2) == 10 && Dy(p, 0, 2) == 0 && Length(p, 0, 2) == 100;
    assert EdgesFrom(p, slope, 0, 3) == [];
    assert EdgesFrom(p, slope, 0, 2) == [EdgeRow(p, 0, 2, slope)];
  }

  lemma {:induction false} EdgesAreFew(p: Prepared, slope: Slope, k: nat, j: nat)
    requires Parallel(p) && k < |p.x| && j <= |p.x|
    ensures |EdgesFrom(p, slope, k, j)| <= |p.x| - j
    decreases |p.x| - j
  {
    if j < |p.x| { EdgesAreFew(p, slope, k, j + 1); }
  }

  /** A print with `n` minutiae left to start from has at most n (n - 1) / 2 more edges. */
  lemma {:induction false} PairsAreFew(p: Prepared, slope: Slope, k: nat)
    requires Parallel(p) && k <= |p.x|
    ensures 2 * |AllEdges(p, slope, k)| <= (|p.x| - k) * (|p.x| - k)
    decreases |p.x| - k
  {
    if k < |p.x| {
      EdgesAreFew(p, slope, k, k + 1);
      PairsAreFew(p, slope, k + 1);
      var m := |p.x| - k - 1;
      assert (m + 1) * (m + 1) == m * m + 2 * m + 1;
    }
  }

  /** At the minutia cap the table limit is never reached. */
  lemma CapIsBelowLimit(p: Prepared, slope: Slope)
    requires Parallel(p) && |p.x| <= DEFAULT_BOZORTH_MINUTIAE
    ensures Cut(AllEdges(p, slope, 0)) == AllEdges(p, slope, 0)
  {
    PairsAreFew(p, slope, 0);
    SquareAtMost(|p.x|, DEFAULT_BOZORTH_MINUTIAE);
  }

  lemma SquareAtMost(a: nat, b: nat)
    requires a <= b
    ensures a * a <= b * b
  {
    ScaleUp(a, a, b);
    ScaleUp(b, a, b);
  }

  // --- What a row says ------------------------------------------------------------------------

  /** Canonical ridge angles. */
  ghost predicate Canonical(p: Prepared) {
    forall i :: 0 <= i < |p.theta| ==> -180 < p.theta[i] <= 180
  }

  /** A row over `n` minutiae, with folded angles and the swap flag legible. */
  ghost predicate RowFits(r: CompRow, n: nat) {
    && 0 <= r.dist <= DM_SQUARED && 1 <= r.k < r.j <= n
    && -180 < r.betaMin <= 180 && -180 < r.betaMax <= 180
    && (-90 <= r.theta <= 90 || 310 <= r.theta <= 490)
  }

  ghost predicate AllFit(rows: seq<CompRow>, n: nat) {
    forall i :: 0 <= i < |rows| ==> RowFits(rows[i], n)
  }

  lemma EdgeRowFits(p: Prepared, k: nat, j: nat, slope: Slope)
    requires Parallel(p) && k < j < |p.x| && IsEdge(p, k, j) && Canonical(p) && SlopeOk(slope)
    ensures RowFits(EdgeRow(p, k, j, slope), |p.x|)
  {
    assert Dx(p, k, j) * Dx(p, k, j) >= 0 && Dy(p, k, j) * Dy(p, k, j) >= 0;
    hide Wrap32, Dx, Dy;
    assert -90 <= EdgeAngle(Dx(p, k, j), Dy(p, k, j), slope) <= 90;
  }

  /** The row describes an edge of the print. */
  ghost predicate FromEdge(r: CompRow, p: Prepared, slope: Slope)
    requires Parallel(p)
  {
    exists k, j :: 0 <= k < j < |p.x| && IsEdge(p, k, j) && r == EdgeRow(p, k, j, slope)
  }

  ghost predicate FromEdges(rows: seq<CompRow>, p: Prepared, slope: Slope)
    requires Parallel(p)
  {
    forall r :: r in rows ==> FromEdge(r, p, slope)
  }

  lemma {:induction false} ScanFindsEdges(p: Prepared, slope: Slope, k: nat, j: nat)
    requires Parallel(p) && k < |p.x| && k < j
    ensures FromEdges(ScanFrom(p, slope, k, j), p, slope)
    decreases |p.x| - j
  {
    if j < |p.x| {
      ScanFindsEdges(p, slope, k, j + 1);
      if IsEdge(p, k, j) { assert FromEdge(EdgeRow(p, k, j, slope), p, slope); }
      hide EdgeRow, FromEdge;
    }
  }

  lemma {:induction false} AllAreEdges(p: Prepared, slope: Slope, k: nat)
    requires Parallel(p)
    ensures FromEdges(ScanAll(p, slope, k), p, slope)
    decreases |p.x| - k
  {
    if k + 1 < |p.x| {
      ScanFindsEdges(p, slope, k, k + 1);
      AllAreEdges(p, slope, k + 1);
      hide FromEdge, ScanFrom;
    }
  }

  lemma ByLengthIsPreorder()
    ensures Preorder(ByLength)
  {
  }

  /** The table holds edges of the print only, and is sorted, whatever the coordinates. */
  lemma TableHoldsEdges(p: Prepared, slope: Slope)
    requires Parallel(p)
    ensures FromEdges(EdgeTable(p, slope), p, slope) && Sorted(EdgeTable(p, slope), ByLength)
  {
    hide FromEdge, ScanAll;
    var rows := Cut(ScanAll(p, slope, 0));
    AllAreEdges(p, slope, 0);
    ByLengthIsPreorder();
    SortSorts(rows, ByLength);
    SortElements(rows, ByLength);
    forall r | r in EdgeTable(p, slope) ensures FromEdge(r, p, slope) {
      assert r in multiset(EdgeTable(p, slope));
      assert r in rows;
    }
  }

  /** The table is in the order of length, then the smaller relative angle, then the larger. */
  lemma EdgesAscend(p: Prepared, slope: Slope, i: nat, j: nat)
    requires Parallel(p) && i < j < |EdgeTable(p, slope)|
    ensures var a, b := EdgeTable(p, slope)[i], EdgeTable(p, slope)[j];
      a.dist < b.dist || (a.dist == b.dist &&
        (a.betaMin < b.betaMin || (a.betaMin == b.betaMin && a.betaMax <= b.betaMax)))
  {
    hide EdgeTable, FromEdge;
    TableHoldsEdges(p, slope);
    assert ByLength(EdgeTable(p, slope)[i], EdgeTable(p, slope)[j]);
  }

  /** Every row of a canonical print's table is legible. */
  lemma TableFits(p: Prepared, slope: Slope)
    requires Parallel(p) && Canonical(p) && SlopeOk(slope)
    ensures AllFit(EdgeTable(p, slope), |p.x|)
  {
    TableHoldsEdges(p, slope);
    hide EdgeTable, RowFits, EdgeRow, IsEdge;
    var rows := EdgeTable(p, slope);
    forall i | 0 <= i < |rows| ensures RowFits(rows[i], |p.x|) {
      assert FromEdge(rows[i], p, slope);
      var k, j :| 0 <= k < j < |p.x| && IsEdge(p, k, j) && rows[i] == EdgeRow(p, k, j, slope);
      EdgeRowFits(p, k, j, slope);
    }
  }

  /** Non-negative, ascending lengths, and endpoints of the print. */
  ghost predicate Placed(rows: seq<CompRow>, n: nat) {
    DistanceSorted(rows) && forall i :: 0 <= i < |rows| ==> 0 <= rows[i].dist && 1 <= rows[i].k < rows[i].j <= n
  }

  lemma EdgeIsPlaced(p: Prepared, k: nat, j: nat, slope: Slope)
    requires Parallel(p) && k < j < |p.x|
    ensures var r := EdgeRow(p, k, j, slope); 0 <= r.dist && 1 <= r.k < r.j <= |p.x|
  {
    assert Dx(p, k, j) * Dx(p, k, j) >= 0 && Dy(p, k, j) * Dy(p, k, j) >= 0;
    hide Wrap32, Iangle180, Dx, Dy;
  }

  lemma TableIsPlaced(p: Prepared, slope: Slope)
    requires Parallel(p)
    ensures Placed(EdgeTable(p, slope), |p.x|)
  {
    hide EdgeTable, EdgeRow, IsEdge;
    TableHoldsEdges(p, slope);
    var rows := EdgeTable(p, slope);
    forall i | 0 <= i < |rows| ensures 0 <= rows[i].dist && 1 <= rows[i].k < rows[i].j <= |p.x| {
      assert FromEdge(rows[i], p, slope);
      var k, j :| 0 <= k < j < |p.x| && IsEdge(p, k, j) && rows[i] == EdgeRow(p, k, j, slope);
      EdgeIsPlaced(p, k, j, slope);
    }
    assert forall i, j :: 0 <= i < j < |rows| ==> ByLength(rows[i], rows[j]);
  }

  lemma PrefixIsPlaced(rows: seq<CompRow>, n: nat, len: nat)
    requires Placed(rows, n) && len <= |rows|
    ensures Placed(rows[..len], n)
  {
  }

  // --- Every edge, and each once --------------------------------------------------------------

  /** Rows in the order of their endpoints, from (`k`, `j`) on. */
  ghost predicate Climbs(rows: seq<CompRow>, k: int, j: int) {
    && (forall x :: 0 <= x < |rows| ==> rows[x].k > k || (rows[x].k == k && rows[x].j >= j))
    && forall x, y :: 0 <= x < y < |rows| ==>
         rows[x].k < rows[y].k || (rows[x].k == rows[y].k && rows[x].j < rows[y].j)
  }

  lemma EdgeEnds(p: Prepared, k: nat, j: nat, slope: Slope)
    requires Parallel(p) && k < |p.x| && j < |p.x|
    ensures EdgeRow(p, k, j, slope).k == k + 1 && EdgeRow(p, k, j, slope).j == j + 1
  {
    hide Dx, Dy, Wrap32, Iangle180;
  }

  lemma {:induction false} EdgesClimb(p: Prepared, slope: Slope, k: nat, j: nat)
    requires Parallel(p) && k < |p.x|
    ensures Climbs(EdgesFrom(p, slope, k, j), k + 1, j + 1)
    ensures forall r :: r in EdgesFrom(p, slope, k, j) ==> r.k == k + 1
    decreases |p.x| - j
  {
    hide EdgeRow, IsEdge;
    if j < |p.x| {
      EdgesClimb(p, slope, k, j + 1);
      EdgeEnds(p, k, j, slope);
    }
  }

  lemma {:induction false} AllEdgesClimb(p: Prepared, slope: Slope, k: nat)
    requires Parallel(p)
    ensures Climbs(AllEdges(p, slope, k), k + 1, 0)
    decreases |p.x| - k
  {
    hide EdgesFrom;
    if k < |p.x| {
      EdgesClimb(p, slope, k, k + 1);
      AllEdgesClimb(p, slope, k + 1);
      var here, later := EdgesFrom(p, slope, k, k + 1), AllEdges(p, slope, k + 1);
      forall x | 0 <= x < |here| ensures here[x].k == k + 1 { assert here[x] in here; }
    }
  }

  lemma {:induction false} EdgeListedFrom(p: Prepared, slope: Slope, k: nat, from: nat, j: nat)
    requires Parallel(p) && k < |p.x| && from <= j < |p.x| && IsEdge(p, k, j)
    ensures EdgeRow(p, k, j, slope) in EdgesFrom(p, slope, k, from)
    decreases j - from
  {
    hide EdgeRow, IsEdge;
    if from < j { EdgeListedFrom(p, slope, k, from + 1, j); }
  }

  lemma {:induction false} EdgeListed(p: Prepared, slope: Slope, from: nat, k: nat, j: nat)
    requires Parallel(p) && from <= k < j < |p.x| && IsEdge(p, k, j)
    ensures EdgeRow(p, k, j, slope) in AllEdges(p, slope, from)
    decreases k - from
  {
    hide EdgeRow, IsEdge, EdgesFrom;
    if from < k { EdgeListed(p, slope, from + 1, k, j); } else { EdgeListedFrom(p, slope, k, k + 1, j); }
  }

  /** Sorting moves rows about: what is listed once stays listed once. */
  lemma OnceStaysOnce(a: seq<CompRow>, b: seq<CompRow>, x: nat, y: nat)
    requires multiset(a) == multiset(b) && Climbs(a, 0, 0) && x < y < |b|
    ensures b[x] != b[y]
  {
    AtMostOnce(a, b[x]);
    if b[x] == b[y] { ListedTwice(b, x, y); }
  }

  lemma ListedTwice(b: seq<CompRow>, x: nat, y: nat)
    requires x < y < |b| && b[x] == b[y]
    ensures multiset(b)[b[x]] >= 2
  {
    assert b == b[..x] + [b[x]] + b[x + 1..y] + [b[y]] + b[y + 1..];
  }

  lemma {:induction false} AtMostOnce(a: seq<CompRow>, r: CompRow)
    requires Climbs(a, 0, 0)
    ensures multiset(a)[r] <= 1
  {
    if a != [] {
      var m := |a| - 1;
      assert a == a[..m] + [a[m]];
      AtMostOnce(a[..m], r);
      forall x | 0 <= x < m ensures a[x] != a[m] {
        assert a[x].k < a[m].k || (a[x].k == a[m].k && a[x].j < a[m].j);
      }
      assert a[m] !in a[..m];
      assert a[m] !in multiset(a[..m]);
    }
  }

  lemma ClimbsLower(rows: seq<CompRow>)
    requires Climbs(rows, 1, 0)
    ensures Climbs(rows, 0, 0)
  {
  }

  // --- What the table means -------------------------------------------------------------------

  /** The squared distance of two minutiae. */
  function Separation(p: Prepared, k: nat, j: nat): (d: int)
    requires Parallel(p) && k < |p.x| && j < |p.x|
  {
    (p.x[j] - p.x[k]) * (p.x[j] - p.x[k]) + (p.y[j] - p.y[k]) * (p.y[j] - p.y[k])
  }

  lemma SeparationIsLength(p: Prepared, k: nat, j: nat)
    requires Parallel(p) && InContract(p) && k < |p.x| && j < |p.x|
    ensures Dx(p, k, j) == p.x[j] - p.x[k] && Dy(p, k, j) == p.y[j] - p.y[k]
    ensures Length(p, k, j) == Separation(p, k, j)
  {
  }

  /** The ridges rejected are those that point opposite ways. */
  lemma OppositeIsHalfTurn(tk: int, tj: int)
    requires -180 < tk <= 180 && -180 < tj <= 180
    ensures Opposite(tk, tj) <==> CircularDistance(tk, tj) == 180
  {
  }

  lemma EdgeIsNear(p: Prepared, k: nat, j: nat)
    requires Parallel(p) && InContract(p) && Canonical(p) && k < |p.x| && j < |p.x|
    ensures IsEdge(p, k, j) <==> CircularDistance(p.theta[k], p.theta[j]) != 180 && Separation(p, k, j) <= 15625
  {
    hide Opposite, Dx, Dy, Separation, CircularDistance, Length;
    SeparationIsLength(p, k, j);
    OppositeIsHalfTurn(p.theta[k], p.theta[j]);
  }

  /** The table has a row for minutiae `k` and `j`. */
  ghost predicate HasRow(rows: seq<CompRow>, k: nat, j: nat) {
    exists i :: 0 <= i < |rows| && rows[i].k == k + 1 && rows[i].j == j + 1
  }

  /**
   * A print's table has a row for exactly the pairs of minutiae that are at most 125 pixels apart and do not
   * point opposite ways, and no pair has two.
   */
  ghost predicate ListsNearPairs(rows: seq<CompRow>, p: Prepared)
    requires Parallel(p)
  {
    && (forall k, j :: 0 <= k < j < |p.x| ==>
          (HasRow(rows, k, j) <==> CircularDistance(p.theta[k], p.theta[j]) != 180 && Separation(p, k, j) <= 15625))
    && (forall i :: 0 <= i < |rows| ==> 1 <= rows[i].k < rows[i].j <= |p.x|)
    && forall a, b :: 0 <= a < b < |rows| ==> rows[a].k != rows[b].k || rows[a].j != rows[b].j
  }

  /** The row of an edge, found by its ends. */
  lemma RowIsEdge(p: Prepared, slope: Slope, r: CompRow)
    requires Parallel(p) && FromEdge(r, p, slope)
    ensures 1 <= r.k < r.j <= |p.x| && IsEdge(p, r.k - 1, r.j - 1) && r == EdgeRow(p, r.k - 1, r.j - 1, slope)
  {
    hide EdgeRow, IsEdge;
    var k, j :| 0 <= k < j < |p.x| && IsEdge(p, k, j) && r == EdgeRow(p, k, j, slope);
    EdgeEnds(p, k, j, slope);
  }

  lemma ListedHasRow(p: Prepared, slope: Slope, rows: seq<CompRow>, k: nat, j: nat)
    requires Parallel(p) && k < j < |p.x| && EdgeRow(p, k, j, slope) in rows
    ensures HasRow(rows, k, j)
  {
    hide EdgeRow;
    EdgeEnds(p, k, j, slope);
    var i :| 0 <= i < |rows| && rows[i] == EdgeRow(p, k, j, slope);
  }

  lemma RowsNearPairs(p: Prepared, slope: Slope)
    requires Parallel(p) && Valid(p) && InContract(p) && Canonical(p) && |p.x| <= 150
    ensures ListsNearPairs(EdgeTable(p, slope), p)
  {
    hide EdgeRow, EdgeTable, Sort, AllEdges, IsEdge, Climbs, Sorted, FromEdge, Valid, InContract, Canonical, HasRow,
      Separation, CircularDistance;
    var all, rows := AllEdges(p, slope, 0), EdgeTable(p, slope);
    TableIsWeb(p, slope);
    CapIsBelowLimit(p, slope);
    SortElements(all, ByLength);
    TableHoldsEdges(p, slope);
    AllEdgesClimb(p, slope, 0);
    ClimbsLower(all);
    forall i | 0 <= i < |rows|
      ensures 1 <= rows[i].k < rows[i].j <= |p.x| && IsEdge(p, rows[i].k - 1, rows[i].j - 1)
      ensures rows[i] == EdgeRow(p, rows[i].k - 1, rows[i].j - 1, slope)
    {
      RowIsEdge(p, slope, rows[i]);
    }
    forall k, j | 0 <= k < j < |p.x|
      ensures HasRow(rows, k, j)
        <==> CircularDistance(p.theta[k], p.theta[j]) != 180 && Separation(p, k, j) <= 15625
    {
      EdgeIsNear(p, k, j);
      if IsEdge(p, k, j) {
        EdgeListed(p, slope, 0, k, j);
        assert EdgeRow(p, k, j, slope) in multiset(all);
        assert EdgeRow(p, k, j, slope) in multiset(rows);
        ListedHasRow(p, slope, rows, k, j);
      }
      RowsEdge(p, rows, k, j);
    }
    forall a, b | 0 <= a < b < |rows| ensures rows[a].k != rows[b].k || rows[a].j != rows[b].j {
      OnceStaysOnce(all, rows, a, b);
    }
  }

  lemma RowsEdge(p: Prepared, rows: seq<CompRow>, k: nat, j: nat)
    requires Parallel(p) && k < j < |p.x|
    requires forall i :: 0 <= i < |rows| ==>
      1 <= rows[i].k < rows[i].j <= |p.x| && IsEdge(p, rows[i].k - 1, rows[i].j - 1)
    ensures HasRow(rows, k, j) ==> IsEdge(p, k, j)
  {
    hide IsEdge;
  }

  /** The direction of the line through two minutiae, measured from the one with the smaller number. */
  function Bearing(p: Prepared, slope: Slope, k: nat, j: nat): (d: int)
    requires Parallel(p) && k < |p.x| && j < |p.x|
  {
    if p.x[j] == p.x[k] then 90 else slope(p.y[j] - p.y[k], p.x[j] - p.x[k])
  }

  /** The direction in which minutia `k` sees minutia `j`. */
  function Heading(p: Prepared, slope: Slope, k: nat, j: nat): (d: int)
    requires Parallel(p) && k < |p.x| && j < |p.x|
  {
    if k < j then Bearing(p, slope, k, j) else Bearing(p, slope, j, k) + 180
  }

  /** The same, relative to the ridge at `k`. */
  function Look(p: Prepared, slope: Slope, k: nat, j: nat): (d: int)
    requires Parallel(p) && k < |p.x| && j < |p.x|
  {
    Heading(p, slope, k, j) - p.theta[k]
  }

  predicate SameDirection(a: int, b: int) {
    (a - b) % 360 == 0
  }

  /**
   * A row tells how far apart its ends are and how each sees the other, the smaller relative angle first; and
   * its last column tells the bearing, and whose angle came first.
   */
  ghost predicate Tells(r: CompRow, p: Prepared, slope: Slope)
    requires Parallel(p) && 1 <= r.k <= |p.x| && 1 <= r.j <= |p.x|
  {
    var k, j := r.k - 1, r.j - 1;
    && r.dist == Separation(p, k, j)
    && -180 < r.betaMin <= r.betaMax <= 180
    && if r.theta < 220 then
         && r.theta == Bearing(p, slope, k, j)
         && SameDirection(r.betaMin, Look(p, slope, k, j)) && SameDirection(r.betaMax, Look(p, slope, j, k))
       else
         && r.theta == Bearing(p, slope, k, j) + 400
         && SameDirection(r.betaMin, Look(p, slope, j, k)) && SameDirection(r.betaMax, Look(p, slope, k, j))
  }

  lemma EdgeRowTells(p: Prepared, k: nat, j: nat, slope: Slope)
    requires Parallel(p) && InContract(p) && Canonical(p) && SlopeOk(slope) && k < j < |p.x|
    ensures EdgeRow(p, k, j, slope).k == k + 1 && EdgeRow(p, k, j, slope).j == j + 1
    ensures Tells(EdgeRow(p, k, j, slope), p, slope)
  {
    hide Separation, Length, InContract;
    SeparationIsLength(p, k, j);
    var theta := Bearing(p, slope, k, j);
    assert theta == EdgeAngle(Dx(p, k, j), Dy(p, k, j), slope) && -90 <= theta <= 90;
    hide Dx, Dy, EdgeAngle, Bearing;
    assert Wrap32(theta - p.theta[k]) == theta - p.theta[k];
    assert Wrap32(Wrap32(theta - p.theta[j]) + 180) == theta - p.theta[j] + 180;
    hide Wrap32, Iangle180;
  }

  /** Every row of the table tells of its edge. */
  lemma TableTells(p: Prepared, slope: Slope, i: nat)
    requires Parallel(p) && InContract(p) && Canonical(p) && SlopeOk(slope) && i < |EdgeTable(p, slope)|
    ensures var r := EdgeTable(p, slope)[i]; 1 <= r.k < r.j <= |p.x| && Tells(r, p, slope)
  {
    hide EdgeTable, EdgeRow, IsEdge, FromEdge, Tells, InContract, Canonical;
    TableHoldsEdges(p, slope);
    var r := EdgeTable(p, slope)[i];
    RowIsEdge(p, slope, r);
    EdgeRowTells(p, r.k - 1, r.j - 1, slope);
  }

  // --- The pruned length ----------------------------------------------------------------------

  ghost predicate DistanceSorted(rows: seq<CompRow>) {
    forall i, j :: 0 <= i < j < |rows| ==> rows[i].dist <= rows[j].dist
  }

  /** How many rows are no longer than the pruning distance. */
  function CountShort(rows: seq<CompRow>): (c: nat)
    ensures c <= |rows|
  {
    if rows == [] then 0 else
    CountShort(rows[..|rows| - 1]) + if rows[|rows| - 1].dist <= FD then 1 else 0
  }

  lemma {:induction false} ShortRowsFirst(rows: seq<CompRow>, b: nat)
    requires b <= |rows|
    requires forall i :: 0 <= i < b ==> rows[i].dist <= FD
    requires forall i :: b <= i < |rows| ==> rows[i].dist > FD
    ensures CountShort(rows) == b
  {
    if rows != [] {
      var m := |rows| - 1;
      ShortRowsFirst(rows[..m], if b == |rows| then m else b);
    }
  }

  function Min(a: int, b: int): int { if a < b then a else b }
  function Max(a: int, b: int): int { if a < b then b else a }

  /** How many rows of a table stage 2 reads. */
  function PrunedLength(rows: seq<CompRow>): (r: nat)
    ensures r <= |rows|
  {
    Min(|rows|, Max(CountShort(rows) + 1, FDD))
  }

  /** Binary search for the pruning distance, then the floor under the number of edges kept. */
  method PruneLen(sorted: seq<CompRow>) returns (len: nat)
    requires DistanceSorted(sorted)
    ensures len == PrunedLength(sorted)
  {
    var sim := |sorted|;
    var bottom, top, midpoint, state := 0, sim + 1, 1, -1;
    while top - bottom > 1
      invariant 0 <= bottom < top <= sim + 1
      invariant || (top == sim + 1 && midpoint == 1 && state < 0 && bottom == 0)
                || midpoint == (if state < 0 then top else bottom)
      invariant forall i :: 0 <= i < bottom ==> sorted[i].dist <= FD
      invariant forall i :: top - 1 <= i < sim ==> sorted[i].dist > FD
    {
      midpoint := (bottom + top) / 2;
      state := SenseNegPos(FD, sorted[midpoint - 1].dist);
      if state < 0 {
        top := midpoint;
      } else {
        bottom := midpoint;
      }
    }
    ShortRowsFirst(sorted, bottom);
    if state > -1 {
      midpoint := midpoint + 1;
    }
    assert midpoint == CountShort(sorted) + 1;
    var msim := sim;
    if midpoint < msim {
      msim := midpoint;
    }
    if msim < FDD {
      msim := if sim > FDD then FDD else sim;
    }
    len := msim;
  }

  lemma {:induction false} CountIsBoundary(rows: seq<CompRow>, i: nat)
    requires DistanceSorted(rows) && i < |rows|
    ensures i < CountShort(rows) <==> rows[i].dist <= 5625
  {
    var m := |rows| - 1;
    if i < m {
      CountIsBoundary(rows[..m], i);
      if rows[m].dist <= FD { AllShort(rows[..m]); }
    } else if rows[m].dist <= FD {
      AllShort(rows[..m]);
    }
  }

  lemma {:induction false} AllShort(rows: seq<CompRow>)
    requires forall i :: 0 <= i < |rows| ==> rows[i].dist <= FD
    ensures CountShort(rows) == |rows|
  {
    if rows != [] { AllShort(rows[..|rows| - 1]); }
  }

  /**
   * Pruning keeps every edge of up to 75 pixels. If those are fewer than 500 it makes 500 of them with the next
   * longer ones, as far as there are any; otherwise it keeps one longer edge beside them.
   */
  lemma PruneKeepsShort(rows: seq<CompRow>)
    requires DistanceSorted(rows)
    ensures var n := PrunedLength(rows);
      && (forall i :: 0 <= i < |rows| && rows[i].dist <= 5625 ==> i < n)
      && (if |rows| <= 500 then n == |rows| else n >= 500)
      && (n > 500 ==> rows[n - 2].dist <= 5625 && (n < |rows| ==> rows[n - 1].dist > 5625))
  {
    hide CountShort;
    forall i | 0 <= i < |rows| ensures i < CountShort(rows) <==> rows[i].dist <= 5625 {
      CountIsBoundary(rows, i);
    }
  }
}
