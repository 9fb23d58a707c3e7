/**
 * Stage 2: the table of compatible edge pairs of two prints, one edge of either print per row.
 */
module Inter {
  import opened Consts
  import opened StableSort
  import opened Xyt
  import opened Intra
  import opened Paths
  import opened Lookup

  // --- The table by brute force ---------------------------------------------------------------

  /** Lengths more than a tenth of their sum apart. */
  predicate OutOfReach(s: int, f: int) {
    100 * ((f - s) * (f - s)) > (f + s) * (f + s)
  }

  /** The relative angles agree at both ends, around the circle. */
  predicate AnglesAgree(s: CompRow, f: CompRow) {
    !OutOfBand(s.betaMin - f.betaMin) && !OutOfBand(s.betaMax - f.betaMax)
  }

  predicate Pairs(s: CompRow, f: CompRow) {
    !OutOfReach(s.dist, f.dist) && AnglesAgree(s, f)
  }

  predicate Swapped(r: CompRow) {
    r.theta >= 220
  }

  /** The edge's direction, from its near end: a swapped edge runs the other way. */
  function Direction(r: CompRow): (d: int) {
    if Swapped(r) then r.theta - 580 else r.theta
  }

  function PairRow(s: CompRow, f: CompRow): (r: ColpRow) {
    var rot := Iangle180(Direction(s) - Direction(f));
    if Swapped(s) != Swapped(f) then ColpRow(rot, s.k, s.j, f.j, f.k) else ColpRow(rot, s.k, s.j, f.k, f.j)
  }

  /** The pairs of probe row `s` with gallery rows `j, j + 1, ..`. */
  function PairsFrom(s: CompRow, gallery: seq<CompRow>, j: nat): (r: seq<ColpRow>)
    decreases |gallery| - j
  {
    if j >= |gallery| then []
    else (if Pairs(s, gallery[j]) then [PairRow(s, gallery[j])] else []) + PairsFrom(s, gallery, j + 1)
  }

  /** The pairs of probe rows `k, k + 1, ..`, all but the last, with every gallery row. */
  function AllPairs(probe: seq<CompRow>, gallery: seq<CompRow>, k: nat): (r: seq<ColpRow>)
    decreases |probe| - k
  {
    if k + 1 >= |probe| then [] else PairsFrom(probe[k], gallery, 0) + AllPairs(probe, gallery, k + 1)
  }

  predicate ByPlace(a: ColpRow, b: ColpRow) {
    || a.pk < b.pk
    || (a.pk == b.pk && a.ga < b.ga)
    || (a.pk == b.pk && a.ga == b.ga && a.pj <= b.pj)
  }

  function PairTable(probe: seq<CompRow>, gallery: seq<CompRow>): (r: seq<ColpRow>) {
    Sort(Cut(AllPairs(probe, gallery, 0)), ByPlace)
  }

  // --- The table as the cursor builds it ------------------------------------------------------

  /** Distances are squares of lengths, and ascend. */
  ghost predicate Ascends(rows: seq<CompRow>) {
    DistanceSorted(rows) && forall i :: 0 <= i < |rows| ==> rows[i].dist >= 0
  }

  /** On lengths the squared test is the linear one. */
  lemma ReachIsLinear(s: int, f: int)
    requires 0 <= s && 0 <= f
    ensures OutOfReach(s, f) <==> 9 * s > 11 * f || 9 * f > 11 * s
    ensures OutOfReach(s, f) <==> 10 * (if f >= s then f - s else s - f) > f + s
  {
    var d := if f >= s then f - s else s - f;
    assert (10 * d) * (10 * d) == 100 * ((f - s) * (f - s));
    SquareBelow(f + s, 10 * d);
  }

  /** The gallery row is too short for this probe row: also for every later one. */
  ghost predicate TooShort(s: CompRow, f: CompRow) {
    9 * s.dist > 11 * f.dist
  }

  lemma {:induction false} ShortOnesDoNotPair(s: CompRow, gallery: seq<CompRow>, i: nat, j: nat)
    requires i <= j <= |gallery| && s.dist >= 0 && Ascends(gallery)
    requires forall x :: 0 <= x < j ==> TooShort(s, gallery[x])
    ensures PairsFrom(s, gallery, i) == PairsFrom(s, gallery, j)
    decreases j - i
  {
    if i < j {
      ReachIsLinear(s.dist, gallery[i].dist);
      ShortOnesDoNotPair(s, gallery, i + 1, j);
      hide OutOfReach, AnglesAgree;
    }
  }

  lemma {:induction false} LongOnesDoNotPair(s: CompRow, gallery: seq<CompRow>, j: nat, i: nat)
    requires j < |gallery| && j <= i && s.dist >= 0 && Ascends(gallery)
    requires OutOfReach(s.dist, gallery[j].dist) && gallery[j].dist >= s.dist
    ensures PairsFrom(s, gallery, i) == []
    decreases |gallery| - i
  {
    if i < |gallery| {
      ReachIsLinear(s.dist, gallery[j].dist);
      ReachIsLinear(s.dist, gallery[i].dist);
      LongOnesDoNotPair(s, gallery, j, i + 1);
      hide OutOfReach, AnglesAgree, PairRow;
    }
  }

  /** One row of the pair table. */
  method MakePair(s: CompRow, f: CompRow) returns (row: ColpRow)
    ensures row == PairRow(s, f)
  {
    var p1, n := s.theta, 0;
    if s.theta >= 220 {
      p1, n := s.theta - 580, 1;
    }
    var p2, b := f.theta, 0;
    if f.theta >= 220 {
      p2, b := f.theta - 580, 1;
    }
    p1 := Iangle180(p1 - p2);
    if n != b {
      row := ColpRow(p1, s.k, s.j, f.j, f.k);
    } else {
      row := ColpRow(p1, s.k, s.j, f.k, f.j);
    }
  }

  /** The gallery rows before cursor `st` are too short for probe row `k`. */
  ghost predicate Passed(probe: seq<CompRow>, gallery: seq<CompRow>, k: nat, st: int) {
    1 <= st <= |gallery| + 1 && forall x :: 0 <= x < st - 1 && k < |probe| ==> TooShort(probe[k], gallery[x])
  }

  lemma PassedStays(probe: seq<CompRow>, gallery: seq<CompRow>, k: nat, st: int)
    requires Ascends(probe) && k + 1 < |probe| && Passed(probe, gallery, k, st)
    ensures Passed(probe, gallery, k + 1, st)
  {
  }

  /** The walk for one probe row, from the cursor on. */
  method WalkRow(probe: seq<CompRow>, gallery: seq<CompRow>, k: nat, st0: int, rot0: seq<ColpRow>)
    returns (rot: seq<ColpRow>, st: int, full: bool)
    requires Ascends(probe) && Ascends(gallery) && k < |probe| && Passed(probe, gallery, k, st0)
    requires |rot0| < TABLE_OVERFLOW_LIMIT
    ensures full ==> |rot| == TABLE_OVERFLOW_LIMIT && rot <= rot0 + PairsFrom(probe[k], gallery, 0)
    ensures !full ==> |rot| < TABLE_OVERFLOW_LIMIT && rot == rot0 + PairsFrom(probe[k], gallery, 0)
    ensures Passed(probe, gallery, k, st)
  {
    hide OutOfReach, AnglesAgree, OutOfBand, PairRow;
    ghost var goal := rot0 + PairsFrom(probe[k], gallery, 0);
    rot, st, full := rot0, st0, false;
    var ss, j := probe[k], st0;
    ShortOnesDoNotPair(ss, gallery, 0, st0 - 1);
    while j <= |gallery|
      invariant 1 <= j <= |gallery| + 1 && Passed(probe, gallery, k, st)
      invariant |rot| < TABLE_OVERFLOW_LIMIT && rot + PairsFrom(ss, gallery, j - 1) == goal
    {
      var ff := gallery[j - 1];
      ReachIsLinear(ss.dist, ff.dist);
      ghost var rest := PairsFrom(ss, gallery, j);
      var far := Far(ss, ff);
      if far {
        if ff.dist - ss.dist < 0 {
          st := j + 1;
          j := j + 1;
          continue;
        }
        LongOnesDoNotPair(ss, gallery, j - 1, j - 1);
        return;
      }
      if OutOfBand(ss.betaMin - ff.betaMin) || OutOfBand(ss.betaMax - ff.betaMax) {
        assert !AnglesAgree(ss, ff) by { AgreeIs(ss, ff); }
        j := j + 1;
        continue;
      }
      assert AnglesAgree(ss, ff) by { AgreeIs(ss, ff); }
      assert rot + ([PairRow(ss, ff)] + rest) == (rot + [PairRow(ss, ff)]) + rest;
      var row := MakePair(ss, ff);
      rot := rot + [row];
      if |rot| == TABLE_OVERFLOW_LIMIT {
        return rot, st, true;
      }
      j := j + 1;
    }
  }

  lemma AgreeIs(s: CompRow, f: CompRow)
    ensures AnglesAgree(s, f) <==> !OutOfBand(s.betaMin - f.betaMin) && !OutOfBand(s.betaMax - f.betaMax)
  {
  }

  method Far(ss: CompRow, ff: CompRow) returns (far: bool)
    ensures far == OutOfReach(ss.dist, ff.dist)
  {
    var dz := ff.dist - ss.dist;
    far := 100 * (dz * dz) > (ff.dist + ss.dist) * (ff.dist + ss.dist);
  }

  lemma CutPairs(rot: seq<ColpRow>, some: seq<ColpRow>, later: seq<ColpRow>, all: seq<ColpRow>)
    requires rot <= some && some + later == all && |rot| == TABLE_OVERFLOW_LIMIT
    ensures rot == Cut(all)
  {
    assert rot == all[..|rot|];
  }

  /** Walks both webs with a cursor that never goes back: the brute-force table, cut off and stably sorted. */
  method BzMatch(probe: seq<CompRow>, gallery: seq<CompRow>) returns (rows: seq<ColpRow>)
    requires Ascends(probe) && Ascends(gallery)
    ensures rows == PairTable(probe, gallery)
  {
    hide Ascends, PairsFrom, Passed;
    var rot: seq<ColpRow>, st, k := [], 1, 0;
    ghost var all := AllPairs(probe, gallery, 0);
    NonePassed(probe, gallery);
    assert rot + all == all;
    while k + 1 < |probe|
      invariant 0 <= k && |rot| < TABLE_OVERFLOW_LIMIT && rot + AllPairs(probe, gallery, k) == all
      invariant k < |probe| ==> Passed(probe, gallery, k, st)
    {
      ghost var before, here, later := rot, PairsFrom(probe[k], gallery, 0), AllPairs(probe, gallery, k + 1);
      assert before + (here + later) == (before + here) + later;
      var full;
      rot, st, full := WalkRow(probe, gallery, k, st, rot);
      if full {
        CutPairs(rot, before + here, later, all);
        return Sort(rot, ByPlace);
      }
      PassedStays(probe, gallery, k, st);
      k := k + 1;
    }
    assert rot == all;
    rows := Sort(rot, ByPlace);
  }

  lemma NonePassed(probe: seq<CompRow>, gallery: seq<CompRow>)
    ensures Passed(probe, gallery, 0, 1)
  {
  }

  // --- What a row says ------------------------------------------------------------------------

  /** The band on relative angles is circular distance at most 11 degrees. */
  lemma AgreementIsCircular(s: CompRow, f: CompRow, m: nat, n: nat)
    requires RowFits(s, m) && RowFits(f, n)
    ensures AnglesAgree(s, f)
      <==> CircularDistance(s.betaMin, f.betaMin) <= 11 && CircularDistance(s.betaMax, f.betaMax) <= 11
  {
    BandIsCircular(s.betaMin, f.betaMin);
    BandIsCircular(s.betaMax, f.betaMax);
  }

  /** Stage 1's swap flag is read back for what it is, and the direction with it. */
  lemma SwapFlagDecodes(p: Xyt.Prepared, k: nat, j: nat, slope: Slope)
    requires Parallel(p) && k < j < |p.x| && SlopeOk(slope)
    ensures var r := EdgeRow(p, k, j, slope);
      var theta := EdgeAngle(Dx(p, k, j), Dy(p, k, j), slope);
      var betaK := Iangle180(Wrap32(theta - p.theta[k]));
      var betaJ := Iangle180(Wrap32(Wrap32(theta - p.theta[j]) + 180));
      && (Swapped(r) <==> betaK >= betaJ)
      && Direction(r) == (if Swapped(r) then theta - 180 else theta)
  {
    hide Wrap32, Dx, Dy, Iangle180;
    assert -90 <= EdgeAngle(Dx(p, k, j), Dy(p, k, j), slope) <= 90;
  }

  /** The rotation column is the difference of the two directions, folded into (-180, 180]. */
  lemma RotationIsDifference(s: CompRow, f: CompRow, m: nat, n: nat)
    requires RowFits(s, m) && RowFits(f, n)
    ensures -180 < PairRow(s, f).rot <= 180
    ensures (PairRow(s, f).rot - (Direction(s) - Direction(f))) % 360 == 0
  {
  }

  /**
   * A row of the pair table joins ends that look alike: in either print the near end sees the far end, and the
   * far end the near one, under the same angle to its own ridge, to within 11 degrees. The two edges are of a
   * length, and the first column is what one has to be turned by to have the direction of the other.
   */
  ghost predicate JoinsLikeEnds(r: ColpRow, p: Prepared, g: Prepared, slope: Slope)
    requires Parallel(p) && Parallel(g)
    requires 1 <= r.pk <= |p.x| && 1 <= r.pj <= |p.x| && 1 <= r.ga <= |g.x| && 1 <= r.gb <= |g.x|
  {
    var k, j, a, b := r.pk - 1, r.pj - 1, r.ga - 1, r.gb - 1;
    && CircularDistance(Look(p, slope, k, j), Look(g, slope, a, b)) <= 11
    && CircularDistance(Look(p, slope, j, k), Look(g, slope, b, a)) <= 11
    && 9 * Separation(p, k, j) <= 11 * Separation(g, a, b) && 9 * Separation(g, a, b) <= 11 * Separation(p, k, j)
    && -180 < r.rot <= 180 && SameDirection(r.rot, Heading(p, slope, k, j) - Heading(g, slope, a, b))
  }

  lemma PairJoinsLikeEnds(s: CompRow, f: CompRow, p: Prepared, g: Prepared, slope: Slope)
    requires Parallel(p) && Parallel(g) && RowFits(s, |p.x|) && RowFits(f, |g.x|) && Pairs(s, f)
    requires Tells(s, p, slope) && Tells(f, g, slope)
    ensures var r := PairRow(s, f);
      && 1 <= r.pk < r.pj <= |p.x| && 1 <= r.ga <= |g.x| && 1 <= r.gb <= |g.x| && r.ga != r.gb
      && JoinsLikeEnds(r, p, g, slope)
  {
    hide Bearing, Separation, CircularDistance, AnglesAgree, OutOfReach, Iangle180, Look, Heading, SameDirection;
    ReachIsLinear(s.dist, f.dist);
    SeparationIsSymmetric(g, f.k - 1, f.j - 1);
    PairLooks(s, f, p, g, slope);
    PairTurns(s, f, p, g, slope);
  }

  lemma PairLooks(s: CompRow, f: CompRow, p: Prepared, g: Prepared, slope: Slope)
    requires Parallel(p) && Parallel(g) && RowFits(s, |p.x|) && RowFits(f, |g.x|) && Pairs(s, f)
    requires Tells(s, p, slope) && Tells(f, g, slope)
    ensures var r := PairRow(s, f);
      && CircularDistance(Look(p, slope, r.pk - 1, r.pj - 1), Look(g, slope, r.ga - 1, r.gb - 1)) <= 11
      && CircularDistance(Look(p, slope, r.pj - 1, r.pk - 1), Look(g, slope, r.gb - 1, r.ga - 1)) <= 11
  {
    hide Bearing, Separation, CircularDistance, AnglesAgree, OutOfReach, Iangle180, Look;
    AgreementIsCircular(s, f, |p.x|, |g.x|);
    var k, j, a, b := s.k - 1, s.j - 1, f.k - 1, f.j - 1;
    var near, far := Look(p, slope, k, j), Look(p, slope, j, k);
    var near', far' := Look(g, slope, a, b), Look(g, slope, b, a);
    FullTurnsVanish(s.betaMin, if s.theta < 220 then near else far, f.betaMin, if f.theta < 220 then near' else far');
    FullTurnsVanish(s.betaMax, if s.theta < 220 then far else near, f.betaMax, if f.theta < 220 then far' else near');
  }

  lemma PairTurns(s: CompRow, f: CompRow, p: Prepared, g: Prepared, slope: Slope)
    requires Parallel(p) && Parallel(g) && RowFits(s, |p.x|) && RowFits(f, |g.x|)
    requires Tells(s, p, slope) && Tells(f, g, slope)
    ensures var r := PairRow(s, f);
      && -180 < r.rot <= 180
      && SameDirection(r.rot, Heading(p, slope, r.pk - 1, r.pj - 1) - Heading(g, slope, r.ga - 1, r.gb - 1))
  {
    hide Bearing, Separation, Look, Iangle180;
    RotationIsDifference(s, f, |p.x|, |g.x|);
  }

  lemma SeparationIsSymmetric(p: Prepared, k: nat, j: nat)
    requires Parallel(p) && k < |p.x| && j < |p.x|
    ensures Separation(p, k, j) == Separation(p, j, k)
  {
    SquareOfOpposite(p.x[j] - p.x[k], p.x[k] - p.x[j]);
    SquareOfOpposite(p.y[j] - p.y[k], p.y[k] - p.y[j]);
  }

  lemma SquareOfOpposite(a: int, b: int)
    requires a == -b
    ensures a * a == b * b
  {
  }

  /** Rows read off the table of a canonical print in the image. */
  ghost predicate ReadOff(rows: seq<CompRow>, p: Prepared, slope: Slope) {
    && Parallel(p) && InContract(p) && Canonical(p) && rows <= EdgeTable(p, slope)
  }

  /** Every row of the pair table of two prints joins ends that look alike. */
  lemma TableJoinsLikeEnds(probe: seq<CompRow>, gallery: seq<CompRow>, p: Prepared, g: Prepared, slope: Slope, i: nat)
    requires ReadOff(probe, p, slope) && ReadOff(gallery, g, slope) && SlopeOk(slope)
    requires i < |PairTable(probe, gallery)|
    ensures var r := PairTable(probe, gallery)[i];
      && 1 <= r.pk < r.pj <= |p.x| && 1 <= r.ga <= |g.x| && 1 <= r.gb <= |g.x| && r.ga != r.gb
      && JoinsLikeEnds(r, p, g, slope)
  {
    hide PairTable, EdgeTable, Pairs, PairRow, FromPair, Tells, JoinsLikeEnds, RowFits;
    TableHoldsPairs(probe, gallery);
    TableFits(p, slope);
    TableFits(g, slope);
    var r := PairTable(probe, gallery)[i];
    var s, f := PairedRows(r, probe, gallery);
    var x, y :| 0 <= x < |probe| && probe[x] == s && 0 <= y < |gallery| && gallery[y] == f;
    assert probe[x] == EdgeTable(p, slope)[x] && gallery[y] == EdgeTable(g, slope)[y];
    TableTells(p, slope, x);
    TableTells(g, slope, y);
    PairJoinsLikeEnds(s, f, p, g, slope);
  }

  lemma PairedRows(r: ColpRow, probe: seq<CompRow>, gallery: seq<CompRow>) returns (s: CompRow, f: CompRow)
    requires FromPair(r, probe, gallery)
    ensures s in probe && f in gallery && Pairs(s, f) && r == PairRow(s, f)
  {
    hide Pairs, PairRow;
    s, f :| s in probe && f in gallery && Pairs(s, f) && r == PairRow(s, f);
  }

  // --- Nothing is left out --------------------------------------------------------------------

  lemma {:induction false} PairIsListedFrom(s: CompRow, gallery: seq<CompRow>, j: nat, y: nat)
    requires j <= y < |gallery| && Pairs(s, gallery[y])
    ensures PairRow(s, gallery[y]) in PairsFrom(s, gallery, j)
    decreases y - j
  {
    hide Pairs, PairRow;
    if j < y { PairIsListedFrom(s, gallery, j + 1, y); }
  }

  lemma {:induction false} PairIsListed(probe: seq<CompRow>, gallery: seq<CompRow>, k: nat, x: nat, y: nat)
    requires k <= x && x + 1 < |probe| && y < |gallery| && Pairs(probe[x], gallery[y])
    ensures PairRow(probe[x], gallery[y]) in AllPairs(probe, gallery, k)
    decreases x - k
  {
    hide Pairs, PairRow, PairsFrom;
    if k < x { PairIsListed(probe, gallery, k + 1, x, y); } else { PairIsListedFrom(probe[x], gallery, 0, y); }
  }

  /** The table joins the two edges, one way round or the other. */
  ghost predicate Joins(rows: seq<ColpRow>, s: CompRow, f: CompRow) {
    exists i :: 0 <= i < |rows| && rows[i].pk == s.k && rows[i].pj == s.j
      && ((rows[i].ga == f.k && rows[i].gb == f.j) || (rows[i].ga == f.j && rows[i].gb == f.k))
  }

  /**
   * Unless it is full, the table joins every probe row but the last with every gallery row whose length is
   * within a tenth of their sum and whose relative angles, smaller with smaller and larger with larger, are
   * within 11 degrees.
   */
  lemma LikeEdgesAreJoined(probe: seq<CompRow>, gallery: seq<CompRow>, m: nat, n: nat, x: nat, y: nat)
    requires AllFit(probe, m) && AllFit(gallery, n) && |PairTable(probe, gallery)| < 19999
    requires x + 1 < |probe| && y < |gallery|
    requires Alike(probe[x], gallery[y])
    ensures Joins(PairTable(probe, gallery), probe[x], gallery[y])
  {
    hide AllPairs, PairsFrom, Sort, CircularDistance, AnglesAgree, OutOfReach, Pairs;
    var s, f, all := probe[x], gallery[y], AllPairs(probe, gallery, 0);
    assert RowFits(s, m) && RowFits(f, n);
    PairsIs(s, f, m, n);
    PairIsListed(probe, gallery, 0, x, y);
    SortElements(Cut(all), ByPlace);
    assert Cut(all) == all;
    assert PairRow(s, f) in multiset(all);
    assert PairRow(s, f) in multiset(PairTable(probe, gallery));
    var i :| 0 <= i < |PairTable(probe, gallery)| && PairTable(probe, gallery)[i] == PairRow(s, f);
  }

  /** The gallery rows from `j` on that pair with `s`. */
  ghost function Mates(s: CompRow, gallery: seq<CompRow>, j: nat): (r: set<int>) {
    set y | j <= y < |gallery| && Pairs(s, gallery[y])
  }

  lemma {:induction false} PairsCountMates(s: CompRow, gallery: seq<CompRow>, j: nat)
    requires j <= |gallery|
    ensures |PairsFrom(s, gallery, j)| == |Mates(s, gallery, j)|
    decreases |gallery| - j
  {
    hide Pairs, PairRow;
    if j < |gallery| {
      PairsCountMates(s, gallery, j + 1);
      assert Mates(s, gallery, j) == Mates(s, gallery, j + 1) + if Pairs(s, gallery[j]) then {j} else {};
    } else {
      assert Mates(s, gallery, j) == {};
    }
  }

  /** The pairs of a probe row from `k` on, but not the last, and a gallery row. */
  ghost function Couples(probe: seq<CompRow>, gallery: seq<CompRow>, k: nat): (r: set<(int, int)>) {
    set x, y | k <= x < |probe| - 1 && 0 <= y < |gallery| && Pairs(probe[x], gallery[y]) :: (x, y)
  }

  ghost function WithFirst<T>(k: int, ys: set<T>): (r: set<(int, T)>) {
    set y | y in ys :: (k, y)
  }

  lemma {:induction false} WithFirstCounts<T>(k: int, ys: set<T>)
    ensures |WithFirst(k, ys)| == |ys|
  {
    if ys != {} {
      var y :| y in ys;
      WithFirstCounts(k, ys - {y});
      assert (k, y) !in WithFirst(k, ys - {y});
      assert WithFirst(k, ys) == WithFirst(k, ys - {y}) + {(k, y)};
    }
  }

  lemma {:induction false} AllPairsCountCouples(probe: seq<CompRow>, gallery: seq<CompRow>, k: nat)
    ensures |AllPairs(probe, gallery, k)| == |Couples(probe, gallery, k)|
    decreases |probe| - k
  {
    hide Pairs, PairsFrom;
    if k + 1 < |probe| {
      AllPairsCountCouples(probe, gallery, k + 1);
      PairsCountMates(probe[k], gallery, 0);
      var here := Mates(probe[k], gallery, 0);
      WithFirstCounts(k, here);
      var first := WithFirst(k, here);
      assert Couples(probe, gallery, k) == first + Couples(probe, gallery, k + 1);
      assert first !! Couples(probe, gallery, k + 1);
    } else {
      assert Couples(probe, gallery, k) == {};
    }
  }

  /** The two rows are about as long, and their relative angles agree, the smaller ones and the larger ones. */
  ghost predicate Alike(s: CompRow, f: CompRow) {
    && 9 * s.dist <= 11 * f.dist && 9 * f.dist <= 11 * s.dist
    && CircularDistance(s.betaMin, f.betaMin) <= 11 && CircularDistance(s.betaMax, f.betaMax) <= 11
  }

  /** The table has a row for each pair of edges that are alike, and no more; or it is full. */
  lemma TableCountsPairs(probe: seq<CompRow>, gallery: seq<CompRow>, m: nat, n: nat)
    requires AllFit(probe, m) && AllFit(gallery, n)
    ensures
      var alike := set x, y | 0 <= x < |probe| - 1 && 0 <= y < |gallery| && Alike(probe[x], gallery[y]) :: (x, y);
      |PairTable(probe, gallery)| == if |alike| < 19999 then |alike| else 19999
  {
    hide AllPairs, Sort, Pairs, Alike, RowFits;
    var alike := set x, y | 0 <= x < |probe| - 1 && 0 <= y < |gallery| && Alike(probe[x], gallery[y]) :: (x, y);
    forall x, y | 0 <= x < |probe| - 1 && 0 <= y < |gallery|
      ensures Pairs(probe[x], gallery[y]) <==> Alike(probe[x], gallery[y])
    {
      AlikeIs(probe[x], gallery[y], m, n);
    }
    assert alike == Couples(probe, gallery, 0);
    AllPairsCountCouples(probe, gallery, 0);
    SortElements(Cut(AllPairs(probe, gallery, 0)), ByPlace);
  }

  lemma AlikeIs(s: CompRow, f: CompRow, m: nat, n: nat)
    requires RowFits(s, m) && RowFits(f, n)
    ensures Pairs(s, f) <==> Alike(s, f)
  {
    hide Pairs, CircularDistance, RowFits;
    PairsIs(s, f, m, n);
  }

  lemma PairsIs(s: CompRow, f: CompRow, m: nat, n: nat)
    requires RowFits(s, m) && RowFits(f, n)
    ensures Pairs(s, f) <==>
      && 9 * s.dist <= 11 * f.dist && 9 * f.dist <= 11 * s.dist
      && CircularDistance(s.betaMin, f.betaMin) <= 11 && CircularDistance(s.betaMax, f.betaMax) <= 11
  {
    hide AnglesAgree, OutOfReach, CircularDistance;
    AgreementIsCircular(s, f, m, n);
    ReachIsLinear(s.dist, f.dist);
  }

  /** The row joins a row of either web. */
  ghost predicate FromPair(r: ColpRow, probe: seq<CompRow>, gallery: seq<CompRow>) {
    exists s, f :: s in probe && f in gallery && Pairs(s, f) && r == PairRow(s, f)
  }

  ghost predicate FromPairs(rows: seq<ColpRow>, probe: seq<CompRow>, gallery: seq<CompRow>) {
    forall r :: r in rows ==> FromPair(r, probe, gallery)
  }

  lemma {:induction false} RowFindsPairs(probe: seq<CompRow>, gallery: seq<CompRow>, k: nat, j: nat)
    requires k < |probe|
    ensures FromPairs(PairsFrom(probe[k], gallery, j), probe, gallery)
    decreases |gallery| - j
  {
    if j < |gallery| {
      RowFindsPairs(probe, gallery, k, j + 1);
      if Pairs(probe[k], gallery[j]) { assert FromPair(PairRow(probe[k], gallery[j]), probe, gallery); }
      hide Pairs, PairRow, FromPair;
    }
  }

  lemma {:induction false} AllFromPairs(probe: seq<CompRow>, gallery: seq<CompRow>, k: nat)
    ensures FromPairs(AllPairs(probe, gallery, k), probe, gallery)
    decreases |probe| - k
  {
    if k + 1 < |probe| {
      RowFindsPairs(probe, gallery, k, 0);
      AllFromPairs(probe, gallery, k + 1);
      hide FromPair, PairsFrom;
    }
  }

  lemma ByPlaceIsPreorder()
    ensures Preorder(ByPlace)
  {
  }

  /** The table joins rows of the two webs only, in stage 3's order, within the limit. */
  lemma TableHoldsPairs(probe: seq<CompRow>, gallery: seq<CompRow>)
    ensures FromPairs(PairTable(probe, gallery), probe, gallery) && Ordered(PairTable(probe, gallery))
    ensures |PairTable(probe, gallery)| <= 19999
  {
    hide FromPair, AllPairs;
    var rows := Cut(AllPairs(probe, gallery, 0));
    AllFromPairs(probe, gallery, 0);
    ByPlaceIsPreorder();
    SortSorts(rows, ByPlace);
    SortElements(rows, ByPlace);
    forall r | r in PairTable(probe, gallery) ensures FromPair(r, probe, gallery) {
      assert r in multiset(PairTable(probe, gallery));
      assert r in rows;
    }
  }

  /** The table is in the order of the probe's near end, then the gallery's, then the probe's far end. */
  lemma PairsAscend(probe: seq<CompRow>, gallery: seq<CompRow>, i: nat, j: nat)
    requires i < j < |PairTable(probe, gallery)|
    ensures var a, b := PairTable(probe, gallery)[i], PairTable(probe, gallery)[j];
      a.pk < b.pk || (a.pk == b.pk && (a.ga < b.ga || (a.ga == b.ga && a.pj <= b.pj)))
  {
    hide AllPairs, Sort;
    ByPlaceIsPreorder();
    SortSorts(Cut(AllPairs(probe, gallery, 0)), ByPlace);
    assert ByPlace(PairTable(probe, gallery)[i], PairTable(probe, gallery)[j]);
  }

  /** Every endpoint in the table belongs to its print. */
  lemma EndpointsFit(probe: seq<CompRow>, gallery: seq<CompRow>, m: nat, n: nat, i: nat)
    requires Placed(probe, m) && Placed(gallery, n) && i < |PairTable(probe, gallery)|
    ensures var r := PairTable(probe, gallery)[i];
      1 <= r.pk < r.pj <= m && 1 <= r.ga <= n && 1 <= r.gb <= n && r.ga != r.gb
  {
    TableHoldsPairs(probe, gallery);
    hide PairTable, Pairs;
    var r := PairTable(probe, gallery)[i];
    assert FromPair(r, probe, gallery);
  }

  /** On canonical prints every rotation in the table is folded. */
  lemma RotationsAreFolded(probe: seq<CompRow>, gallery: seq<CompRow>, m: nat, n: nat, i: nat)
    requires AllFit(probe, m) && AllFit(gallery, n) && i < |PairTable(probe, gallery)|
    ensures -180 < PairTable(probe, gallery)[i].rot <= 180
  {
    TableHoldsPairs(probe, gallery);
    hide PairTable, Pairs;
    var r := PairTable(probe, gallery)[i];
    assert FromPair(r, probe, gallery);
    var s, f :| s in probe && f in gallery && Pairs(s, f) && r == PairRow(s, f);
    RotationIsDifference(s, f, m, n);
  }

  /**
   * Two edges can look alike at both ends and not be joined: here the near ends see the far ends under 10
   * degrees in both prints, and the far ends differ by two, across the half turn, where the order of the two flips.
   */
  lemma FlippedIsNotJoined(s: CompRow, f: CompRow)
    requires s == CompRow(100, 10, 179, 1, 2, 0) && f == CompRow(100, -179, 10, 1, 2, 400)
    ensures CircularDistance(s.betaMin, f.betaMax) == 0 && CircularDistance(s.betaMax, f.betaMin) == 2
    ensures !Swapped(s) && Swapped(f) && PairTable([s, s], [f]) == []
  {
    assert !Pairs(s, f);
    assert PairsFrom(s, [f], 1) == [] && PairsFrom(s, [f], 0) == [];
    assert AllPairs([s, s], [f], 1) == [] && [s, s][0] == s;
    assert AllPairs([s, s], [f], 0) == [];
  }
}
