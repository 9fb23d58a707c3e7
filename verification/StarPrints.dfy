/**
 * Two prints whose minutiae stand in stars: a centre with three arms whose lengths are out of reach of one
 * another, each star turned away from the others. Stages 1 and 2 make of them the table of stars, whatever
 * the angles of edges and of vectors are, so these are minutiae on which the matcher leaves its arrays.
 */
module StarPrints {
  import opened Consts
  import opened StableSort
  import opened Xyt
  import opened Intra
  import opened Inter
  import opened Paths

  // --- Where the minutiae stand ---------------------------------------------------------------

  /** The part a minutia plays: a star's centre (0), one of its arms (1 to 3), or the end of the last, lone edge (4). */
  datatype Spot = Spot(star: nat, role: nat)

  function OffX(role: nat): (r: int) {
    if role == 0 then 0 else if role == 1 then 26 else if role == 2 then 32 else if role == 3 then 112 else 125
  }

  function OffY(role: nat): (r: int) {
    if role == 1 then 97 else if role == 2 then -120 else 0
  }

  function Turned(star: nat): (r: int) {
    if star == 1 then 60 else if star == 2 then 300 else 0
  }

  function MinutiaAt(s: Spot): (m: Minutia) {
    Minutia(400 * s.star + OffX(s.role), 200 + OffY(s.role), Turned(s.star))
  }

  function Minutiae(spots: seq<Spot>): (ms: seq<Minutia>)
    ensures |ms| == |spots| && forall i :: 0 <= i < |ms| ==> ms[i] == MinutiaAt(spots[i])
  {
    seq(|spots|, i requires 0 <= i < |spots| => MinutiaAt(spots[i]))
  }

  /** Three stars, and a centre with a single long edge. */
  predicate SpotOk(s: Spot) {
    if s.star < 3 then s.role <= 3 else s.star == 3 && (s.role == 0 || s.role == 4)
  }

  /** In the order of `x`, and no centre twice. */
  ghost predicate Arranged(spots: seq<Spot>) {
    && |spots| <= DEFAULT_BOZORTH_MINUTIAE && (forall i :: 0 <= i < |spots| ==> SpotOk(spots[i]))
    && forall i, j :: 0 <= i < j < |spots| ==> Follows(spots[i], spots[j])
  }

  predicate Follows(a: Spot, b: Spot) {
    a.star < b.star || (a.star == b.star && a.role <= b.role && b.role != 0)
  }

  /** The prepared print of the spots, column by column. */
  ghost predicate Stands(p: Prepared, spots: seq<Spot>) {
    && |p.x| == |p.y| == |p.theta| == |spots|
    && forall i :: 0 <= i < |spots| ==>
         var m := MinutiaAt(spots[i]); p.x[i] == m.x && p.y[i] == m.y && p.theta[i] == FoldTheta(m.theta)
  }

  lemma PreparedStands(spots: seq<Spot>)
    requires Arranged(spots)
    ensures Stands(Columns(Rows(Minutiae(spots), DEFAULT_BOZORTH_MINUTIAE)), spots)
  {
    var ms := Minutiae(spots);
    var points := Points(ms);
    forall i, j | 0 <= i < j < |points| ensures ByXY(points[i], points[j]) {
      assert Follows(spots[i], spots[j]) && SpotOk(spots[i]) && SpotOk(spots[j]);
    }
    ByXYIsPreorder();
    SortedStays(points, ByXY);
    hide Sort;
  }

  // --- Which pairs are edges ------------------------------------------------------------------

  /** Within a star the centre has an edge to each arm, and minutiae in one place to each other. */
  predicate Linked(a: Spot, b: Spot) {
    a.star == b.star && (a.role == 0 || a.role == b.role)
  }

  /** The squared length of a centre's edge to an arm. */
  function ArmLength(role: nat): (d: int) {
    OffX(role) * OffX(role) + OffY(role) * OffY(role)
  }

  lemma ArmLengths()
    ensures ArmLength(1) == 10085 && ArmLength(2) == 15424 && ArmLength(3) == 12544 && ArmLength(4) == 15625
  {
  }

  lemma Extents(p: Prepared, spots: seq<Spot>, k: nat, j: nat)
    requires Stands(p, spots) && k < |spots| && j < |spots| && SpotOk(spots[k]) && SpotOk(spots[j])
    ensures Dx(p, k, j) == 400 * (spots[j].star - spots[k].star) + OffX(spots[j].role) - OffX(spots[k].role)
    ensures Dy(p, k, j) == OffY(spots[j].role) - OffY(spots[k].role)
  {
    assert MinutiaAt(spots[k]) == MinutiaAt(spots[k]) && MinutiaAt(spots[j]) == MinutiaAt(spots[j]);
  }

  lemma EdgesAreLinks(p: Prepared, spots: seq<Spot>, k: nat, j: nat)
    requires Stands(p, spots) && Arranged(spots) && k < j < |spots|
    ensures IsEdge(p, k, j) <==> Linked(spots[k], spots[j])
    ensures Linked(spots[k], spots[j]) ==>
      Length(p, k, j) == if spots[k].role == 0 then ArmLength(spots[j].role) else 0
  {
    var a, b := spots[k], spots[j];
    assert Follows(a, b) && SpotOk(a) && SpotOk(b);
    Extents(p, spots, k, j);
    hide Dx, Dy, Stands, Arranged, Wrap32, OffX, OffY;
    if a.star < b.star {
      FarApart(a, b, Dx(p, k, j));
      SquareBelow(125, Dx(p, k, j));
      assert Dy(p, k, j) * Dy(p, k, j) >= 0;
    } else {
      NotOpposite(p, spots, k, j);
      WithinStar(a, b);
    }
  }

  lemma FarApart(a: Spot, b: Spot, dx: int)
    requires SpotOk(a) && SpotOk(b) && a.star < b.star
    requires dx == 400 * (b.star - a.star) + OffX(b.role) - OffX(a.role)
    ensures dx > 125
  {
  }

  lemma WithinStar(a: Spot, b: Spot)
    requires SpotOk(a) && SpotOk(b) && a.star == b.star && a.role <= b.role && b.role != 0
    ensures var dx, dy := OffX(b.role) - OffX(a.role), OffY(b.role) - OffY(a.role);
      && (dx * dx + dy * dy <= DM_SQUARED <==> Linked(a, b))
      && (Linked(a, b) ==> dx * dx + dy * dy == if a.role == 0 then ArmLength(b.role) else 0)
  {
  }

  lemma NotOpposite(p: Prepared, spots: seq<Spot>, k: nat, j: nat)
    requires Stands(p, spots) && k < |spots| && j < |spots| && spots[k].star == spots[j].star
    ensures !Opposite(p.theta[k], p.theta[j])
  {
    assert MinutiaAt(spots[k]).theta == MinutiaAt(spots[j]).theta;
  }

  // --- What an edge's row is ------------------------------------------------------------------

  function ArmAngle(role: nat, slope: Slope): (r: int) {
    EdgeAngle(OffX(role), OffY(role), slope)
  }

  /** An arm's edge, relative to the star's turn, folded so that the smaller of its two angles is not positive. */
  function SmallerAngle(star: nat, role: nat, slope: Slope): (r: int) {
    var a := ArmAngle(role, slope) - FoldTheta(Turned(star));
    if a <= 0 then a else a - 180
  }

  /** The row of the edge from a star's centre to an arm, as numbers `k` and `j`. */
  ghost predicate IsSpoke(r: CompRow, star: nat, role: nat, slope: Slope) {
    && r.dist == ArmLength(role) && r.betaMin == SmallerAngle(star, role, slope) && r.betaMax == r.betaMin + 180
  }

  /** Two rows of one length and the same two relative angles. */
  predicate SameEdge(a: CompRow, b: CompRow) {
    a.dist == b.dist && a.betaMin == b.betaMin && a.betaMax == b.betaMax
  }

  lemma SameEdgesTie(a: CompRow, b: CompRow)
    ensures ByLength(a, b) && ByLength(b, a) <==> SameEdge(a, b)
  {
  }

  lemma SpokeRow(p: Prepared, spots: seq<Spot>, k: nat, j: nat, slope: Slope)
    requires Stands(p, spots) && Arranged(spots) && k < j < |spots| && Linked(spots[k], spots[j]) && spots[k].role == 0
    requires SlopeOk(slope)
    ensures var r := EdgeRow(p, k, j, slope);
      && IsSpoke(r, spots[k].star, spots[j].role, slope) && r.k == k + 1 && r.j == j + 1
      && r.theta == ArmAngle(spots[j].role, slope)
           + if ArmAngle(spots[j].role, slope) - FoldTheta(Turned(spots[k].star)) <= 0 then 0 else 400
  {
    hide Stands, Arranged, Dx, Dy, OffX, OffY, ArmLength, Length, ArmAngle, EdgeAngle, Iangle180, Wrap32, FoldTheta,
      Turned, SlopeOk;
    StandsLong(p, spots);
    EdgesAreLinks(p, spots, k, j);
    SpokeAngles(p, spots, k, j, slope);
    Folded(ArmAngle(spots[j].role, slope), FoldTheta(Turned(spots[k].star)));
  }

  /** The edge's angle is the arm's, and both its ends have the star's direction. */
  lemma SpokeAngles(p: Prepared, spots: seq<Spot>, k: nat, j: nat, slope: Slope)
    requires Stands(p, spots) && Arranged(spots) && k < j < |spots| && Linked(spots[k], spots[j]) && spots[k].role == 0
    requires SlopeOk(slope)
    ensures Parallel(p) && |p.x| == |spots|
    ensures p.theta[k] == p.theta[j] == FoldTheta(Turned(spots[k].star))
    ensures -60 <= FoldTheta(Turned(spots[k].star)) <= 60
    ensures EdgeAngle(Dx(p, k, j), Dy(p, k, j), slope) == ArmAngle(spots[j].role, slope)
    ensures -90 <= ArmAngle(spots[j].role, slope) <= 90
  {
    var a, b := spots[k], spots[j];
    assert SpotOk(a) && SpotOk(b);
    Extents(p, spots, k, j);
    assert MinutiaAt(a).theta == MinutiaAt(b).theta == Turned(a.star);
    hide Dx, Dy, Arranged;
  }

  lemma Folded(theta: int, turn: int)
    requires -90 <= theta <= 90 && -60 <= turn <= 60
    ensures Iangle180(Wrap32(theta - turn)) == theta - turn
    ensures Iangle180(Wrap32(Wrap32(theta - turn) + 180)) == theta - turn + if theta - turn <= 0 then 180 else -180
  {
  }

  lemma FlatRow(p: Prepared, spots: seq<Spot>, k: nat, j: nat, slope: Slope)
    requires Stands(p, spots) && Arranged(spots) && k < j < |spots| && Linked(spots[k], spots[j]) && spots[k].role != 0
    ensures EdgeRow(p, k, j, slope).dist == 0
  {
    EdgesAreLinks(p, spots, k, j);
    hide Stands, Arranged, Length, Dx, Dy, Iangle180, Wrap32;
  }

  // --- Which rows pair ------------------------------------------------------------------------

  lemma ArmsOutOfReach(role: nat, role': nat)
    requires 1 <= role <= 3
    ensures OutOfReach(ArmLength(role), 0)
    ensures 1 <= role' <= 3 && role != role' ==> OutOfReach(ArmLength(role), ArmLength(role'))
  {
    ArmLengths();
    ReachIsLinear(ArmLength(role), 0);
    if 1 <= role' <= 3 { ReachIsLinear(ArmLength(role), ArmLength(role')); }
    hide OutOfReach, ArmLength;
  }

  /** The stars are turned by 60 degrees or more from one another, either way round. */
  lemma StarsDisagree(star: nat, star': nat, role: nat, slope: Slope)
    requires star < 3 && star' < 3 && star != star' && SlopeOk(slope)
    ensures OutOfBand(SmallerAngle(star, role, slope) - SmallerAngle(star', role, slope))
  {
    var d := SmallerAngle(star, role, slope) - SmallerAngle(star', role, slope);
    assert -90 <= ArmAngle(role, slope) <= 90;
    assert d == 60 || d == -60 || d == 120 || d == -120;
  }

  /** A row of either web: the edge of an arm, or of minutiae in one place. */
  ghost predicate InWeb(r: CompRow, slope: Slope) {
    r.dist == 0 || exists star, role :: star < 3 && 1 <= role <= 3 && IsSpoke(r, star, role, slope)
  }

  /** The edge of an arm pairs with exactly the rows that equal it in length and angles. */
  lemma SpokePairs(s: CompRow, f: CompRow, star: nat, role: nat, slope: Slope)
    requires star < 3 && 1 <= role <= 3 && IsSpoke(s, star, role, slope) && InWeb(f, slope) && SlopeOk(slope)
    ensures Pairs(s, f) <==> SameEdge(f, s)
  {
    ArmLengths();
    if f.dist == 0 {
      ArmsOutOfReach(role, 0);
    } else {
      var star', role' :| star' < 3 && 1 <= role' <= 3 && IsSpoke(f, star', role', slope);
      ArmsOutOfReach(role, role');
      if star != star' { StarsDisagree(star, star', role, slope); }
      hide OutOfReach, ArmLength, SmallerAngle;
      ReachesItself(s.dist);
    }
  }

  lemma ReachesItself(d: int)
    ensures !OutOfReach(d, d)
  {
    assert 2 * d * (2 * d) >= 0;
  }

  function PairedWith(s: CompRow, fs: seq<CompRow>): (r: seq<ColpRow>)
    ensures |r| == |fs| && forall i :: 0 <= i < |r| ==> r[i] == PairRow(s, fs[i])
  {
    seq(|fs|, i requires 0 <= i < |fs| => PairRow(s, fs[i]))
  }

  /** Where pairing is being equal, the pairs of a row are its ties. */
  lemma {:induction false} PairsAreTies(s: CompRow, gallery: seq<CompRow>, j: nat)
    requires j <= |gallery| && forall x :: j <= x < |gallery| ==> (Pairs(s, gallery[x]) <==> SameEdge(gallery[x], s))
    ensures PairsFrom(s, gallery, j) == PairedWith(s, Ties(gallery[j..], s, ByLength))
    decreases |gallery| - j
  {
    hide Pairs, PairRow, ByLength, Ties;
    if j == |gallery| {
      TiesOfNothing(s, ByLength);
      assert gallery[j..] == [];
    } else {
      var f, rest := gallery[j], gallery[j + 1..];
      PairsAreTies(s, gallery, j + 1);
      assert gallery[j..] == [f] + rest;
      TiesConcat([f], rest, s, ByLength);
      TiesOfOne(f, s);
      SameEdgesTie(f, s);
      assert PairedWith(s, Ties([f], s, ByLength) + Ties(rest, s, ByLength))
        == PairedWith(s, Ties([f], s, ByLength)) + PairedWith(s, Ties(rest, s, ByLength));
    }
  }

  lemma TiesOfOne(f: CompRow, s: CompRow)
    ensures Ties([f], s, ByLength) == if ByLength(f, s) && ByLength(s, f) then [f] else []
  {
    assert [f][..0] == [];
  }

  // --- The ties among all edges ---------------------------------------------------------------

  /** The edges from `k` to the minutiae from `lo` up to `hi`. */
  function EdgeRun(p: Prepared, slope: Slope, k: nat, lo: nat, hi: nat): (r: seq<CompRow>)
    requires Parallel(p) && k < |p.x| && hi <= |p.x|
    ensures |r| == if lo <= hi then hi - lo else 0
    ensures forall x :: 0 <= x < |r| ==> r[x] == EdgeRow(p, k, lo + x, slope)
  {
    if lo <= hi then seq(hi - lo, x requires 0 <= x < hi - lo => EdgeRow(p, k, lo + x, slope)) else []
  }

  ghost predicate TiedEdge(p: Prepared, slope: Slope, k: nat, j: nat, e: CompRow)
    requires Parallel(p) && k < |p.x| && j < |p.x|
  {
    IsEdge(p, k, j) && SameEdge(EdgeRow(p, k, j, slope), e)
  }

  lemma {:induction false} TiesOfEdges(p: Prepared, slope: Slope, k: nat, j: nat, e: CompRow, lo: nat, hi: nat)
    requires Parallel(p) && k < |p.x| && lo <= hi <= |p.x|
    requires forall x :: j <= x < |p.x| ==> (TiedEdge(p, slope, k, x, e) <==> lo <= x < hi)
    ensures Ties(EdgesFrom(p, slope, k, j), e, ByLength) == EdgeRun(p, slope, k, if j > lo then j else lo, hi)
    decreases |p.x| - j
  {
    hide EdgeRow, IsEdge, ByLength, Ties;
    if j >= |p.x| {
      TiesOfNothing(e, ByLength);
    } else {
      TiesOfEdges(p, slope, k, j + 1, e, lo, hi);
      var r, rest := EdgeRow(p, k, j, slope), EdgesFrom(p, slope, k, j + 1);
      var here := if IsEdge(p, k, j) then [r] else [];
      TiesConcat(here, rest, e, ByLength);
      TiesOfNothing(e, ByLength);
      TiesOfOne(r, e);
      SameEdgesTie(r, e);
      assert TiedEdge(p, slope, k, j, e) <==> lo <= j < hi;
    }
  }

  lemma {:induction false} TiesOfAllEdges(p: Prepared, slope: Slope, c: nat, k: nat, e: CompRow)
    requires Parallel(p) && c < |p.x|
    requires forall k', x :: 0 <= k' < x < |p.x| && k' != c ==> !TiedEdge(p, slope, k', x, e)
    ensures Ties(AllEdges(p, slope, k), e, ByLength) ==
      if k <= c then Ties(EdgesFrom(p, slope, c, c + 1), e, ByLength) else []
    decreases |p.x| - k
  {
    hide EdgeRow, IsEdge, ByLength, Ties, EdgesFrom, TiedEdge, EdgeRun;
    if k >= |p.x| {
      TiesOfNothing(e, ByLength);
    } else {
      TiesOfAllEdges(p, slope, c, k + 1, e);
      TiesConcat(EdgesFrom(p, slope, k, k + 1), AllEdges(p, slope, k + 1), e, ByLength);
      if k != c {
        TiesOfEdges(p, slope, k, k + 1, e, 0, 0);
        NoEdges(p, slope, k, k + 1);
      }
    }
  }

  lemma NoEdges(p: Prepared, slope: Slope, k: nat, j: nat)
    requires Parallel(p) && k < |p.x|
    ensures EdgeRun(p, slope, k, j, 0) == [] || j == 0
  {
  }

  // --- The ties of one arm in a print's web ---------------------------------------------------

  /** The star's centre is spot `c`, and the arm's spots are those from `lo` up to `hi`. */
  ghost predicate HasArm(spots: seq<Spot>, star: nat, role: nat, c: nat, lo: nat, hi: nat) {
    && c < lo <= hi <= |spots| && spots[c] == Spot(star, 0)
    && (forall i :: 0 <= i < |spots| && spots[i] == Spot(star, 0) ==> i == c)
    && forall i :: 0 <= i < |spots| ==> (spots[i] == Spot(star, role) <==> lo <= i < hi)
  }

  /** Length and angles tell the arm. */
  lemma SpokesAreDistinct(r: CompRow, s: CompRow, a: Spot, star: nat, role: nat, slope: Slope)
    requires SpotOk(a) && a.role != 0 && star < 3 && 1 <= role <= 3 && SlopeOk(slope)
    requires IsSpoke(r, a.star, a.role, slope) && IsSpoke(s, star, role, slope)
    ensures SameEdge(r, s) <==> a == Spot(star, role)
  {
    ArmLengths();
    if a.role == role && a.star != star { StarsDisagree(a.star, star, role, slope); }
    hide ArmLength, SmallerAngle;
  }

  lemma TiedIsArm(p: Prepared, spots: seq<Spot>, slope: Slope, s: CompRow, star: nat, role: nat, c: nat, lo: nat,
          hi: nat, k: nat, j: nat)
    requires Stands(p, spots) && Arranged(spots) && SlopeOk(slope) && HasArm(spots, star, role, c, lo, hi)
    requires star < 3 && 1 <= role <= 3 && IsSpoke(s, star, role, slope) && k < j < |spots|
    ensures Parallel(p) && (TiedEdge(p, slope, k, j, s) <==> k == c && lo <= j < hi)
  {
    hide EdgeRow, Stands, IsSpoke, SameEdge, HasArm, IsEdge, Length;
    ArmIsLong(s, star, role, slope);
    ArmSpots(spots, star, role, c, lo, hi, k, j);
    StandsLong(p, spots);
    assert SpotOk(spots[k]) && SpotOk(spots[j]) && Follows(spots[k], spots[j]);
    EdgesAreLinks(p, spots, k, j);
    var a, b := spots[k], spots[j];
    if Linked(a, b) {
      if a.role == 0 {
        SpokeRow(p, spots, k, j, slope);
        SpokesAreDistinct(EdgeRow(p, k, j, slope), s, b, star, role, slope);
      } else {
        FlatRow(p, spots, k, j, slope);
        FlatIsNoArm(EdgeRow(p, k, j, slope), s);
      }
    }
  }

  lemma ArmSpots(spots: seq<Spot>, star: nat, role: nat, c: nat, lo: nat, hi: nat, k: nat, j: nat)
    requires HasArm(spots, star, role, c, lo, hi) && k < |spots| && j < |spots|
    ensures spots[k] == Spot(star, 0) && spots[j] == Spot(star, role) <==> k == c && lo <= j < hi
  {
  }

  lemma ArmIsLong(s: CompRow, star: nat, role: nat, slope: Slope)
    requires 1 <= role <= 3 && IsSpoke(s, star, role, slope)
    ensures s.dist > 0
  {
    ArmLengths();
  }

  lemma FlatIsNoArm(r: CompRow, s: CompRow)
    requires r.dist == 0 < s.dist
    ensures !SameEdge(r, s)
  {
  }

  lemma WebIsSorted(p: Prepared, spots: seq<Spot>, slope: Slope)
    requires Stands(p, spots) && Arranged(spots)
    ensures Parallel(p) && EdgeTable(p, slope) == Sort(AllEdges(p, slope, 0), ByLength)
  {
    StandsInOrder(p, spots);
    TableIsWeb(p, slope);
    CapIsBelowLimit(p, slope);
  }

  lemma StandsInOrder(p: Prepared, spots: seq<Spot>)
    requires Stands(p, spots) && Arranged(spots)
    ensures Xyt.Valid(p) && InContract(p)
  {
    forall i | 0 <= i < |spots|
      ensures p.x[i] == 400 * spots[i].star + OffX(spots[i].role) && p.y[i] == 200 + OffY(spots[i].role)
      ensures spots[i].star <= 3
    {
      assert SpotOk(spots[i]);
      assert MinutiaAt(spots[i]).x == 400 * spots[i].star + OffX(spots[i].role);
    }
    forall i, j | 0 <= i < j < |p.x| ensures p.x[i] < p.x[j] || (p.x[i] == p.x[j] && p.y[i] <= p.y[j]) {
      assert Follows(spots[i], spots[j]) && SpotOk(spots[i]) && SpotOk(spots[j]);
    }
  }

  /** In a print's web the rows equal to an arm's edge are the edges to that arm's minutiae, in their order. */
  lemma ArmTies(p: Prepared, spots: seq<Spot>, slope: Slope, s: CompRow, star: nat, role: nat, c: nat, lo: nat, hi: nat)
    requires Stands(p, spots) && Arranged(spots) && SlopeOk(slope) && HasArm(spots, star, role, c, lo, hi)
    requires star < 3 && 1 <= role <= 3 && IsSpoke(s, star, role, slope)
    ensures Parallel(p) && Ties(EdgeTable(p, slope), s, ByLength) == EdgeRun(p, slope, c, lo, hi)
  {
    hide EdgeRow, Stands, Arranged, HasArm, IsSpoke, Ties, Sort, AllEdges, EdgesFrom, ByLength, TiedEdge, EdgeTable,
      Preorder;
    ArmFits(spots, star, role, c, lo, hi);
    StandsLong(p, spots);
    WebIsSorted(p, spots, slope);
    ByLengthIsPreorder();
    SortIsStable(AllEdges(p, slope, 0), s, ByLength);
    forall k, j | 0 <= k < j < |p.x| ensures TiedEdge(p, slope, k, j, s) <==> k == c && lo <= j < hi {
      TiedIsArm(p, spots, slope, s, star, role, c, lo, hi, k, j);
    }
    TiesOfAllEdges(p, slope, c, 0, s);
    TiesOfEdges(p, slope, c, c + 1, s, lo, hi);
  }

  lemma ArmFits(spots: seq<Spot>, star: nat, role: nat, c: nat, lo: nat, hi: nat)
    requires HasArm(spots, star, role, c, lo, hi)
    ensures c < lo <= hi <= |spots|
  {
  }

  lemma StandsLong(p: Prepared, spots: seq<Spot>)
    requires Stands(p, spots)
    ensures Parallel(p) && |p.x| == |spots|
  {
  }

  // --- Each edge once -------------------------------------------------------------------------

  /** A print's web lists each of its edges, once, and nothing else. */
  lemma WebListsEdges(p: Prepared, spots: seq<Spot>, slope: Slope)
    requires Stands(p, spots) && Arranged(spots)
    ensures Parallel(p) && Sorted(EdgeTable(p, slope), ByLength)
    ensures forall k, j :: 0 <= k < j < |spots| && Linked(spots[k], spots[j]) ==>
      EdgeRow(p, k, j, slope) in EdgeTable(p, slope)
    ensures forall x :: 0 <= x < |EdgeTable(p, slope)| ==> IsLink(EdgeTable(p, slope)[x], p, spots, slope)
    ensures forall x, y :: 0 <= x < y < |EdgeTable(p, slope)| ==> EdgeTable(p, slope)[x] != EdgeTable(p, slope)[y]
    ensures 2 * |EdgeTable(p, slope)| <= |spots| * |spots|
  {
    hide EdgeRow, Stands, Arranged, EdgeTable, Sort, AllEdges, IsEdge, Climbs, Linked, Sorted;
    StandsLong(p, spots);
    WebIsSorted(p, spots, slope);
    var all, web := AllEdges(p, slope, 0), EdgeTable(p, slope);
    SortElements(all, ByLength);
    TableHoldsEdges(p, slope);
    AllEdgesClimb(p, slope, 0);
    ClimbsLower(all);
    PairsAreFew(p, slope, 0);
    forall k, j | 0 <= k < j < |spots| && Linked(spots[k], spots[j]) ensures EdgeRow(p, k, j, slope) in web {
      EdgesAreLinks(p, spots, k, j);
      EdgeListed(p, slope, 0, k, j);
      assert EdgeRow(p, k, j, slope) in multiset(all);
      assert EdgeRow(p, k, j, slope) in multiset(web);
    }
    forall x | 0 <= x < |web| ensures IsLink(web[x], p, spots, slope) {
      assert FromEdge(web[x], p, slope);
      var k, j :| 0 <= k < j < |p.x| && IsEdge(p, k, j) && web[x] == EdgeRow(p, k, j, slope);
      EdgesAreLinks(p, spots, k, j);
    }
    forall x, y | 0 <= x < y < |web| ensures web[x] != web[y] {
      OnceStaysOnce(all, web, x, y);
    }
  }

  /** The row is that of a link between two spots. */
  ghost predicate IsLink(r: CompRow, p: Prepared, spots: seq<Spot>, slope: Slope)
    requires Parallel(p) && |p.x| == |spots|
  {
    exists k, j :: 0 <= k < j < |spots| && Linked(spots[k], spots[j]) && r == EdgeRow(p, k, j, slope)
  }
}
