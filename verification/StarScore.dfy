/** Stages 1 and 2 on the two prints of stars give the table of stars, and with it the matcher leaves its arrays. */
module StarScore {
  import opened StableSort
  import opened Xyt
  import opened Intra
  import opened Inter
  import opened Paths
  import opened Lookup
  import opened Clusters
  import opened Matcher
  import opened Pipeline
  import opened StarClusters
  import opened StarSearch
  import opened StarPrints

  // --- The two prints -------------------------------------------------------------------------

  /** How many minutiae stand at the ends of each of a star's first two arms. */
  function Width(m: nat, star: nat): (w: nat) {
    if star == 2 then m else 1
  }

  function RoleAt(w: nat, o: nat): (role: nat) {
    if o == 0 then 0 else if o <= w then 1 else if o <= 2 * w then 2 else 3
  }

  function GallerySpot(m: nat, i: nat): (s: Spot) {
    var star := if i < 4 then 0 else if i < 8 then 1 else 2;
    Spot(star, if i >= 4 * star then RoleAt(Width(m, star), i - 4 * star) else 0)
  }

  /** Three stars, the last with `m` minutiae at the end of each of its first two arms. */
  function GallerySpots(m: nat): (spots: seq<Spot>)
    ensures |spots| == 2 * m + 10 && forall i :: 0 <= i < |spots| ==> spots[i] == GallerySpot(m, i)
  {
    seq(2 * m + 10, i requires 0 <= i < 2 * m + 10 => GallerySpot(m, i))
  }

  /** Three plain stars, and a pair far enough apart to be the last and longest edge. */
  function ProbeSpots(): (spots: seq<Spot>)
    ensures |spots| == 14 && (forall i :: 0 <= i < 12 ==> spots[i] == Spot(i / 4, i % 4))
    ensures spots[12] == Spot(3, 0) && spots[13] == Spot(3, 4)
  {
    seq(14, i requires 0 <= i < 14 => if i < 12 then Spot(i / 4, i % 4) else Spot(3, if i == 12 then 0 else 4))
  }

  /** Where an arm begins, behind its centre. */
  function Behind(w: nat, role: nat): (n: nat) {
    if role == 1 then 0 else if role == 2 then w else 2 * w
  }

  function ArmWidth(w: nat, role: nat): (n: nat) {
    if role == 3 then 1 else w
  }

  lemma ProbeInOrder()
    ensures Arranged(ProbeSpots())
  {
    hide ProbeSpots;
  }

  lemma GalleryInOrder(m: nat)
    requires 1 <= m <= 70
    ensures Arranged(GallerySpots(m)) && forall i :: 0 <= i < 2 * m + 10 ==> GallerySpots(m)[i].star < 3
  {
    hide GallerySpots;
  }

  lemma GalleryHasArm(m: nat, star: nat, role: nat)
    requires 1 <= m && star < 3 && 1 <= role <= 3
    ensures var w, c := Width(m, star), 4 * star;
      var lo := c + 1 + Behind(w, role);
      HasArm(GallerySpots(m), star, role, c, lo, lo + ArmWidth(w, role))
  {
    hide GallerySpots;
  }

  // --- What the rows of the webs are ----------------------------------------------------------

  /** The row of the `role`-th arm of a probe star. */
  function ProbeArm(p: Prepared, slope: Slope, star: nat, role: nat): (r: CompRow)
    requires Parallel(p) && |p.x| == 14 && star < 3 && 1 <= role <= 3
  {
    EdgeRow(p, 4 * star, 4 * star + role, slope)
  }

  lemma ProbeLinks(k: nat, j: nat)
    requires k < j < 14 && Linked(ProbeSpots()[k], ProbeSpots()[j])
    ensures (k == 12 && j == 13) || (k < 12 && k % 4 == 0 && k / 4 == j / 4 && j % 4 != 0)
  {
  }

  lemma ProbeArmIsSpoke(p: Prepared, slope: Slope, star: nat, role: nat)
    requires Stands(p, ProbeSpots()) && SlopeOk(slope) && star < 3 && 1 <= role <= 3
    ensures Parallel(p) && |p.x| == 14
    ensures var r := ProbeArm(p, slope, star, role);
      && IsSpoke(r, star, role, slope) && r.k == 4 * star + 1 && r.j == 4 * star + 1 + role
      && r.theta == ArmAngle(role, slope) + if ArmAngle(role, slope) - FoldTheta(Turned(star)) <= 0 then 0 else 400
  {
    hide Stands, EdgeRow, IsSpoke;
    StandsLong(p, ProbeSpots());
    ProbeInOrder();
    var k, j := 4 * star, 4 * star + role;
    assert k < 12 && j < 12 && k / 4 == star && k % 4 == 0 && j / 4 == star && j % 4 == role;
    assert ProbeSpots()[k] == Spot(star, 0) && ProbeSpots()[j] == Spot(star, role);
    SpokeRow(p, ProbeSpots(), k, j, slope);
  }

  /** Every row of the gallery's web is an arm's, or of length zero. */
  lemma GalleryRows(g: Prepared, m: nat, slope: Slope, x: nat)
    requires Stands(g, GallerySpots(m)) && 1 <= m <= 70 && SlopeOk(slope)
    ensures Parallel(g) && (x < |EdgeTable(g, slope)| ==> InWeb(EdgeTable(g, slope)[x], slope))
  {
    hide Stands, EdgeRow, IsSpoke, EdgeTable, GallerySpots, Arranged;
    var spots := GallerySpots(m);
    StandsLong(g, spots);
    GalleryInOrder(m);
    WebListsEdges(g, spots, slope);
    if x < |EdgeTable(g, slope)| {
      assert IsLink(EdgeTable(g, slope)[x], g, spots, slope);
      var k, j :| 0 <= k < j < |spots| && Linked(spots[k], spots[j])
        && EdgeTable(g, slope)[x] == EdgeRow(g, k, j, slope);
      LinkInWeb(g, spots, slope, k, j);
    }
  }

  lemma LinkInWeb(g: Prepared, spots: seq<Spot>, slope: Slope, k: nat, j: nat)
    requires Stands(g, spots) && Arranged(spots) && SlopeOk(slope) && k < j < |spots| && Linked(spots[k], spots[j])
    requires spots[k].star < 3
    ensures Parallel(g) && |g.x| == |spots| && InWeb(EdgeRow(g, k, j, slope), slope)
  {
    hide Stands, EdgeRow, IsSpoke;
    StandsLong(g, spots);
    if spots[k].role == 0 {
      SpokeRow(g, spots, k, j, slope);
      assert Follows(spots[k], spots[j]) && SpotOk(spots[j]);
    } else {
      FlatRow(g, spots, k, j, slope);
    }
  }

  // --- The pairs of one arm -------------------------------------------------------------------

  /** The rows of the star table that one arm contributes. */
  function Block(m: nat, star: nat, role: nat): (r: seq<ColpRow>)
    requires star < 3 && 1 <= role <= 3
    ensures |r| == ArmWidth(Width(m, star), role)
    ensures forall x :: 0 <= x < |r| ==> r[x] == StarRow(4 * star + 1, Width(m, star), Behind(Width(m, star), role) + x)
  {
    var lo := 3 * star + Behind(Width(m, star), role);
    StarRows(m)[lo..lo + ArmWidth(Width(m, star), role)]
  }

  /** Two rows of the same arm pair without a turn. */
  lemma ArmsPairStraight(s: CompRow, f: CompRow)
    requires s.theta == f.theta
    ensures PairRow(s, f) == ColpRow(0, s.k, s.j, f.k, f.j)
  {
  }

  lemma ArmRowPairs(p: Prepared, g: Prepared, m: nat, slope: Slope, star: nat, role: nat)
    requires Stands(p, ProbeSpots()) && Stands(g, GallerySpots(m)) && 1 <= m <= 70 && SlopeOk(slope)
    requires star < 3 && 1 <= role <= 3
    ensures Parallel(p) && |p.x| == 14 && Parallel(g)
    ensures PairsFrom(ProbeArm(p, slope, star, role), EdgeTable(g, slope), 0) == Block(m, star, role)
  {
    hide Stands, EdgeTable, IsSpoke, ProbeArm, GallerySpots, ProbeSpots, EdgeRow, Pairs, SameEdge, PairRow, Block,
      HasArm, Arranged, PairsFrom, Ties, InWeb;
    ProbeArmIsSpoke(p, slope, star, role);
    StandsLong(g, GallerySpots(m));
    GalleryInOrder(m);
    GalleryHasArm(m, star, role);
    var s, web := ProbeArm(p, slope, star, role), EdgeTable(g, slope);
    forall x | 0 <= x < |web| ensures Pairs(s, web[x]) <==> SameEdge(web[x], s) {
      GalleryRows(g, m, slope, x);
      SpokePairs(s, web[x], star, role, slope);
    }
    PairsAreTies(s, web, 0);
    assert web[0..] == web;
    var w, c := Width(m, star), 4 * star;
    var lo := c + 1 + Behind(w, role);
    var hi := lo + ArmWidth(w, role);
    ArmTies(g, GallerySpots(m), slope, s, star, role, c, lo, hi);
    ArmFits(GallerySpots(m), star, role, c, lo, hi);
    var fs := EdgeRun(g, slope, c, lo, hi);
    forall x | 0 <= x < hi - lo ensures PairRow(s, fs[x]) == Block(m, star, role)[x] {
      ArmPairIs(p, g, m, slope, star, role, x);
    }
  }

  lemma ArmPairIs(p: Prepared, g: Prepared, m: nat, slope: Slope, star: nat, role: nat, x: nat)
    requires Stands(p, ProbeSpots()) && Stands(g, GallerySpots(m)) && 1 <= m <= 70 && SlopeOk(slope)
    requires star < 3 && 1 <= role <= 3 && x < ArmWidth(Width(m, star), role)
    ensures Parallel(p) && |p.x| == 14 && Parallel(g)
    ensures var j := 4 * star + 1 + Behind(Width(m, star), role) + x;
      && j < |g.x|
      && PairRow(ProbeArm(p, slope, star, role), EdgeRow(g, 4 * star, j, slope)) == Block(m, star, role)[x]
  {
    hide Stands, IsSpoke, ProbeArm, GallerySpots, ProbeSpots, EdgeRow, PairRow, Block, Arranged;
    ProbeArmIsSpoke(p, slope, star, role);
    StandsLong(g, GallerySpots(m));
    GalleryInOrder(m);
    GalleryHasArm(m, star, role);
    var c, j := 4 * star, 4 * star + 1 + Behind(Width(m, star), role) + x;
    var spots := GallerySpots(m);
    assert spots[c] == Spot(star, 0) && spots[j] == Spot(star, role);
    SpokeRow(g, spots, c, j, slope);
    ArmsPairStraight(ProbeArm(p, slope, star, role), EdgeRow(g, c, j, slope));
  }

  // --- The table ------------------------------------------------------------------------------

  /** Whether `e` has the place of the rows that an arm contributes. */
  predicate PlaceOf(e: ColpRow, star: nat, role: nat) {
    e.pk == 4 * star + 1 && e.ga == 4 * star + 1 && e.pj == 4 * star + 1 + role
  }

  lemma SamePlaceTies(a: ColpRow, b: ColpRow)
    ensures ByPlace(a, b) && ByPlace(b, a) <==> a.pk == b.pk && a.ga == b.ga && a.pj == b.pj
  {
  }

  lemma BlockPlace(m: nat, star: nat, role: nat, x: nat)
    requires star < 3 && 1 <= role <= 3 && x < |Block(m, star, role)|
    ensures PlaceOf(Block(m, star, role)[x], star, role)
  {
    hide Block;
  }

  /** All rows of a block tie with `e`, or none. */
  lemma BlockTies(m: nat, star: nat, role: nat, e: ColpRow)
    requires star < 3 && 1 <= role <= 3
    ensures Ties(Block(m, star, role), e, ByPlace) == if PlaceOf(e, star, role) then Block(m, star, role) else []
  {
    hide Block, Ties, ByPlace;
    var b := Block(m, star, role);
    forall x | 0 <= x < |b| ensures ByPlace(b[x], e) && ByPlace(e, b[x]) <==> PlaceOf(e, star, role) {
      BlockPlace(m, star, role, x);
      SamePlaceTies(b[x], e);
    }
    if PlaceOf(e, star, role) {
      TiesAreSlice(b, e, ByPlace, 0, |b|);
      assert b[0..|b|] == b;
    } else {
      TiesAreSlice(b, e, ByPlace, 0, 0);
    }
  }

  /** The place of a row of the star table. */
  lemma RowPlace(m: nat, x: nat, star: nat, role: nat)
    requires m >= 1 && x < 2 * m + 7 && star < 3 && 1 <= role <= 3
    ensures var lo := 3 * star + Behind(Width(m, star), role);
      PlaceOf(StarRows(m)[x], star, role) <==> lo <= x < lo + ArmWidth(Width(m, star), role)
  {
    hide StarRows;
  }

  lemma RowHasPlace(m: nat, x: nat) returns (star: nat, role: nat)
    requires m >= 1 && x < 2 * m + 7
    ensures star < 3 && 1 <= role <= 3 && PlaceOf(StarRows(m)[x], star, role)
  {
    hide StarRows;
    star := if x < 3 then 0 else if x < 6 then 1 else 2;
    role := StarRows(m)[x].pj - StarRows(m)[x].pk;
  }

  /** The ties of the star table: the block of the arm that has the place, if one has. */
  lemma TableTies(m: nat, star: nat, role: nat, e: ColpRow)
    requires m >= 1 && star < 3 && 1 <= role <= 3 && PlaceOf(e, star, role)
    ensures Ties(StarRows(m), e, ByPlace) == Block(m, star, role)
  {
    hide StarRows, Ties, ByPlace, PlaceOf;
    var lo := 3 * star + Behind(Width(m, star), role);
    var hi := lo + ArmWidth(Width(m, star), role);
    forall x | 0 <= x < 2 * m + 7
      ensures ByPlace(StarRows(m)[x], e) && ByPlace(e, StarRows(m)[x]) <==> lo <= x < hi
    {
      SamePlaceTies(StarRows(m)[x], e);
      RowPlace(m, x, star, role);
      SamePlace(StarRows(m)[x], e, star, role);
    }
    TiesAreSlice(StarRows(m), e, ByPlace, lo, hi);
  }

  lemma SamePlace(a: ColpRow, e: ColpRow, star: nat, role: nat)
    requires PlaceOf(e, star, role)
    ensures PlaceOf(a, star, role) <==> a.pk == e.pk && a.ga == e.ga && a.pj == e.pj
  {
  }

  lemma NoTableTies(m: nat, e: ColpRow)
    requires m >= 1 && forall star: nat, role: nat :: star < 3 && 1 <= role <= 3 ==> !PlaceOf(e, star, role)
    ensures Ties(StarRows(m), e, ByPlace) == []
  {
    hide StarRows, Ties, ByPlace;
    forall x | 0 <= x < 2 * m + 7 ensures !(ByPlace(StarRows(m)[x], e) && ByPlace(e, StarRows(m)[x])) {
      var star, role := RowHasPlace(m, x);
      SamePlaceTies(StarRows(m)[x], e);
      SamePlace(e, StarRows(m)[x], star, role);
    }
    TiesAreSlice(StarRows(m), e, ByPlace, 0, 0);
  }

  // --- All pairs ------------------------------------------------------------------------------

  /** Only probe row `i` has pairs that tie with `e`. */
  lemma {:induction false} PairsTieAt(probe: seq<CompRow>, gallery: seq<CompRow>, e: ColpRow, i: int, k: nat)
    requires forall x :: k <= x && x + 1 < |probe| && x != i ==> Ties(PairsFrom(probe[x], gallery, 0), e, ByPlace) == []
    ensures Ties(AllPairs(probe, gallery, k), e, ByPlace) ==
      if k <= i && i + 1 < |probe| then Ties(PairsFrom(probe[i], gallery, 0), e, ByPlace) else []
    decreases |probe| - k
  {
    hide Ties, PairsFrom, ByPlace;
    if k + 1 >= |probe| {
      TiesOfNothing(e, ByPlace);
    } else {
      PairsTieAt(probe, gallery, e, i, k + 1);
      TiesConcat(PairsFrom(probe[k], gallery, 0), AllPairs(probe, gallery, k + 1), e, ByPlace);
    }
  }

  lemma {:induction false} FewPairs(probe: seq<CompRow>, gallery: seq<CompRow>, n: nat, k: nat)
    requires forall x :: k <= x && x + 1 < |probe| ==> |PairsFrom(probe[x], gallery, 0)| <= n
    ensures |AllPairs(probe, gallery, k)| <= if k < |probe| then n * (|probe| - k) else 0
    decreases |probe| - k
  {
    hide PairsFrom;
    if k + 1 < |probe| {
      FewPairs(probe, gallery, n, k + 1);
      assert n * (|probe| - k) == n * (|probe| - k - 1) + n;
    } else if k < |probe| {
      assert n * (|probe| - k) >= 0;
    }
  }

  // --- The probe's web ------------------------------------------------------------------------

  /** The lone edge, longer than any arm. */
  lemma LoneEdge(p: Prepared, slope: Slope)
    requires Stands(p, ProbeSpots()) && SlopeOk(slope)
    ensures Parallel(p) && |p.x| == 14 && EdgeRow(p, 12, 13, slope).dist == 15625
  {
    hide Stands, EdgeRow;
    StandsLong(p, ProbeSpots());
    ProbeInOrder();
    ArmLengths();
    assert ProbeSpots()[12] == Spot(3, 0) && ProbeSpots()[13] == Spot(3, 4);
    SpokeRow(p, ProbeSpots(), 12, 13, slope);
  }

  /** A row of the probe's web is an arm's or the lone edge. */
  lemma ProbeRow(p: Prepared, slope: Slope, r: CompRow) returns (star: nat, role: nat)
    requires Stands(p, ProbeSpots()) && Parallel(p) && |p.x| == 14 && IsLink(r, p, ProbeSpots(), slope)
    ensures r == EdgeRow(p, 12, 13, slope) || (star < 3 && 1 <= role <= 3 && r == ProbeArm(p, slope, star, role))
  {
    hide Stands, EdgeRow, ProbeSpots, Linked;
    var k, j :| 0 <= k < j < 14 && Linked(ProbeSpots()[k], ProbeSpots()[j]) && r == EdgeRow(p, k, j, slope);
    ProbeLinks(k, j);
    star, role := k / 4, j % 4;
    if k < 12 {
      assert k == 4 * star && j == 4 * (j / 4) + role;
    }
  }

  /** The row is that of a probe arm. */
  ghost predicate IsArm(r: CompRow, p: Prepared, slope: Slope)
    requires Parallel(p) && |p.x| == 14
  {
    exists star: nat, role: nat :: star < 3 && 1 <= role <= 3 && r == ProbeArm(p, slope, star, role)
  }

  /** The arm's row is in the web, and not its last. */
  ghost predicate ListsArm(web: seq<CompRow>, p: Prepared, slope: Slope, star: nat, role: nat)
    requires Parallel(p) && |p.x| == 14 && star < 3 && 1 <= role <= 3
  {
    exists x :: 0 <= x < |web| - 1 && web[x] == ProbeArm(p, slope, star, role)
  }

  /** The probe's web, all but its last row, lists the nine arms, each once. */
  lemma ProbeWeb(p: Prepared, slope: Slope)
    requires Stands(p, ProbeSpots()) && SlopeOk(slope)
    ensures Parallel(p) && |p.x| == 14 && |EdgeTable(p, slope)| <= 98
    ensures var web := EdgeTable(p, slope);
      && (forall x :: 0 <= x < |web| - 1 ==> IsArm(web[x], p, slope))
      && (forall star: nat, role: nat :: star < 3 && 1 <= role <= 3 ==> ListsArm(web, p, slope, star, role))
      && forall x, y :: 0 <= x < y < |web| ==> web[x] != web[y]
  {
    hide Stands, EdgeRow, EdgeTable, ProbeArm, ProbeSpots, Linked, IsLink, Sorted;
    StandsLong(p, ProbeSpots());
    ProbeInOrder();
    LoneEdge(p, slope);
    WebListsEdges(p, ProbeSpots(), slope);
    var web := EdgeTable(p, slope);
    assert |ProbeSpots()| * |ProbeSpots()| == 196;
    LoneIsLast(p, slope);
    forall x | 0 <= x < |web| - 1 ensures IsArm(web[x], p, slope) {
      var star, role := ProbeRow(p, slope, web[x]);
      assert web[x] != web[|web| - 1];
    }
    forall star: nat, role: nat | star < 3 && 1 <= role <= 3 ensures ListsArm(web, p, slope, star, role) {
      ArmIsListed(p, slope, star, role);
      var x :| 0 <= x < |web| && web[x] == ProbeArm(p, slope, star, role);
      ArmIsNotLone(p, slope, star, role);
    }
  }

  lemma ArmIsNotLone(p: Prepared, slope: Slope, star: nat, role: nat)
    requires Stands(p, ProbeSpots()) && SlopeOk(slope) && star < 3 && 1 <= role <= 3
    ensures Parallel(p) && |p.x| == 14 && ProbeArm(p, slope, star, role).dist < EdgeRow(p, 12, 13, slope).dist
  {
    hide Stands, EdgeRow, ProbeArm;
    LoneEdge(p, slope);
    ProbeArmIsSpoke(p, slope, star, role);
    ArmLengths();
  }

  lemma ArmIsListed(p: Prepared, slope: Slope, star: nat, role: nat)
    requires Stands(p, ProbeSpots()) && star < 3 && 1 <= role <= 3
    ensures Parallel(p) && |p.x| == 14 && ProbeArm(p, slope, star, role) in EdgeTable(p, slope)
  {
    hide Stands, EdgeRow, EdgeTable, IsLink, Sorted;
    StandsLong(p, ProbeSpots());
    ProbeInOrder();
    WebListsEdges(p, ProbeSpots(), slope);
    var k, j := 4 * star, 4 * star + role;
    assert k < 12 && j < 12 && k / 4 == star && k % 4 == 0 && j / 4 == star && j % 4 == role;
    assert ProbeSpots()[k] == Spot(star, 0) && ProbeSpots()[j] == Spot(star, role);
    assert Linked(ProbeSpots()[k], ProbeSpots()[j]);
  }

  lemma LoneIsLast(p: Prepared, slope: Slope)
    requires Stands(p, ProbeSpots()) && SlopeOk(slope)
    ensures Parallel(p) && |p.x| == 14
    ensures var web := EdgeTable(p, slope); web != [] && web[|web| - 1] == EdgeRow(p, 12, 13, slope)
  {
    hide Stands, EdgeRow, EdgeTable, ProbeArm, IsLink;
    StandsLong(p, ProbeSpots());
    ProbeInOrder();
    LoneEdge(p, slope);
    WebListsEdges(p, ProbeSpots(), slope);
    var web, lone := EdgeTable(p, slope), EdgeRow(p, 12, 13, slope);
    assert Linked(ProbeSpots()[12], ProbeSpots()[13]);
    assert lone in web;
    var y :| 0 <= y < |web| && web[y] == lone;
    var last := web[|web| - 1];
    var star, role := ProbeRow(p, slope, last);
    assert y < |web| - 1 ==> ByLength(web[y], last);
    if last != lone { ArmIsNotLone(p, slope, star, role); }
  }

  // --- Both stages ----------------------------------------------------------------------------

  lemma OnePlaceOnly(e: ColpRow, star: nat, role: nat, star': nat, role': nat)
    requires PlaceOf(e, star, role) && PlaceOf(e, star', role')
    ensures star == star' && role == role'
  {
  }

  /** The pairs of a probe row other than the last that tie with `e`: the block of its arm, or nothing. */
  lemma RowTies(p: Prepared, g: Prepared, m: nat, slope: Slope, x: nat, e: ColpRow) returns (star: nat, role: nat)
    requires Stands(p, ProbeSpots()) && Stands(g, GallerySpots(m)) && 1 <= m <= 70 && SlopeOk(slope)
    requires Parallel(p) && |p.x| == 14 && Parallel(g) && x < |EdgeTable(p, slope)| - 1
    ensures star < 3 && 1 <= role <= 3 && EdgeTable(p, slope)[x] == ProbeArm(p, slope, star, role)
    ensures var pairs := PairsFrom(EdgeTable(p, slope)[x], EdgeTable(g, slope), 0);
      && |pairs| <= m && Ties(pairs, e, ByPlace) == if PlaceOf(e, star, role) then Block(m, star, role) else []
  {
    hide Stands, EdgeTable, ProbeArm, GallerySpots, ProbeSpots, PairsFrom, Ties, ByPlace, Block, PlaceOf, ListsArm;
    ProbeWeb(p, slope);
    assert IsArm(EdgeTable(p, slope)[x], p, slope);
    star, role :| star < 3 && 1 <= role <= 3 && EdgeTable(p, slope)[x] == ProbeArm(p, slope, star, role);
    ArmRowPairs(p, g, m, slope, star, role);
    BlockTies(m, star, role, e);
  }

  lemma PairsTieAlike(p: Prepared, g: Prepared, m: nat, slope: Slope, e: ColpRow)
    requires Stands(p, ProbeSpots()) && Stands(g, GallerySpots(m)) && 1 <= m <= 70 && SlopeOk(slope)
    ensures Parallel(p) && Parallel(g)
    ensures Ties(StarRows(m), e, ByPlace) == Ties(AllPairs(EdgeTable(p, slope), EdgeTable(g, slope), 0), e, ByPlace)
  {
    hide Stands, EdgeTable, ProbeArm, GallerySpots, ProbeSpots, PairsFrom, AllPairs, Ties, ByPlace, Block, PlaceOf,
      IsArm, StarRows;
    StandsLong(p, ProbeSpots());
    StandsLong(g, GallerySpots(m));
    ProbeWeb(p, slope);
    var web, other := EdgeTable(p, slope), EdgeTable(g, slope);
    if star: nat, role: nat :| star < 3 && 1 <= role <= 3 && PlaceOf(e, star, role) {
      assert ListsArm(web, p, slope, star, role);
      var i :| 0 <= i < |web| - 1 && web[i] == ProbeArm(p, slope, star, role);
      forall x | 0 <= x && x + 1 < |web| && x != i ensures Ties(PairsFrom(web[x], other, 0), e, ByPlace) == [] {
        var star', role' := RowTies(p, g, m, slope, x, e);
        assert web[x] != web[i];
        if PlaceOf(e, star', role') { OnePlaceOnly(e, star, role, star', role'); }
      }
      PairsTieAt(web, other, e, i, 0);
      ArmRowPairs(p, g, m, slope, star, role);
      BlockTies(m, star, role, e);
      TableTies(m, star, role, e);
    } else {
      forall x | 0 <= x && x + 1 < |web| ensures Ties(PairsFrom(web[x], other, 0), e, ByPlace) == [] {
        var star', role' := RowTies(p, g, m, slope, x, e);
      }
      PairsTieAt(web, other, e, -1, 0);
      NoTableTies(m, e);
    }
  }

  /** No row is pruned from a print of at most 31 minutiae. */
  lemma NothingPruned(p: Prepared, spots: seq<Spot>, slope: Slope)
    requires Stands(p, spots) && Arranged(spots) && |spots| <= 31
    ensures Parallel(p) && PrunedTable(p, slope) == EdgeTable(p, slope)
  {
    hide Stands, Arranged, EdgeTable, IsLink, Sorted, Linked, EdgeRow, CountShort;
    StandsLong(p, spots);
    WebListsEdges(p, spots, slope);
    SquareAtMost(|spots|, 31);
    var web := EdgeTable(p, slope);
    assert web[..|web|] == web;
  }

  /** Stages 1 and 2 make the table of stars of the two prints. */
  lemma StarsGiveTable(p: Prepared, g: Prepared, m: nat, slope: Slope)
    requires Stands(p, ProbeSpots()) && Stands(g, GallerySpots(m)) && 1 <= m <= 10 && SlopeOk(slope)
    ensures Parallel(p) && Parallel(g)
    ensures PairTable(PrunedTable(p, slope), PrunedTable(g, slope)) == StarRows(m)
  {
    hide Stands, EdgeTable, ProbeArm, GallerySpots, ProbeSpots, PairsFrom, AllPairs, Ties, Block, PlaceOf, IsArm,
      StarRows, PrunedTable, Sort, Arranged, Preorder, ListsArm;
    ProbeInOrder();
    GalleryInOrder(m);
    StandsLong(p, ProbeSpots());
    NothingPruned(p, ProbeSpots(), slope);
    NothingPruned(g, GallerySpots(m), slope);
    ProbeWeb(p, slope);
    var web, other := EdgeTable(p, slope), EdgeTable(g, slope);
    forall x | 0 <= x && x + 1 < |web| ensures |PairsFrom(web[x], other, 0)| <= 10 {
      var star, role := RowTies(p, g, m, slope, x, ColpRow(0, 0, 0, 0, 0));
    }
    FewPairs(web, other, 10, 0);
    ByPlaceIsPreorder();
    StarRowsAscend(m);
    forall e ensures Ties(StarRows(m), e, ByPlace) == Ties(AllPairs(web, other, 0), e, ByPlace) {
      PairsTieAlike(p, g, m, slope, e);
    }
    StableSortIsUnique(AllPairs(web, other, 0), StarRows(m), ByPlace);
  }

  lemma StarRowsAscend(m: nat)
    ensures Sorted(StarRows(m), ByPlace)
  {
    hide StarRows;
  }

  // --- The score ------------------------------------------------------------------------------

  function ProbeStars(): (ms: seq<Minutia>) {
    Minutiae(ProbeSpots())
  }

  function GalleryStars(m: nat): (ms: seq<Minutia>) {
    Minutiae(GallerySpots(m))
  }

  /** Minutiae as a caller is asked to give them: no coordinate negative, angles from 0 to 359 degrees. */
  ghost predicate CanonicalList(ms: seq<Minutia>) {
    forall i :: 0 <= i < |ms| ==> 0 <= ms[i].x && 0 <= ms[i].y && 0 <= ms[i].theta <= 359
  }

  lemma SpotsAreCanonical(spots: seq<Spot>)
    ensures CanonicalList(Minutiae(spots))
  {
  }

  lemma StandsAt(p: Prepared, spots: seq<Spot>, i: nat)
    requires Stands(p, spots) && i < |spots|
    ensures Parallel(p) && |p.x| == |spots| && p.x[i] == MinutiaAt(spots[i]).x && p.y[i] == MinutiaAt(spots[i]).y
  {
  }

  lemma RowStartsAtCentre(m: nat, x: nat) returns (star: nat)
    requires x < 2 * m + 7
    ensures star < 3 && StarRows(m)[x].pk == StarRows(m)[x].ga == 4 * star + 1
  {
    hide StarRows;
    star := if x < 3 then 0 else if x < 6 then 1 else 2;
  }

  lemma CentreSpots(m: nat, star: nat)
    requires star < 3
    ensures ProbeSpots()[4 * star] == GallerySpots(m)[4 * star] == Spot(star, 0)
  {
    hide ProbeSpots, GallerySpots;
    assert star == 0 || star == 1 || star == 2;
  }

  /** The row starts at a centre, in the same place on both prints. */
  lemma CentreAligns(p: Prepared, g: Prepared, m: nat, x: nat)
    requires Stands(p, ProbeSpots()) && Stands(g, GallerySpots(m)) && 2 <= m && x < 2 * m + 7
    ensures Parallel(p) && Parallel(g)
    ensures var r := StarRows(m)[x];
      && 1 <= r.pk <= |p.x| && 1 <= r.ga <= |g.x| && p.x[r.pk - 1] == g.x[r.ga - 1] && p.y[r.pk - 1] == g.y[r.ga - 1]
  {
    hide Stands, StarRows, GallerySpots, ProbeSpots, MinutiaAt;
    var star := RowStartsAtCentre(m, x);
    CentreSpots(m, star);
    StandsAt(p, ProbeSpots(), 4 * star);
    StandsAt(g, GallerySpots(m), 4 * star);
  }

  lemma CentresAlign(p: Prepared, g: Prepared, m: nat, angle: (int, int) -> int)
    requires Stands(p, ProbeSpots()) && Stands(g, GallerySpots(m)) && 2 <= m
    ensures var t, pr := Table(StarRows(m), 2 * m + 10), Prints(p, g, angle); PrintsFit(t, pr) && Aligned(t, pr)
  {
    hide Stands, StarRows, GallerySpots, ProbeSpots;
    StandsLong(p, ProbeSpots());
    StandsLong(g, GallerySpots(m));
    forall x | 0 <= x < 2 * m + 7
      ensures var r := StarRows(m)[x];
        && 1 <= r.pk <= |p.x| && 1 <= r.ga <= |g.x| && p.x[r.pk - 1] == g.x[r.ga - 1] && p.y[r.pk - 1] == g.y[r.ga - 1]
    {
      CentreAligns(p, g, m, x);
    }
  }

  /**
   * Minutiae that take the matcher out of its work arrays, whatever the angles of edges and vectors are: with
   * five alternatives 14 against 20 of them, arrays of 22 entries, and a chain of 26 clusters to copy into one.
   */
  lemma StarsLeaveArrays(m: nat, slope: Slope, angle: (int, int) -> int)
    requires 5 <= m <= 10 && SlopeOk(slope)
    ensures CanonicalList(ProbeStars()) && |ProbeStars()| == 14
    ensures CanonicalList(GalleryStars(m)) && |GalleryStars(m)| == 2 * m + 10
    ensures Scores(Prep(ProbeStars()), Prep(GalleryStars(m)), slope, angle, OutOfRange)
  {
    hide Stands, EdgeTable, GallerySpots, ProbeSpots, StarRows, PrunedTable, Arranged, PairTable, Answers, SearchOf,
      Minutiae, Rows, TableOk, Ordered, PrintsFit, Aligned, CanonicalList;
    SpotsAreCanonical(ProbeSpots());
    SpotsAreCanonical(GallerySpots(m));
    ProbeInOrder();
    GalleryInOrder(m);
    PreparedStands(ProbeSpots());
    PreparedStands(GallerySpots(m));
    var p, g := Prep(ProbeStars()), Prep(GalleryStars(m));
    StandsLong(p, ProbeSpots());
    StandsLong(g, GallerySpots(m));
    StarsGiveTable(p, g, m, slope);
    PairsFitStage3(p, g, slope, angle);
    CentresAlign(p, g, m, angle);
    StarTableLeavesArrays(m, PairsOf(p, g, slope), Prints(p, g, angle));
  }
}
