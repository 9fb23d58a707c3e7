/**
 * What a match score says: the largest number of edge pairs in clusters that agree with one another, where each
 * cluster is a one-to-one pairing of far ends under rotations close together, and agreement is that of `Gates`.
 */
module Meaning {
  import opened Consts
  import opened Seqs
  import opened Paths
  import opened PathFacts
  import opened Rotation
  import opened Mean
  import opened Xyt
  import opened Intra
  import opened Inter
  import opened Lookup
  import opened Clusters
  import opened ScoreFacts
  import opened Gates
  import opened Seeds
  import opened Formed
  import opened Matcher
  import opened Pipeline

  // --- What a cluster describes ---------------------------------------------------------------

  /** The sum of one coordinate over the near ends of the edges, in the probe or in the gallery. */
  ghost function NearSum(edges: seq<int>, rows: seq<ColpRow>, col: seq<int>, ofProbe: bool): (r: int) {
    if edges == [] then 0 else
    var e := edges[|edges| - 1];
    var end := if !(1 <= e <= |rows|) then 0 else if ofProbe then rows[e - 1].pk else rows[e - 1].ga;
    NearSum(edges[..|edges| - 1], rows, col, ofProbe) + if 1 <= end <= |col| then col[end - 1] else 0
  }

  /** `m` is `sum / n` without its fraction. */
  predicate IsMeanOf(m: int, sum: int, n: int) {
    if sum >= 0 then n * m <= sum < n * m + n else n * m - n < sum <= n * m
  }

  /** The centroid is the mean of the near ends, when their sum fits 32 bits. */
  ghost predicate Centred(m: int, edges: seq<int>, rows: seq<ColpRow>, col: seq<int>, ofProbe: bool) {
    var sum := NearSum(edges, rows, col, ofProbe);
    -0x8000_0000 <= sum < 0x8000_0000 ==> IsMeanOf(m, sum, |edges|)
  }

  /** `ends` lists exactly the endpoints of the edges in one print, each once. */
  ghost predicate ListsEnds(ends: seq<int>, edges: seq<int>, rows: seq<ColpRow>, ofProbe: bool)
    requires AllWithin(edges, 1, |rows|)
  {
    && Ascending(ends)
    && forall e :: e in ends <==> exists i :: 0 <= i < |edges| && EndsIn(rows[edges[i] - 1], ofProbe, e)
  }

  predicate EndsIn(r: ColpRow, ofProbe: bool, e: int) {
    if ofProbe then e == r.pk || e == r.pj else e == r.ga || e == r.gb
  }

  ghost predicate OneToOne(edges: seq<int>, rows: seq<ColpRow>)
    requires AllWithin(edges, 1, |rows|)
  {
    forall i, j :: 0 <= i < |edges| && 0 <= j < |edges| ==>
      (rows[edges[i] - 1].pj == rows[edges[j] - 1].pj <==> rows[edges[i] - 1].gb == rows[edges[j] - 1].gb)
  }

  ghost predicate RotationsNear(c: Cluster, rows: seq<ColpRow>)
    requires AllWithin(c.edges, 1, |rows|)
  {
    && -180 < c.avg.rot <= 180
    && forall i :: 0 <= i < |c.edges| ==> CircularDistance(rows[c.edges[i] - 1].rot, c.avg.rot) <= 22
  }

  /**
   * A cluster is three or more distinct rows of the table whose far ends are paired one-to-one, under rotations
   * within 22 degrees of its own; with its centroids and its lists of endpoints.
   */
  ghost predicate IsPlacement(c: Cluster, t: Table, pr: Prints) {
    && 3 <= |c.edges| && Distinct(c.edges) && AllWithin(c.edges, 1, |t.rows|)
    && OneToOne(c.edges, t.rows) && RotationsNear(c, t.rows)
    && Centred(c.avg.px, c.edges, t.rows, pr.probe.x, true) && Centred(c.avg.py, c.edges, t.rows, pr.probe.y, true)
    && Centred(c.avg.gx, c.edges, t.rows, pr.gallery.x, false)
    && Centred(c.avg.gy, c.edges, t.rows, pr.gallery.y, false)
    && ListsEnds(c.probeEnds, c.edges, t.rows, true) && ListsEnds(c.galleryEnds, c.edges, t.rows, false)
  }

  lemma {:induction false} SumIsNearSum(edges: seq<int>, rows: seq<ColpRow>, col: seq<int>, ofProbe: bool)
    requires AllWithin(edges, 1, |rows|) && AllWithin(Along(edges, rows, if ofProbe then Pk else Ga), 1, |col|)
    ensures WrapSum(Coordinates(col, Along(edges, rows, if ofProbe then Pk else Ga)))
      == Wrap32(NearSum(edges, rows, col, ofProbe))
  {
    hide Wrap32, WrapSum, Coordinates, Along;
    var field := if ofProbe then Pk else Ga;
    var ids := Along(edges, rows, field);
    if edges != [] {
      var m := |edges| - 1;
      AlongShorter(edges, rows, field);
      var before, end := Along(edges[..m], rows, field), field(rows[edges[m] - 1]);
      SumIsNearSum(edges[..m], rows, col, ofProbe);
      CoordinateSumSnoc(col, before, end);
      WrapAdds(NearSum(edges[..m], rows, col, ofProbe), col[end - 1]);
    } else {
      NoCoordinates(col, ids);
    }
  }

  lemma AlongShorter(edges: seq<int>, rows: seq<ColpRow>, field: ColpRow -> int)
    requires AllWithin(edges, 1, |rows|) && edges != []
    ensures var m := |edges| - 1;
      && AllWithin(edges[..m], 1, |rows|)
      && Along(edges, rows, field) == Along(edges[..m], rows, field) + [field(rows[edges[m] - 1])]
  {
  }

  lemma NoCoordinates(col: seq<int>, ids: seq<int>)
    requires ids == []
    ensures WrapSum(Coordinates(col, ids)) == Wrap32(0)
  {
  }

  lemma WrapAdds(a: int, b: int)
    ensures Wrap32(Wrap32(a) + b) == Wrap32(a + b)
  {
  }

  lemma CentroidIsCentred(edges: seq<int>, rows: seq<ColpRow>, col: seq<int>, ofProbe: bool)
    requires edges != [] && AllWithin(edges, 1, |rows|)
    requires AllWithin(Along(edges, rows, if ofProbe then Pk else Ga), 1, |col|)
    ensures Centred(Centroid(col, Along(edges, rows, if ofProbe then Pk else Ga)), edges, rows, col, ofProbe)
  {
    hide NearSum, WrapSum, Coordinates;
    SumIsNearSum(edges, rows, col, ofProbe);
  }

  lemma EndsAreListed(edges: seq<int>, rows: seq<ColpRow>, ofProbe: bool)
    requires AllWithin(edges, 1, |rows|)
    ensures var a, b := if ofProbe then Pk else Ga, if ofProbe then Pj else Gb;
      ListsEnds(Ends(Along(edges, rows, a), Along(edges, rows, b)), edges, rows, ofProbe)
  {
    hide Ends, Ascending;
    var a, b := if ofProbe then Pk else Ga, if ofProbe then Pj else Gb;
    var near, far := Along(edges, rows, a), Along(edges, rows, b);
    EndsAreEndpoints(near, far);
    forall e
      ensures e in near || e in far <==> exists i :: 0 <= i < |edges| && EndsIn(rows[edges[i] - 1], ofProbe, e)
    {
      EndIsListed(edges, rows, ofProbe, e);
    }
  }

  lemma EndIsListed(edges: seq<int>, rows: seq<ColpRow>, ofProbe: bool, e: int)
    requires AllWithin(edges, 1, |rows|)
    ensures var near := Along(edges, rows, if ofProbe then Pk else Ga);
      var far := Along(edges, rows, if ofProbe then Pj else Gb);
      e in near || e in far <==> exists i :: 0 <= i < |edges| && EndsIn(rows[edges[i] - 1], ofProbe, e)
  {
    var near := Along(edges, rows, if ofProbe then Pk else Ga);
    var far := Along(edges, rows, if ofProbe then Pj else Gb);
    if i :| 0 <= i < |edges| && EndsIn(rows[edges[i] - 1], ofProbe, e) {
      assert near[i] in near && far[i] in far;
    }
    if e in near {
      var i :| 0 <= i < |near| && near[i] == e;
      assert EndsIn(rows[edges[i] - 1], ofProbe, e);
    }
    if e in far {
      var i :| 0 <= i < |far| && far[i] == e;
      assert EndsIn(rows[edges[i] - 1], ofProbe, e);
    }
  }

  // --- Rotations ------------------------------------------------------------------------------

  ghost predicate RotationsFolded(rows: seq<ColpRow>) {
    forall i :: 0 <= i < |rows| ==> -180 < rows[i].rot <= 180
  }

  function Below(m: int): (lo: int)
    requires -180 < m <= 180
    ensures -180 < lo <= 180 && (lo - (m - 11)) % 360 == 0
  {
    if m - 11 <= -180 then m - 11 + 360 else m - 11
  }

  lemma CloseIsOffset(x: int, m: int)
    requires -180 < m <= 180
    ensures CircularDistance(x, m) <= 11 <==> Offset(x, Below(m)) <= 22
  {
    var d := (x - m) % 360;
    var q := (x - m) / 360;
    var o := if d + 11 >= 360 then d + 11 - 360 else d + 11;
    assert x - m == 360 * q + d;
    ShiftedOffset(x, m, o, d);
  }

  lemma ShiftedOffset(x: int, m: int, o: int, d: int)
    requires -180 < m <= 180 && d == (x - m) % 360 && o == if d + 11 >= 360 then d + 11 - 360 else d + 11
    ensures Offset(x, Below(m)) == o
  {
    var lo := Below(m);
    var k := if lo == m - 11 then 0 else -1;
    var q := (x - m) / 360;
    assert x - lo == o + 360 * (q + k + if d + 11 >= 360 then 1 else 0);
    SameRemainder(x - lo, o, q + k + if d + 11 >= 360 then 1 else 0);
  }

  lemma TwoClose(x: int, y: int, m: int)
    requires CircularDistance(x, m) <= 11 && CircularDistance(y, m) <= 11
    ensures CircularDistance(x, y) <= 22
  {
    var a, b := (x - m) % 360, (y - m) % 360;
    var d := (if a <= 180 then a else a - 360) - (if b <= 180 then b else b - 360);
    var q := (x - m) / 360 - (y - m) / 360 + (if a <= 180 then 0 else 1) - (if b <= 180 then 0 else 1);
    assert x - y == d + 360 * q;
    SameRemainder(x - y, d, q);
  }

  /** An edge that the prune keeps is within 11 degrees of the path's mean. */
  lemma KeptIsClose(path: seq<int>, rows: seq<ColpRow>, e: int)
    requires AllWithin(path, 1, |rows|) && Distinct(path) && |path| >= 3 && RotationsFolded(rows)
    requires e in Pruned(path, rows)
    ensures 1 <= e <= |rows| && -180 < MeanRotation(Along(path, rows, Rot)) <= 180
    ensures CircularDistance(rows[e - 1].rot, MeanRotation(Along(path, rows, Rot))) <= 11
  {
    hide MeanRotation, CircularDistance, Kept;
    var v := Along(path, rows, Rot);
    MeanIsFolded(v);
    KeptIsSublist(path, v, MeanRotation(v));
    assert e in path;
    var i :| 0 <= i < |path| && path[i] == e;
    KeptIsCircular(path, v, MeanRotation(v), i);
  }

  /** Rotations within 11 degrees of some angle have their mean there too. */
  lemma MeanOfClose(v: seq<int>, m: int)
    requires v != [] && AllFolded(v) && -180 < m <= 180
    requires forall i :: 0 <= i < |v| ==> CircularDistance(v[i], m) <= 11
    ensures -180 < MeanRotation(v) <= 180 && CircularDistance(MeanRotation(v), m) <= 11
  {
    hide MeanRotation, CircularDistance, Offset, Below, Offsets;
    MeanIsFolded(v);
    BelowIsFolded(m);
    forall i | 0 <= i < |v| ensures Offset(v[i], Below(m)) <= 22 { CloseIsOffset(v[i], m); }
    MeanIsAverage(v, Below(m), 22);
    CloseIsOffset(MeanRotation(v), m);
  }

  lemma BelowIsFolded(m: int)
    requires -180 < m <= 180
    ensures -180 < Below(m) <= 180
  {
  }

  lemma ClusterIsTurned(path: seq<int>, t: Table, pr: Prints)
    requires AllWithin(path, 1, |t.rows|) && Distinct(path) && RotationsFolded(t.rows) && PrintsFit(t, pr)
    requires |Pruned(path, t.rows)| >= 3 && AllWithin(Pruned(path, t.rows), 1, |t.rows|)
    ensures ClusterOf(Pruned(path, t.rows), t, pr).edges == Pruned(path, t.rows)
    ensures RotationsNear(ClusterOf(Pruned(path, t.rows), t, pr), t.rows)
  {
    hide MeanRotation, CircularDistance, Pruned, Centroid, Ends;
    PrunedIsShorter(path, t.rows);
    var kept, m := Pruned(path, t.rows), MeanRotation(Along(path, t.rows, Rot));
    var v := Along(kept, t.rows, Rot);
    assert kept[0] in kept;
    KeptIsClose(path, t.rows, kept[0]);
    forall i | 0 <= i < |kept| ensures CircularDistance(v[i], m) <= 11 {
      assert kept[i] in kept;
      KeptIsClose(path, t.rows, kept[i]);
    }
    MeanOfClose(v, m);
    forall i | 0 <= i < |kept| ensures CircularDistance(t.rows[kept[i] - 1].rot, MeanRotation(v)) <= 22 {
      TwoClose(v[i], MeanRotation(v), m);
    }
  }

  lemma PrunedIsShorter(path: seq<int>, rows: seq<ColpRow>)
    requires AllWithin(path, 1, |rows|) && Distinct(path) && |Pruned(path, rows)| >= 3
    ensures |path| >= 3
  {
    hide Kept, MeanRotation;
    PrunedKeeps(path, rows);
  }

  lemma PrunedIsPart(path: seq<int>, rows: seq<ColpRow>, e: int)
    requires AllWithin(path, 1, |rows|) && e in Pruned(path, rows)
    ensures e in path
  {
    hide Kept, MeanRotation;
    if |path| >= MSTR {
      var angles := Along(path, rows, Rot);
      KeptIsSublist(path, angles, MeanRotation(angles));
    }
  }

  /** The far ends of a grown path are paired one-to-one. */
  lemma PathIsPaired(w: Work, t: Table, k: nat, ftt: int, w': Work)
    requires k < |t.rows| && WorkOk(Fresh(w, t.rows[k]), t, ftt) && Grow(w, t, k, ftt) == Ok(w')
    ensures AllWithin(w'.path, 1, |t.rows|) && Distinct(w'.path) && TableOk(t) && Inverse(w'.tq, w'.rq, t.nend)
    ensures forall e :: e in w'.path ==> 1 <= e <= |t.rows| && EdgeRealised(w'.tq, t.rows[e - 1], false)
  {
    hide Grow, Grown;
    GrowKeeps(w, t, k, ftt);
  }

  lemma KeptIsOneToOne(kept: seq<int>, t: Table, tq: seq<int>, rq: seq<int>)
    requires AllWithin(kept, 1, |t.rows|) && TableOk(t) && Inverse(tq, rq, t.nend)
    requires forall i :: 0 <= i < |kept| ==> EdgeRealised(tq, t.rows[kept[i] - 1], false)
    ensures OneToOne(kept, t.rows)
  {
    hide Inverse;
    forall i, j | 0 <= i < |kept| && 0 <= j < |kept|
      ensures t.rows[kept[i] - 1].pj == t.rows[kept[j] - 1].pj <==> t.rows[kept[i] - 1].gb == t.rows[kept[j] - 1].gb
    {
      var a, b := t.rows[kept[i] - 1], t.rows[kept[j] - 1];
      assert RowOk(a, t.nend) && RowOk(b, t.nend);
      SamePartner(tq, rq, t.nend, a.pj, b.pj);
    }
  }

  /** Every cluster that comes from a grown path describes one placement of one print on the other. */
  lemma ClusterIsPlacement(c: Cluster, t: Table, pr: Prints)
    requires Arises(c, t, pr) && RotationsFolded(t.rows)
    ensures IsPlacement(c, t, pr)
  {
    hide WorkOk, Grow, Pruned, ClusterOf, IsPlacement;
    var w, k, ftt, w' :| FromPath(c, t, pr, w, k, ftt, w');
    PathIsPaired(w, t, k, ftt, w');
    PathIsPlacement(w'.path, w'.tq, w'.rq, t, pr);
  }

  lemma PathIsPlacement(path: seq<int>, tq: seq<int>, rq: seq<int>, t: Table, pr: Prints)
    requires AllWithin(path, 1, |t.rows|) && Distinct(path) && RotationsFolded(t.rows) && PrintsFit(t, pr) && TableOk(t)
    requires |Pruned(path, t.rows)| >= 3 && AllWithin(Pruned(path, t.rows), 1, |t.rows|) && Inverse(tq, rq, t.nend)
    requires forall e :: e in path ==> 1 <= e <= |t.rows| && EdgeRealised(tq, t.rows[e - 1], false)
    ensures IsPlacement(ClusterOf(Pruned(path, t.rows), t, pr), t, pr)
  {
    hide Pruned, OneToOne, RotationsNear, ListsEnds, Centred, Inverse, Ends, Centroid, MeanRotation, EdgeRealised;
    var kept := Pruned(path, t.rows);
    PrunedKeeps(path, t.rows);
    ClusterIsTurned(path, t, pr);
    forall i | 0 <= i < |kept| ensures EdgeRealised(tq, t.rows[kept[i] - 1], false) {
      assert kept[i] in kept;
      PrunedIsPart(path, t.rows, kept[i]);
    }
    KeptIsOneToOne(kept, t, tq, rq);
    CentroidIsCentred(kept, t.rows, pr.probe.x, true);
    CentroidIsCentred(kept, t.rows, pr.probe.y, true);
    CentroidIsCentred(kept, t.rows, pr.gallery.x, false);
    CentroidIsCentred(kept, t.rows, pr.gallery.y, false);
    EndsAreListed(kept, t.rows, true);
    EndsAreListed(kept, t.rows, false);
  }

  // --- What the score counts ------------------------------------------------------------------

  /** The clusters `c` names, in ascending order, agree pairwise. */
  ghost predicate Agreeing(cs: seq<Cluster>, angle: (int, int) -> int, c: seq<int>) {
    && Ascending(c) && AllWithin(c, 0, |cs| - 1)
    && forall i, j :: 0 <= i < j < |c| ==> Agree(cs[c[i]], cs[c[j]], angle)
  }

  /** `n` is the largest number of rows in clusters that agree pairwise. */
  ghost predicate IsLargest(cs: seq<Cluster>, angle: (int, int) -> int, n: int) {
    && (exists c :: Agreeing(cs, angle, c) && |EdgesOf(cs, c)| == n)
    && forall c :: Agreeing(cs, angle, c) ==> |EdgesOf(cs, c)| <= n
  }

  ghost predicate AllFoldedClusters(cs: seq<Cluster>) {
    forall i :: 0 <= i < |cs| ==> -180 < cs[i].avg.rot <= 180
  }

  lemma CompatibleSetsAgree(cs: seq<Cluster>, angle: (int, int) -> int, c: seq<int>)
    requires AllFoldedClusters(cs) && Turns(angle)
    ensures CompatibleSet(cs, angle, c) <==> Agreeing(cs, angle, c)
  {
    hide Compatible, Agree;
    if Ascending(c) && AllWithin(c, 0, |cs| - 1) {
      forall i, j | 0 <= i < j < |c|
        ensures Compatible(cs[c[i]], cs[c[j]], angle) <==> Agree(cs[c[i]], cs[c[j]], angle)
      {
        CompatibleIsAgreement(cs[c[i]], cs[c[j]], angle);
      }
    }
  }

  lemma TotalCountsRows(cs: seq<Cluster>, t: Table, angle: (int, int) -> int, c: seq<int>)
    requires ClustersOk(cs, t) && CompatibleSet(cs, angle, c)
    ensures AllWithin(c, 0, |cs| - 1) && EdgeTotal(cs, c) == |EdgesOf(cs, c)|
  {
    CliquesAreCompatibleSets(cs, angle, c);
    CliqueCountsItsEdges(cs, t, angle, c);
  }

  /** A score is the largest number of distinct rows in clusters that agree pairwise, and that number is a score. */
  lemma ScoreIsLargest(cs: seq<Cluster>, t: Table, angle: (int, int) -> int, n: int)
    requires ClustersOk(cs, t) && AllFoldedClusters(cs) && Turns(angle)
    ensures IsScore(cs, angle, n) <==> IsLargest(cs, angle, n)
  {
    hide CompatibleSet, Agreeing, EdgeTotal, EdgesOf, ClustersOk;
    forall c ensures CompatibleSet(cs, angle, c) <==> Agreeing(cs, angle, c)
      ensures CompatibleSet(cs, angle, c) ==> AllWithin(c, 0, |cs| - 1) && EdgeTotal(cs, c) == |EdgesOf(cs, c)|
    {
      CompatibleSetsAgree(cs, angle, c);
      if CompatibleSet(cs, angle, c) { TotalCountsRows(cs, t, angle, c); }
    }
  }

  // --- The whole pipeline ---------------------------------------------------------------------

  lemma PairsAreFolded(p: Prepared, g: Prepared, slope: Slope)
    requires Parallel(p) && Parallel(g) && Intra.Canonical(p) && Intra.Canonical(g) && SlopeOk(slope)
    ensures RotationsFolded(PairsOf(p, g, slope).rows)
  {
    hide EdgeTable, PrunedLength, PairTable, RowFits, Intra.Canonical;
    TableFits(p, slope);
    TableFits(g, slope);
    var a, b := PrunedTable(p, slope), PrunedTable(g, slope);
    forall i | 0 <= i < |PairTable(a, b)| ensures -180 < PairTable(a, b)[i].rot <= 180 {
      RotationsAreFolded(a, b, |p.x|, |g.x|, i);
    }
  }

  /** The clusters of a search all describe placements of the prints. */
  lemma SearchFindsPlacements(t: Table, pr: Prints)
    requires TableOk(t) && PrintsFit(t, pr) && RotationsFolded(t.rows) && !SearchOf(t, pr).QueueFull?
    ensures forall i :: 0 <= i < |SearchOf(t, pr).s.clusters| ==> IsPlacement(SearchOf(t, pr).s.clusters[i], t, pr)
  {
    hide Sweep, IsPlacement, TableOk, PrintsFit, AllSuggested, Arises, RotationsFolded;
    var big := ArraySize(t);
    InitialIsOk(big, t, pr);
    InitialIsSound(big, t, pr);
    SweepIsSound(Initial(big), t, pr, 0);
    var cs := SearchOf(t, pr).s.clusters;
    forall i | 0 <= i < |cs| ensures IsPlacement(cs[i], t, pr) {
      ClusterIsPlacement(cs[i], t, pr);
    }
  }

  lemma PlacementsAreFolded(cs: seq<Cluster>, t: Table, pr: Prints)
    requires forall i :: 0 <= i < |cs| ==> IsPlacement(cs[i], t, pr)
    ensures AllFoldedClusters(cs)
  {
    hide Centred, ListsEnds, OneToOne, CircularDistance, Distinct;
  }

  /**
   * What the score of two canonical prints of ten minutiae or more means: every cluster of the search describes
   * a placement of one print on the other, and the score is the largest number of distinct pairs of edges in
   * clusters that agree with one another, wherever the search ends inside its queue and its arrays.
   */
  lemma ScoreMeans(p: Prepared, g: Prepared, slope: Slope, angle: (int, int) -> int, n: int)
    requires Parallel(p) && Parallel(g) && Intra.Canonical(p) && Intra.Canonical(g) && SlopeOk(slope) && Turns(angle)
    requires |p.x| >= 10 && |g.x| >= 10
    ensures TableOk(PairsOf(p, g, slope)) && PrintsFit(PairsOf(p, g, slope), Prints(p, g, angle))
    ensures var t, pr := PairsOf(p, g, slope), Prints(p, g, angle);
      var e := SearchOf(t, pr);
      && (Scores(p, g, slope, angle, Scored(n)) <==>
            !e.QueueFull? && !LeavesArrays(e.s.clusters, angle, ArraySize(t)) && IsLargest(e.s.clusters, angle, n))
      && (!e.QueueFull? ==> forall i :: 0 <= i < |e.s.clusters| ==> IsPlacement(e.s.clusters[i], t, pr))
  {
    hide PairsOf, SearchOf, TableOk, PrintsFit, Ordered, LeavesArrays, IsScore, IsLargest, IsPlacement, RotationsFolded;
    PairsFitStage3(p, g, slope, angle);
    PairsAreFolded(p, g, slope);
    var t, pr := PairsOf(p, g, slope), Prints(p, g, angle);
    if !SearchOf(t, pr).QueueFull? {
      SearchFindsPlacements(t, pr);
      SearchKeepsClusters(t, pr);
      var cs := SearchOf(t, pr).s.clusters;
      PlacementsAreFolded(cs, t, pr);
      ScoreIsLargest(cs, t, angle, n);
    }
  }
}
