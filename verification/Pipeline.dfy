/** The three stages composed: from two lists of minutiae to the match score. */
module Pipeline {
  import opened Consts
  import opened StableSort
  import opened Xyt
  import opened Intra
  import opened Inter
  import opened Paths
  import opened Lookup
  import opened Clusters
  import opened Matcher

  function Prep(minutiae: seq<Minutia>): (p: Prepared)
    ensures Parallel(p)
  {
    Columns(Rows(minutiae, DEFAULT_BOZORTH_MINUTIAE))
  }

  /** A print holds its first 150 minutiae as listed, each with its angle folded, by column and then by row. */
  lemma PrintHoldsFirst(minutiae: seq<Minutia>, first: seq<Point>)
    requires |first| == if |minutiae| < 150 then |minutiae| else 150
    requires forall i :: 0 <= i < |first| ==> var m := minutiae[i];
      first[i] == Point(m.x, m.y, if m.theta > 180 then m.theta - 360 else m.theta)
    ensures multiset(PointsOf(Prep(minutiae))) == multiset(first) && |Prep(minutiae).x| == |first|
    ensures var p := Prep(minutiae);
      forall i, j :: 0 <= i < j < |p.x| ==> p.x[i] < p.x[j] || (p.x[i] == p.x[j] && p.y[i] <= p.y[j])
  {
    hide Rows;
    PreparedHoldsFirst(minutiae, 150, first);
    RowsAscend(minutiae, 150);
  }

  lemma RowsAscend(minutiae: seq<Minutia>, max: nat)
    ensures |Rows(minutiae, max)| == if |minutiae| < max then |minutiae| else max
    ensures Xyt.Valid(Columns(Rows(minutiae, max)))
  {
    hide Sort;
    SortElements(Points(Taken(minutiae, max)), ByXY);
    ByXYIsPreorder();
    SortSorts(Points(Taken(minutiae, max)), ByXY);
  }

  /** A print's pruned stage-1 table. */
  function PrunedTable(p: Prepared, slope: Slope): (r: seq<CompRow>)
    requires Parallel(p)
  {
    EdgeTable(p, slope)[..PrunedLength(EdgeTable(p, slope))]
  }

  /** The stage-2 table of two prints, with the largest endpoint number. */
  function PairsOf(p: Prepared, g: Prepared, slope: Slope): (t: Table)
    requires Parallel(p) && Parallel(g)
  {
    Table(PairTable(PrunedTable(p, slope), PrunedTable(g, slope)), Larger(|p.x|, |g.x|))
  }

  lemma PrunedIsPlaced(p: Prepared, slope: Slope)
    requires Parallel(p)
    ensures Placed(PrunedTable(p, slope), |p.x|)
  {
    hide EdgeTable, PrunedLength, Placed;
    TableIsPlaced(p, slope);
    PrefixIsPlaced(EdgeTable(p, slope), |p.x|, PrunedLength(EdgeTable(p, slope)));
  }

  /** What stage 3 demands of its input holds on any two prints. */
  lemma PairsFitStage3(p: Prepared, g: Prepared, slope: Slope, angle: (int, int) -> int)
    requires Parallel(p) && Parallel(g)
    ensures var t := PairsOf(p, g, slope); Ordered(t.rows) && TableOk(t) && PrintsFit(t, Prints(p, g, angle))
    ensures |PairsOf(p, g, slope).rows| <= TABLE_OVERFLOW_LIMIT
  {
    hide PrunedTable, PairTable, Ordered, Placed;
    var a, b := PrunedTable(p, slope), PrunedTable(g, slope);
    PrunedIsPlaced(p, slope);
    PrunedIsPlaced(g, slope);
    TableHoldsPairs(a, b);
    forall i | 0 <= i < |PairTable(a, b)|
      ensures var r := PairTable(a, b)[i];
        1 <= r.pk < r.pj <= |p.x| && 1 <= r.ga <= |g.x| && 1 <= r.gb <= |g.x|
    {
      EndpointsFit(a, b, |p.x|, |g.x|, i);
    }
  }

  /**
   * Every row that stage 3 gets joins two edges that the prunes have kept, one of either print, and joins ends of
   * theirs that look alike.
   */
  lemma PairsJoinLikeEnds(p: Prepared, g: Prepared, slope: Slope, i: nat) returns (x: nat, y: nat)
    requires Parallel(p) && Parallel(g) && InContract(p) && InContract(g) && Canonical(p) && Canonical(g)
    requires SlopeOk(slope) && i < |PairsOf(p, g, slope).rows|
    ensures x < PrunedLength(EdgeTable(p, slope)) && y < PrunedLength(EdgeTable(g, slope))
    ensures var r, s, f := PairsOf(p, g, slope).rows[i], EdgeTable(p, slope)[x], EdgeTable(g, slope)[y];
      && r.pk == s.k && r.pj == s.j && ((r.ga == f.k && r.gb == f.j) || (r.ga == f.j && r.gb == f.k))
      && 1 <= r.pk < r.pj <= |p.x| && 1 <= r.ga <= |g.x| && 1 <= r.gb <= |g.x| && r.ga != r.gb
      && JoinsLikeEnds(r, p, g, slope)
  {
    hide EdgeTable, PrunedLength, PairTable, Pairs, JoinsLikeEnds, InContract, Canonical, FromPair;
    var a, b := PrunedTable(p, slope), PrunedTable(g, slope);
    TableJoinsLikeEnds(a, b, p, g, slope, i);
    TableHoldsPairs(a, b);
    var r := PairTable(a, b)[i];
    assert r in PairTable(a, b);
    var s, f := PairedRows(r, a, b);
    x :| 0 <= x < |a| && a[x] == s;
    y :| 0 <= y < |b| && b[y] == f;
  }

  /** `v` is the answer for two prints. */
  ghost predicate Scores(p: Prepared, g: Prepared, slope: Slope, angle: (int, int) -> int, v: Verdict)
    requires Parallel(p) && Parallel(g)
  {
    PairsFitStage3(p, g, slope, angle);
    var t, pr := PairsOf(p, g, slope), Prints(p, g, angle);
    if Computable(pr) then Answers(SearchOf(t, pr), angle, ArraySize(t), v) else v == Scored(ZERO_MATCH_SCORE)
  }

  /** Stage 1 of one print. */
  method PrunedWeb(p: Prepared, slope: Slope) returns (rows: seq<CompRow>)
    requires Parallel(p)
    ensures rows == PrunedTable(p, slope) && Ascends(rows)
  {
    hide EdgeTable, PrunedLength;
    TableIsPlaced(p, slope);
    var table := Comp(p, slope);
    var len := PruneLen(table);
    rows := table[..len];
  }

  /** The match score of two lists of minutiae: defined on all of them, and never above the table limit. */
  method MatchMinutiae(probe: seq<Minutia>, gallery: seq<Minutia>, slope: Slope, angle: (int, int) -> int)
    returns (v: Verdict)
    ensures Scores(Prep(probe), Prep(gallery), slope, angle, v)
    ensures v.Scored? ==> 0 <= v.score <= TABLE_OVERFLOW_LIMIT
    ensures |probe| < MIN_COMPUTABLE_BOZORTH_MINUTIAE || |gallery| < MIN_COMPUTABLE_BOZORTH_MINUTIAE ==> v == Scored(0)
  {
    hide PrunedTable, PairTable, Ordered, TableOk, PrintsFit, SearchOf, Answers, Rows, Xyt.Valid;
    var p := Prepare(probe, DEFAULT_BOZORTH_MINUTIAE);
    var g := Prepare(gallery, DEFAULT_BOZORTH_MINUTIAE);
    if |p.x| < MIN_COMPUTABLE_BOZORTH_MINUTIAE || |g.x| < MIN_COMPUTABLE_BOZORTH_MINUTIAE {
      return Scored(ZERO_MATCH_SCORE);
    }
    PairsFitStage3(p, g, slope, angle);
    var pWeb := PrunedWeb(p, slope);
    var gWeb := PrunedWeb(g, slope);
    var rows := BzMatch(pWeb, gWeb);
    v := MatchScore(rows, Prints(p, g, angle));
  }
}
