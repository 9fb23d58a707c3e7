/**
 * The clusters that stars form where every row of the table starts at the same place on both prints: their
 * averages agree between the prints, so those with different endpoints are always compatible.
 */
module StarClusters {
  import opened Consts
  import opened Seqs
  import opened Cliques
  import opened CliqueOverrun
  import opened Paths
  import opened Rotation
  import opened Clusters
  import opened ScoreFacts
  import opened Seeds

  ghost predicate AllZeroes(v: seq<int>) {
    forall i :: 0 <= i < |v| ==> v[i] == 0
  }

  /** Every row of the table starts at minutiae in the same place on both prints. */
  ghost predicate Aligned(t: Table, pr: Prints)
    requires PrintsFit(t, pr)
  {
    forall i :: 0 <= i < |t.rows| ==>
      && pr.probe.x[t.rows[i].pk - 1] == pr.gallery.x[t.rows[i].ga - 1]
      && pr.probe.y[t.rows[i].pk - 1] == pr.gallery.y[t.rows[i].ga - 1]
  }

  lemma {:induction false} ZeroSplit(v: seq<int>)
    requires AllZeroes(v)
    ensures SplitSum(v) == Split(0, 0, 0, |v|)
  {
    if v != [] {
      ZeroSplit(v[..|v| - 1]);
    }
  }

  lemma ZeroMean(v: seq<int>)
    requires AllZeroes(v) && v != []
    ensures MeanRotation(v) == 0
  {
    ZeroSplit(v);
    var n := |v| as real;
    assert 0.0 / n == 0.0;
  }

  lemma {:induction false} AllAreKept(path: seq<int>, angle: seq<int>)
    requires |path| == |angle| && AllZeroes(angle)
    ensures Kept(path, angle, 0) == path
  {
    if path != [] {
      var m := |path| - 1;
      AllAreKept(path[..m], angle[..m]);
      assert angle[m] == 0 && !OutOfBand(0);
      assert path == path[..m] + [path[m]];
    }
  }

  /** A mean that does not turn, and the same centroid on both prints. */
  predicate IsLevel(a: Average) {
    a.rot == 0 && a.px == a.gx && a.py == a.gy
  }

  /** A cluster whose endpoints lie within `lo..hi` on both sides, level. */
  ghost predicate LiesWithin(cl: Cluster, lo: int, hi: int) {
    && IsLevel(cl.avg) && |cl.edges| >= MSTR
    && (forall y :: y in cl.probeEnds ==> lo <= y <= hi)
    && forall y :: y in cl.galleryEnds ==> lo <= y <= hi
  }

  /** Row `r` lies within `lo..hi` on both sides and does not turn. */
  ghost predicate RowWithin(r: ColpRow, lo: int, hi: int) {
    r.rot == 0 && lo <= r.pk <= hi && lo <= r.pj <= hi && lo <= r.ga <= hi && lo <= r.gb <= hi
  }

  ghost predicate PathWithin(path: seq<int>, t: Table, lo: int, hi: int) {
    AllWithin(path, 1, |t.rows|) && forall i :: 0 <= i < |path| ==> RowWithin(t.rows[path[i] - 1], lo, hi)
  }

  /** On aligned prints a path of rows that do not turn is kept whole, and is a level cluster. */
  lemma LevelCluster(path: seq<int>, t: Table, pr: Prints, lo: int, hi: int)
    requires |path| >= MSTR && PathWithin(path, t, lo, hi) && PrintsFit(t, pr) && Aligned(t, pr)
    ensures Pruned(path, t.rows) == path && LiesWithin(ClusterOf(path, t, pr), lo, hi)
  {
    hide Kept, MeanRotation, Centroid, Ends, Aligned, Coordinates;
    var angles := Along(path, t.rows, Rot);
    assert AllZeroes(angles);
    ZeroMean(angles);
    AllAreKept(path, angles);
    SameCoordinates(path, t, pr);
    var ps, gs := Along(path, t.rows, Pk), Along(path, t.rows, Ga);
    var pj, gb := Along(path, t.rows, Pj), Along(path, t.rows, Gb);
    EndsWithin(ps, pj, lo, hi);
    EndsWithin(gs, gb, lo, hi);
  }

  lemma SameCoordinates(path: seq<int>, t: Table, pr: Prints)
    requires path != [] && AllWithin(path, 1, |t.rows|) && PrintsFit(t, pr) && Aligned(t, pr)
    ensures var ps, gs := Along(path, t.rows, Pk), Along(path, t.rows, Ga);
      && AllWithin(ps, 1, |pr.probe.x|) && AllWithin(gs, 1, |pr.gallery.x|)
      && Centroid(pr.probe.x, ps) == Centroid(pr.gallery.x, gs)
      && Centroid(pr.probe.y, ps) == Centroid(pr.gallery.y, gs)
  {
    var ps, gs := Along(path, t.rows, Pk), Along(path, t.rows, Ga);
    assert Coordinates(pr.probe.x, ps) == Coordinates(pr.gallery.x, gs);
    assert Coordinates(pr.probe.y, ps) == Coordinates(pr.gallery.y, gs);
    hide Coordinates, WrapSum;
  }

  lemma EndsWithin(a: seq<int>, b: seq<int>, lo: int, hi: int)
    requires |a| == |b| && AllWithin(a, lo, hi) && AllWithin(b, lo, hi)
    ensures forall y :: y in Ends(a, b) ==> lo <= y <= hi
  {
    hide Ends;
    EndsAreEndpoints(a, b);
  }

  /** Level clusters with endpoints apart are compatible, whatever the angles of vectors are. */
  lemma LevelAreCompatible(a: Cluster, b: Cluster, angle: (int, int) -> int, hi: int, lo: int, top: int)
    requires LiesWithin(a, 1, hi) && LiesWithin(b, lo, top) && hi < lo
    ensures Compatible(a, b, angle)
  {
    hide GatesPass, IsLevel;
    LevelPasses(a.avg, b.avg, angle);
    RangesDoNotMeet(a.probeEnds, b.probeEnds, hi, lo);
    RangesDoNotMeet(a.galleryEnds, b.galleryEnds, hi, lo);
  }

  lemma RangesDoNotMeet(a: seq<int>, b: seq<int>, hi: int, lo: int)
    requires hi < lo && (forall y :: y in a ==> y <= hi) && forall y :: y in b ==> lo <= y
    ensures !Meets(a, b)
  {
    forall i | 0 <= i < |a| ensures a[i] !in b {
      var x := a[i];
      assert x in a;
      assert x in b ==> lo <= x;
    }
  }

  lemma LevelPasses(a: Average, b: Average, angle: (int, int) -> int)
    requires IsLevel(a) && IsLevel(b)
    ensures GatesPass(a, b, angle)
  {
    hide MeanRotation, SpacingAgrees, Wrap32;
    ZeroMean([0, 0]);
    assert [b.rot, a.rot] == [0, 0];
    var dx, dy := Wrap32(b.px - a.px), Wrap32(b.py - a.py);
    EvenSpacing(dx, dy);
    assert Iangle180(angle(dy, dx) - angle(dy, dx)) == 0;
    assert !OutOfBand(0);
  }

  lemma EvenSpacing(dx: int, dy: int)
    ensures SpacingAgrees(dx, dy, dx, dy)
  {
    SquaresAreNat(dx, dy);
  }

  // --- One vertex with a chain too long to copy -----------------------------------------------

  lemma LongChain(chain: seq<int>, n: nat)
    requires Ascending(chain) && forall x :: 1 <= x <= n ==> x in chain
    ensures |chain| >= n
  {
    DistinctCardinality(chain);
    SubsetIsSmaller(UpTo(n), Elements(chain));
  }

  /** Two clusters compatible with each other and with the next `n`: the second's chain is over `n` long. */
  lemma HubsOverrun(cs: seq<Cluster>, angle: (int, int) -> int, n: nat, size: nat)
    requires n >= 1 && n + 2 <= |cs| && size <= n
    requires forall i :: 0 <= i < |cs| ==> |cs[i].edges| >= MSTR
    requires forall j :: 1 <= j < n + 2 ==> Compatible(cs[0], cs[j], angle)
    requires forall j :: 2 <= j < n + 2 ==> Compatible(cs[1], cs[j], angle)
    ensures LeavesArrays(cs, angle, size)
  {
    hide Compatible, Chains, Overrun;
    ChainsAreChains(cs, angle);
    var ct, chain := Counts(cs), Chains(cs, angle);
    forall x | 1 <= x <= n + 1 ensures x in chain[1] {
      if x > 1 { assert Compatible(cs[1], cs[x], angle); } else { assert chain[1][0] == 1; }
    }
    assert Compatible(cs[0], cs[1], angle) && Compatible(cs[0], cs[2], angle);
    HubGraphOverruns(ct, chain, n, size);
  }

  lemma HubGraphOverruns(ct: seq<int>, chain: seq<seq<int>>, n: nat, size: nat)
    requires |ct| == |chain| && IsChains(chain) && n >= 1 && n + 2 <= |ct| && size <= n
    requires forall i :: 0 <= i < |ct| ==> ct[i] >= MSTR
    requires 1 in chain[0] && 2 in chain[0] && forall x :: 1 <= x <= n + 1 ==> x in chain[1]
    ensures Overrun(ct, chain, size)
  {
    hide Entered;
    LongChain(chain[1], n + 1);
    FirstIsEntered(ct, chain);
    var c := [0, 1];
    assert c[..1] == [0];
    assert Shared(chain, c[..1], 2) && ReadsPast(chain, c[..1], 1, 2, size);
    assert OverrunsAt(chain, c[..1], 1, size);
    assert IsClique(chain, c);
    assert Overruns(chain, c, size);
  }

  lemma FirstIsEntered(ct: seq<int>, chain: seq<seq<int>>)
    requires |ct| == |chain| && IsChains(chain) && ct != []
    requires forall i :: 0 <= i < |ct| ==> ct[i] >= MSTR
    ensures Entered(ct, chain, 0)
  {
    WeightAtLeast(ct, chain[0], MSTR);
  }
}
