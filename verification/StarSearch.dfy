/**
 * The search on a table of three stars, for every width of the last one: the first two form one cluster
 * each, the last one a cluster for every pair of alternatives, and the final loop leaves the work arrays.
 */
module StarSearch {
  import opened Consts
  import opened Seqs
  import opened Paths
  import opened Lookup
  import opened Odometer
  import opened OdometerFacts
  import opened Clusters
  import opened ScoreFacts
  import opened Seeds
  import opened SeedSteps
  import opened Matcher
  import opened QueueBounds
  import opened Stars
  import opened StarClusters

  // --- The next pair of alternatives ----------------------------------------------------------

  function NextI(m: nat, i: int, j: int): (r: int) {
    if j < m then i else i + 1
  }

  function NextJ(m: nat, i: int, j: int): (r: int) {
    if j < m then j + 1 else 1
  }

  lemma WheelsAreOk(c: int, m: nat, i: int, j: int, nend: nat)
    requires 1 <= c && c + 3 <= nend && c + 2 * m + 1 <= nend && 1 <= i <= m && 1 <= j <= m
    ensures AllOk(Wheels(c, m, i, j), nend)
  {
    var groups := Wheels(c, m, i, j);
    assert GroupOk(groups[0], nend) && GroupOk(groups[1], nend);
  }

  /** The count steps to the next pair, if there is one. */
  lemma WheelsAdvance(c: int, m: nat, i: int, j: int)
    requires 1 <= i <= m && 1 <= j <= m
    ensures var r := Advance(Wheels(c, m, i, j), 1);
      if i == m && j == m then !r.more else r == Advanced(Wheels(c, m, NextI(m, i, j), NextJ(m, i, j)), true)
  {
    hide Alternatives;
    var groups := Wheels(c, m, i, j);
    if j < m {
      assert Pick(groups, 1, j + 1) == Wheels(c, m, i, j + 1);
    } else {
      var carried := Pick(groups, 1, 1);
      assert carried == Wheels(c, m, i, 1);
      assert Advance(groups, 1) == Advance(carried, 0);
      if i < m {
        assert Pick(carried, 0, i + 1) == Wheels(c, m, i + 1, 1);
      } else {
        assert Advance(carried, 0) == Advance(Pick(carried, 0, 1), -1);
      }
    }
  }

  /** With only the centre paired, any pair of alternatives can be applied. */
  lemma WheelsApply(tq: seq<int>, rq: seq<int>, c: int, m: nat, i: int, j: int, nend: nat)
    requires Inverse(tq, rq, nend) && ArmsPaired(tq, c, 0, 0, 0)
    requires c + 3 <= nend && c + 2 * m + 1 <= nend && 1 <= i <= m && 1 <= j <= m
    ensures AllOk(Wheels(c, m, i, j), nend)
    ensures var a := Apply(tq, rq, Wheels(c, m, i, j), nend, 1);
      a.stop == -1 && ArmsPaired(a.tq, c, c + i, c + m + j, 0)
  {
    WheelsAreOk(c, m, i, j, nend);
    var groups := Wheels(c, m, i, j);
    NobodysAreUnpaired(tq, rq, nend, c + 1, c + 2 * m + 1);
    assert Probe(groups[1]) == c + 2 && Gallery(groups[1]) == c + m + j;
    assert Probe(groups[0]) == c + 1 && Gallery(groups[0]) == c + i;
    hide Inverse, AllOk;
    var tq1, rq1 := tq[c + 1 := c + m + j], rq[c + m + j - 1 := c + 2];
    ApplyUnfolds(tq, rq, groups, nend, 1);
    ApplyUnfolds(tq1, rq1, groups, nend, 0);
    var tq2, rq2 := tq1[c := c + i], rq1[c + i - 1 := c + 1];
    assert Apply(tq2, rq2, groups, nend, -1) == Attempt(tq2, rq2, -1);
  }

  /** A turn moves on to the next pair of alternatives and applies it, or finds that there is none. */
  lemma TurnStar(tq: seq<int>, rq: seq<int>, c: int, m: nat, i: int, j: int, nend: nat)
    requires Inverse(tq, rq, nend) && ArmsPaired(tq, c, 0, 0, 0)
    requires c + 3 <= nend && c + 2 * m + 1 <= nend && 1 <= i <= m && 1 <= j <= m
    ensures AllOk(Wheels(c, m, i, j), nend)
    ensures var r := Turn(tq, rq, Wheels(c, m, i, j), nend);
      var i', j' := NextI(m, i, j), NextJ(m, i, j);
      && r.more == !(i == m && j == m)
      && (r.more ==> r.groups == Wheels(c, m, i', j') && ArmsPaired(r.tq, c, c + i', c + m + j', 0))
  {
    WheelsAreOk(c, m, i, j, nend);
    WheelsAdvance(c, m, i, j);
    if !(i == m && j == m) {
      WheelsApply(tq, rq, c, m, NextI(m, i, j), NextJ(m, i, j), nend);
    }
    hide AllOk, Inverse, Advance, Apply, ArmsPaired, Alternatives;
  }

  // --- One round on a star --------------------------------------------------------------------

  /** Before a round: only the centre paired and no group yet (`i` is 0), or the arms set to `i` and `j`. */
  ghost predicate Poised(s: Search, t: Table, pr: Prints, k: nat, c: int, m: nat, i: int, j: int) {
    && RoundOk(s, t, pr, k) && HasStar(t, k, c, m) && Aligned(t, pr) && 0 <= s.ftt
    && (forall y :: 0 <= y < |s.w.sc| ==> s.w.sc[y] <= s.ftt)
    && if i == 0 then ArmsPaired(s.w.tq, c, 0, 0, 0) && s.w.groups == [] && s.applied == []
       else && 1 < m && 1 <= i <= m && 1 <= j <= m && s.applied == [c + 1, c + 2]
            && ArmsPaired(s.w.tq, c, c + i, c + m + j, 0) && s.w.groups == Wheels(c, m, i, j)
  }

  /** After the path has been grown: all arms paired, both groups open when there are alternatives. */
  ghost predicate Spread(w: Work, t: Table, k: nat, c: int, m: nat, i: int, j: int, ftt: int) {
    && Halfway(w, t, k, k + 2 * m + 1, c, 3, ftt) && ArmsPaired(w.tq, c, c + i, c + m + j, c + 2 * m + 1)
    && w.groups == if m > 1 then Wheels(c, m, i, j) else []
  }

  lemma FreshIsHalfway(s: Search, t: Table, pr: Prints, k: nat, c: int, m: nat, i: int, j: int)
    requires Poised(s, t, pr, k, c, m, i, j)
    ensures k < |t.rows| && Halfway(Fresh(s.w, t.rows[k]), t, k, k, c, 0, s.ftt + 1)
  {
    hide ArmsPaired, ArmRows, ClustersOk, Accounted;
    assert RowOk(t.rows[k], t.nend);
    ReadyGrows(s.w, t, t.rows[k], s.ftt + 1);
  }

  lemma StarGrows(s: Search, t: Table, pr: Prints, k: nat, c: int, m: nat, i: int, j: int) returns (w: Work)
    requires Poised(s, t, pr, k, c, m, i, j)
    ensures k < |t.rows| && WorkOk(Fresh(s.w, t.rows[k]), t, s.ftt + 1) && Grow(s.w, t, k, s.ftt + 1) == Ok(w)
    ensures Spread(w, t, k, c, m, if i == 0 then 1 else i, if i == 0 then 1 else j, s.ftt + 1)
    ensures i == 0 ==> SameOutside(s.w.sc, w.sc, k, k + 2 * m + 1)
  {
    hide Halfway, SweptTo, HasStar, RoundOk, ArmsPaired, Grow;
    FreshIsHalfway(s, t, pr, k, c, m, i, j);
    var w0 := Fresh(s.w, t.rows[k]);
    if i == 0 {
      w := SweepStarFirst(w0, t, k, c, m, s.ftt + 1);
    } else {
      w := SweepStarAgain(w0, t, k, c, m, i, j, s.ftt + 1);
    }
    HalfwayIsOk(w0, t, k, k, c, 0, s.ftt + 1);
    GrowStar(s.w, t, k, c, m, s.ftt + 1, w);
  }

  lemma HalfwayIsOk(w: Work, t: Table, k: nat, x: nat, c: int, n: nat, ftt: int)
    requires Halfway(w, t, k, x, c, n, ftt)
    ensures WorkOk(w, t, ftt)
  {
  }

  lemma StarRowWithin(t: Table, k: nat, c: int, m: nat, x: nat)
    requires HasStar(t, k, c, m) && k <= x < k + 2 * m + 1
    ensures RowWithin(t.rows[x], c, c + 2 * m + 1)
  {
    if x < k + m {
      assert t.rows[x].pj == c + 1 && t.rows[x].gb == c + 1 + (x - k);
    } else if x < k + 2 * m {
      assert t.rows[x].pj == c + 2 && t.rows[x].gb == c + m + 1 + (x - (k + m));
    } else {
      assert t.rows[x].pj == c + 3 && t.rows[x].gb == c + 2 * m + 1 + (x - (k + 2 * m));
    }
  }

  lemma StarPathWithin(w: Work, t: Table, k: nat, c: int, m: nat, ftt: int)
    requires HasStar(t, k, c, m) && Halfway(w, t, k, k + 2 * m + 1, c, 3, ftt)
    ensures |w.path| == 3 && PathWithin(w.path, t, c, c + 2 * m + 1)
  {
    hide WorkOk, ArmRows, RowWithin;
    forall i | 0 <= i < |w.path|
      ensures 1 <= w.path[i] <= |t.rows| && RowWithin(t.rows[w.path[i] - 1], c, c + 2 * m + 1)
    {
      StarRowWithin(t, k, c, m, w.path[i] - 1);
    }
  }

  /** The path becomes a cluster. */
  lemma StarSettles(s: Search, t: Table, pr: Prints, k: nat, c: int, m: nat, i: int, j: int)
    returns (g: Search, w: Work, cl: Cluster)
    requires Poised(s, t, pr, k, c, m, i, j)
    ensures GrowAndSettle(s, t, pr, k) == Ok(g) && WorkOk(g.w, t, 0)
    ensures g == Search(w.(path := []), s.ftt + 1, s.clusters + [cl], s.applied) && LiesWithin(cl, c, c + 2 * m + 1)
    ensures Spread(w, t, k, c, m, if i == 0 then 1 else i, if i == 0 then 1 else j, s.ftt + 1)
    ensures i == 0 ==> SameOutside(s.w.sc, w.sc, k, k + 2 * m + 1)
  {
    hide Halfway, HasStar, RoundOk, ArmsPaired, Grow, WorkOk, ClusterOf, Pruned, PathWithin, LiesWithin, GrowAndSettle;
    w := StarGrows(s, t, pr, k, c, m, i, j);
    assert PrintsFit(t, pr) by { RoundHasPrints(s, t, pr, k); }
    GrowSettleIs(s, w, t, pr, k);
    StarPathWithin(w, t, k, c, m, s.ftt + 1);
    LevelCluster(w.path, t, pr, c, c + 2 * m + 1);
    cl := ClusterOf(w.path, t, pr);
    g := Search(w.(path := []), s.ftt + 1, s.clusters + [cl], s.applied);
  }

  lemma RoundHasPrints(s: Search, t: Table, pr: Prints, k: nat)
    requires RoundOk(s, t, pr, k)
    ensures PrintsFit(t, pr)
  {
  }

  /** Teardown leaves only the centre paired. */
  lemma StarTearsDown(s: Search, t: Table, pr: Prints, k: nat, c: int, m: nat, i: int, j: int, g: Search, w: Work)
    requires Poised(s, t, pr, k, c, m, i, j) && GrowAndSettle(s, t, pr, k) == Ok(g) && WorkOk(g.w, t, 0)
    requires g.w == w.(path := []) && g.applied == s.applied
    requires Spread(w, t, k, c, m, if i == 0 then 1 else i, if i == 0 then 1 else j, s.ftt + 1)
    ensures g.w.q != [] && Inverse(g.w.tq, g.w.rq, t.nend) && AllOk(g.w.groups, t.nend)
    ensures AllWithin(g.w.q, 1, t.nend) && AllWithin(g.applied, 1, t.nend)
    ensures var r := Teardown(g.w, g.applied); Inverse(r.tq, r.rq, t.nend) && ArmsPaired(r.tq, c, 0, 0, 0)
  {
    hide GrowAndSettle, WorkOk, ArmRows, ClustersOk, Ready, Grown, Alternatives;
    var w0 := Fresh(s.w, t.rows[k]);
    assert SettledFrom(w0, g.w, t);
    TearIsSound(g, t);
    TeardownKeeps(w0, g.w, t, 0, c, g.applied);
    OnlyCentreStays(g.w, g.applied, c, w.tq[c], w.tq[c + 1], w.tq[c + 2]);
  }

  lemma OnlyCentreStays(w: Work, applied: seq<int>, c: int, h1: int, h2: int, h3: int)
    requires w.q != [] && ArmsPaired(w.tq, c, h1, h2, h3) && Accounted(Teardown(w, applied).tq, c, [])
    requires (forall y :: 1 <= y < |w.q| ==> w.q[y] != c) && c !in applied
    ensures ArmsPaired(Teardown(w, applied).tq, c, 0, 0, 0)
  {
    var ps := w.q[1..] + applied;
    assert c !in w.q[1..];
    assert c !in ps;
  }

  /** A star torn down turns to its next pair of alternatives. */
  lemma TornStarTurns(g: Search, t: Table, k: nat, c: int, m: nat, i: int, j: int)
    requires g.w.q != [] && Inverse(g.w.tq, g.w.rq, t.nend) && AllOk(g.w.groups, t.nend)
    requires AllWithin(g.w.q, 1, t.nend) && AllWithin(g.applied, 1, t.nend)
    requires var torn := Teardown(g.w, g.applied); Inverse(torn.tq, torn.rq, t.nend) && ArmsPaired(torn.tq, c, 0, 0, 0)
    requires HasStar(t, k, c, m) && 1 <= i <= m && 1 <= j <= m
    requires g.w.groups == if m > 1 then Wheels(c, m, i, j) else []
    ensures var r := TearAndTurn(g, t);
      && r.s.clusters == g.clusters && r.s.ftt == g.ftt && r.s.w.sc == g.w.sc
      && r.more == (m > 1 && !(i == m && j == m))
      && (r.more ==> ArmsSet(r.s, c, m, NextI(m, i, j), NextJ(m, i, j)))
  {
    hide HasStar, ArmsPaired, Inverse, AllOk, Turn, Teardown, TearAndTurn, Alternatives, SelectedProbes;
    var torn := Teardown(g.w, g.applied);
    StarFits(t, k, c, m);
    InverseFits(torn.tq, torn.rq, t.nend);
    var turn := Turn(torn.tq, torn.rq, g.w.groups, t.nend);
    if m > 1 {
      TurnStar(torn.tq, torn.rq, c, m, i, j, t.nend);
    } else {
      TurnNothing(torn.tq, torn.rq, t.nend);
    }
    TurnKeeps(torn.tq, torn.rq, g.w.groups, t.nend);
    TornStamps(g.w, g.applied);
    TearAndTurnIs(g, t, turn);
    if turn.more {
      SelectedArms(c, m, NextI(m, i, j), NextJ(m, i, j), t.nend);
    }
  }

  /** The state that the odometer hands to the next round. */
  lemma StarTurns(s: Search, t: Table, pr: Prints, k: nat, c: int, m: nat, i: int, j: int)
    returns (g: Search, s': Search, more: bool, cl: Cluster)
    requires Poised(s, t, pr, k, c, m, i, j)
    ensures GrowAndSettle(s, t, pr, k) == Ok(g) && IsRound(g, t, s', more)
    ensures s'.clusters == s.clusters + [cl] && LiesWithin(cl, c, c + 2 * m + 1) && s'.ftt == s.ftt + 1
    ensures StampsUpTo(s'.w.sc, s'.ftt)
    ensures i == 0 ==> SameOutside(s.w.sc, s'.w.sc, k, k + 2 * m + 1)
    ensures i == 0 && m == 1 ==> Stamps(s'.w.sc, k, k + 3)
    ensures var i1, j1 := if i == 0 then 1 else i, if i == 0 then 1 else j;
      && more == (m > 1 && !(i1 == m && j1 == m))
      && (more ==> ArmsSet(s', c, m, NextI(m, i1, j1), NextJ(m, i1, j1)))
  {
    hide Halfway, HasStar, RoundOk, ArmsPaired, WorkOk, LiesWithin, GrowAndSettle, Inverse, AllOk, Turn, Teardown,
      TearAndTurn, Alternatives, StampsUpTo, Stamps, SameOutside, SelectedProbes, Aligned, ArmsSet, AllWithin, IsRound,
      Wheels;
    var i1, j1 := if i == 0 then 1 else i, if i == 0 then 1 else j;
    var w;
    g, w, cl := StarSettles(s, t, pr, k, c, m, i, j);
    StarTearsDown(s, t, pr, k, c, m, i, j, g, w);
    StarFits(t, k, c, m);
    TornStarTurns(g, t, k, c, m, i1, j1);
    s', more := TearAndTurn(g, t).s, TearAndTurn(g, t).more;
    IsRoundIs(g, t, s', more);
    StarStamps(w, t, k, c, m, s.ftt + 1);
  }

  ghost predicate StampsUpTo(sc: seq<int>, ftt: int) {
    forall y :: 0 <= y < |sc| ==> sc[y] <= ftt
  }

  /** Rows `lo..hi` are stamped. */
  ghost predicate Stamps(sc: seq<int>, lo: nat, hi: nat) {
    hi <= |sc| && forall y :: lo <= y < hi ==> sc[y] != 0
  }

  /** The arms are set to alternatives `i` and `j`, the third unpaired. */
  ghost predicate ArmsSet(s: Search, c: int, m: nat, i: int, j: int) {
    && ArmsPaired(s.w.tq, c, c + i, c + m + j, 0) && s.w.groups == Wheels(c, m, i, j) && s.applied == [c + 1, c + 2]
  }

  lemma StarFits(t: Table, k: nat, c: int, m: nat)
    requires HasStar(t, k, c, m)
    ensures 1 <= c && c + 3 <= t.nend && c + 2 * m + 1 <= t.nend && m >= 1
  {
  }

  lemma TornStamps(w: Work, applied: seq<int>)
    requires w.q != []
    ensures Teardown(w, applied).sc == w.sc
  {
  }

  /** The three edges of the path carry its stamp, and none is higher. */
  lemma StarStamps(w: Work, t: Table, k: nat, c: int, m: nat, ftt: int)
    requires Halfway(w, t, k, k + 2 * m + 1, c, 3, ftt) && ftt != 0
    ensures StampsUpTo(w.sc, ftt) && (m == 1 ==> Stamps(w.sc, k, k + 3))
  {
    var p := w.path;
    assert Distinct(p) && |p| == 3;
    if m == 1 {
      assert p[0] != p[1] && p[0] != p[2] && p[1] != p[2];
      assert k + 1 <= p[0] <= k + 3 && k + 1 <= p[1] <= k + 3 && k + 1 <= p[2] <= k + 3;
    }
  }

  lemma TurnNothing(tq: seq<int>, rq: seq<int>, nend: nat)
    requires nend <= |tq| && nend <= |rq|
    ensures AllOk([], nend) && Turn(tq, rq, [], nend) == Turned(tq, rq, [], false)
  {
  }

  lemma SelectedArms(c: int, m: nat, i: int, j: int, nend: nat)
    requires 1 <= c && c + 3 <= nend && c + 2 * m + 1 <= nend && 1 <= i <= m && 1 <= j <= m
    ensures AllOk(Wheels(c, m, i, j), nend) && SelectedProbes(Wheels(c, m, i, j), nend, 0) == [c + 1, c + 2]
  {
    WheelsAreOk(c, m, i, j, nend);
    var ps := SelectedProbes(Wheels(c, m, i, j), nend, 0);
    assert ps[0] == c + 1 && ps[1] == c + 2;
  }

  // --- All rounds of a star -------------------------------------------------------------------

  /** Pairs of alternatives still to come. */
  ghost function Left(m: nat, i: int, j: int): (r: int) {
    if i == 0 then m * m - 1 else (m - i) * m + (m - j)
  }

  lemma LeftFalls(m: nat, i: int, j: int)
    requires 1 <= i <= m && 1 <= j <= m && !(i == m && j == m)
    ensures 0 <= Left(m, NextI(m, i, j), NextJ(m, i, j)) == Left(m, i, j) - 1
  {
    if j == m {
      assert (m - i) * m == (m - (i + 1)) * m + m;
      ScaleUp(m, 0, m - (i + 1));
    } else {
      ScaleUp(m, 0, m - i);
    }
  }

  lemma LeftAtFirst(m: nat, j: int)
    requires m >= 1
    ensures Left(m, 0, j) == Left(m, 1, 1) && Left(m, 1, 1) >= 0
  {
    assert (m - 1) * m + (m - 1) == m * m - 1;
    ScaleUp(m, 0, m - 1);
  }

  /** `cs'` is `cs` and clusters of one star. */
  ghost predicate Added(cs: seq<Cluster>, cs': seq<Cluster>, c: int, m: nat) {
    cs <= cs' && forall x :: |cs| <= x < |cs'| ==> LiesWithin(cs'[x], c, c + 2 * m + 1)
  }

  lemma AddedOneMore(cs: seq<Cluster>, cl: Cluster, cs': seq<Cluster>, c: int, m: nat)
    requires LiesWithin(cl, c, c + 2 * m + 1) && Added(cs + [cl], cs', c, m)
    ensures Added(cs, cs', c, m)
  {
    hide LiesWithin;
    forall x | |cs| <= x < |cs'| ensures LiesWithin(cs'[x], c, c + 2 * m + 1) {
      if x == |cs| { assert cs'[x] == (cs + [cl])[x]; }
    }
  }

  lemma PoisedIsOk(s: Search, t: Table, pr: Prints, k: nat, c: int, m: nat, i: int, j: int)
    requires Poised(s, t, pr, k, c, m, i, j)
    ensures RoundOk(s, t, pr, k) && AllOk(s.w.groups, t.nend)
  {
    hide RoundOk;
    if i != 0 { WheelsAreOk(c, m, i, j, t.nend); }
  }

  lemma PoisedAgain(s: Search, t: Table, pr: Prints, k: nat, c: int, m: nat, i: int, j: int)
    requires RoundOk(s, t, pr, k) && HasStar(t, k, c, m) && Aligned(t, pr) && 0 <= s.ftt && StampsUpTo(s.w.sc, s.ftt)
    requires 1 < m && 1 <= i <= m && 1 <= j <= m && ArmsSet(s, c, m, i, j)
    ensures Poised(s, t, pr, k, c, m, i, j)
  {
    hide RoundOk, HasStar, Aligned, ArmsPaired;
  }

  lemma PoisedFits(s: Search, t: Table, pr: Prints, k: nat, c: int, m: nat, i: int, j: int)
    requires Poised(s, t, pr, k, c, m, i, j)
    ensures PrintsFit(t, pr)
    ensures HasStar(t, k, c, m) && Aligned(t, pr) && 0 <= s.ftt && m >= 1 && (i == 0 || (1 <= i <= m && 1 <= j <= m))
  {
  }

  /** Every pair of alternatives from the current one on gives a cluster, unless there are too many of them. */
  lemma {:induction false} StarLoop(s: Search, t: Table, pr: Prints, k: nat, c: int, m: nat, i: int, j: int)
    requires Poised(s, t, pr, k, c, m, i, j)
    ensures RoundOk(s, t, pr, k) && AllOk(s.w.groups, t.nend)
    ensures var e := SeedLoop(s, t, pr, k);
      && !e.QueueFull? && Added(s.clusters, e.s.clusters, c, m)
      && (|e.s.clusters| > MAX_CLUSTERS || |e.s.clusters| > |s.clusters| + Left(m, i, j))
    decreases Left(m, i, j)
  {
    hide Poised, RoundOk, AllOk, SeedLoop, GrowAndSettle, HasStar, Aligned, Added, LiesWithin, Left, StampsUpTo,
      SameOutside, Stamps, ArmsSet, IsRound, Cleanup, TurnsLeft, Accounted;
    PoisedIsOk(s, t, pr, k, c, m, i, j);
    PoisedFits(s, t, pr, k, c, m, i, j);
    var g, s', more, cl := StarTurns(s, t, pr, k, c, m, i, j);
    SeedLoopStep(s, t, pr, k, s', more);
    AddedSelf(s.clusters, cl, c, m);
    var i1, j1 := if i == 0 then 1 else i, if i == 0 then 1 else j;
    LeftAtFirst(m, j);
    if more {
      LeftFalls(m, i1, j1);
      PoisedAgain(s', t, pr, k, c, m, NextI(m, i1, j1), NextJ(m, i1, j1));
      StarLoop(s', t, pr, k, c, m, NextI(m, i1, j1), NextJ(m, i1, j1));
      AddedOneMore(s.clusters, cl, SeedLoop(s', t, pr, k).s.clusters, c, m);
    } else {
      NoneLeft(m, i1, j1);
    }
  }

  lemma NoneLeft(m: nat, i: int, j: int)
    requires m >= 1 && i == m && j == m
    ensures Left(m, i, j) == 0
  {
  }

  lemma AddedSelf(cs: seq<Cluster>, cl: Cluster, c: int, m: nat)
    requires LiesWithin(cl, c, c + 2 * m + 1)
    ensures Added(cs, cs + [cl], c, m) && |cs + [cl]| == |cs| + 1
  {
  }

  // --- Every seed -----------------------------------------------------------------------------

  /** What the sweep keeps besides clean arrays: no stamp is above the path counter. */
  ghost predicate Stepping(s: Search, t: Table, pr: Prints) {
    SweepOk(s, t, pr) && Aligned(t, pr) && 0 <= s.ftt && StampsUpTo(s.w.sc, s.ftt) && |t.rows| < |s.w.sc|
  }

  lemma PlantedIsPoised(s: Search, t: Table, pr: Prints, k: nat, c: int, m: nat)
    requires Stepping(s, t, pr) && HasStar(t, k, c, m)
    ensures k < |t.rows| && 1 <= t.rows[k].pk <= |s.w.tq| && 1 <= t.rows[k].ga <= |s.w.rq| && t.rows[k].pk == c
    ensures Poised(Plant(s, t.rows[k]), t, pr, k, c, m, 0, 0)
  {
    hide ClustersOk, ArmRows;
    PlantIsReady(s, t, pr, k);
    var p := Plant(s, t.rows[k]);
    hide RoundOk;
    assert ArmsPaired(p.w.tq, c, 0, 0, 0);
  }

  /** A star without alternatives: its three rows become one cluster, and the sweep goes on behind them. */
  lemma UnitStar(s: Search, t: Table, pr: Prints, k: nat, c: int) returns (s': Search, cl: Cluster)
    requires Stepping(s, t, pr) && HasStar(t, k, c, 1) && k + 3 < |t.rows| && s.w.sc[k] == 0
    requires |s.clusters| < MAX_CLUSTERS
    ensures Stepping(s', t, pr) && Sweep(s, t, pr, k) == Sweep(s', t, pr, k + 3)
    ensures s'.clusters == s.clusters + [cl] && LiesWithin(cl, c, c + 3)
    ensures SameOutside(s.w.sc, s'.w.sc, k, k + 3)
  {
    hide Poised, RoundOk, AllOk, SeedLoop, GrowAndSettle, HasStar, Aligned, LiesWithin, StampsUpTo, SweepOk, Sweep,
      SameOutside, IsRound, TurnsLeft, Accounted, ArmsSet, Clean, ClustersOk;
    PlantedIsPoised(s, t, pr, k, c, 1);
    var p := Plant(s, t.rows[k]);
    PoisedIsOk(p, t, pr, k, c, 1, 0, 0);
    var g, s1, more;
    g, s1, more, cl := StarTurns(p, t, pr, k, c, 1, 0, 0);
    SeedLoopStep(p, t, pr, k, s1, more);
    SeedLeavesClean(p, t, pr, k);
    s' := s1.(w := Cleanup(s1.w, t.rows[k].pk));
    SweepStays(s, s', t, pr);
    OutsideStays(s.w.sc, s'.w.sc, k, k + 3, k + 3);
    SweepPlants(s, t, pr, k, Finished(s'));
    StampedRows(s1.w.sc, k);
    SweepSkips(s', t, pr, k + 1);
    SweepSkips(s', t, pr, k + 2);
  }

  lemma StampedRows(sc: seq<int>, k: nat)
    requires Stamps(sc, k, k + 3)
    ensures k + 3 <= |sc| && sc[k + 1] != 0 && sc[k + 2] != 0
  {
  }

  lemma SweepStays(s: Search, s': Search, t: Table, pr: Prints)
    requires SweepOk(s, t, pr) && Clean(s'.w, t) && ClustersOk(s'.clusters, t)
    ensures SweepOk(s', t, pr)
  {
  }

  /** The last star: whatever the rest of the sweep does, its clusters stay. */
  lemma WideStar(s: Search, t: Table, pr: Prints, k: nat, c: int, m: nat) returns (e: Ending, n: nat)
    requires Stepping(s, t, pr) && HasStar(t, k, c, m) && k + 1 < |t.rows| && s.w.sc[k] == 0 && Small(t)
    ensures SweepOk(s, t, pr) && e == Sweep(s, t, pr, k)
    ensures !e.QueueFull? && ClustersOk(e.s.clusters, t) && s.clusters <= e.s.clusters
    ensures StarPrefix(e.s.clusters, |s.clusters|, n, c, m) && (n > MAX_CLUSTERS || n >= |s.clusters| + m * m)
  {
    hide Poised, RoundOk, AllOk, SeedLoop, HasStar, Aligned, LiesWithin, StampsUpTo, SweepOk, Sweep, Clean, ClustersOk,
      TurnsLeft;
    PlantedIsPoised(s, t, pr, k, c, m);
    var p := Plant(s, t.rows[k]);
    PoisedIsOk(p, t, pr, k, c, m, 0, 0);
    StarLoop(p, t, pr, k, c, m, 0, 0);
    SeedLeavesClean(p, t, pr, k);
    var e1 := SeedLoop(p, t, pr, k);
    n := |e1.s.clusters|;
    if e1.Finished? {
      SweepStays(s, e1.s, t, pr);
      SweepKeepsClusters(e1.s, t, pr, k + 1);
    }
    SweepPlants(s, t, pr, k, e1);
    SmallTablesFit(s, t, pr, k);
    e := Sweep(s, t, pr, k);
    AddedIsPrefix(s.clusters, e1.s.clusters, e.s.clusters, c, m);
  }

  /** Clusters `lo..hi` are those of one star. */
  ghost predicate StarPrefix(cs: seq<Cluster>, lo: nat, hi: nat, c: int, m: nat) {
    hi <= |cs| && forall x :: lo <= x < hi ==> LiesWithin(cs[x], c, c + 2 * m + 1)
  }

  lemma AddedIsPrefix(cs: seq<Cluster>, cs1: seq<Cluster>, cs2: seq<Cluster>, c: int, m: nat)
    requires Added(cs, cs1, c, m) && cs1 <= cs2
    ensures StarPrefix(cs2, |cs|, |cs1|, c, m) && cs <= cs2
  {
    hide LiesWithin;
    forall x | |cs| <= x < |cs1| ensures LiesWithin(cs2[x], c, c + 2 * m + 1) {
      assert cs2[x] == cs1[x];
    }
  }

  // --- The table ------------------------------------------------------------------------------

  /** Row `x` of the star with centre `c` and `m` alternatives on each wide arm. */
  function StarRow(c: int, m: nat, x: nat): (r: ColpRow) {
    ColpRow(0, c, c + 1 + (if x < m then 0 else if x < 2 * m then 1 else 2), c, c + 1 + x)
  }

  /** Two stars without alternatives, and one with `m` on each wide arm: 2 * m + 7 rows. */
  function StarRows(m: nat): (rows: seq<ColpRow>)
    ensures |rows| == 2 * m + 7
    ensures forall x :: 0 <= x < |rows| ==>
      rows[x] == if x < 3 then StarRow(1, 1, x) else if x < 6 then StarRow(5, 1, x - 3) else StarRow(9, m, x - 6)
  {
    seq(2 * m + 7, x requires 0 <= x < 2 * m + 7 =>
      if x < 3 then StarRow(1, 1, x) else if x < 6 then StarRow(5, 1, x - 3) else StarRow(9, m, x - 6))
  }

  lemma StarTableFits(m: nat)
    requires 5 <= m <= 70
    ensures var t := Table(StarRows(m), 2 * m + 10);
      && Ordered(t.rows) && TableOk(t) && Small(t)
      && ArraySize(t) == 2 * m + 12 && HasStar(t, 0, 1, 1) && HasStar(t, 3, 5, 1) && HasStar(t, 6, 9, m)
  {
    hide StarRows, HasStar, Ordered, TableOk;
    var t := Table(StarRows(m), 2 * m + 10);
    StarRowsAreOrdered(m);
    StarRowsAreOk(m);
    StarIsThere(t, 0, 1, 1);
    StarIsThere(t, 3, 5, 1);
    StarIsThere(t, 6, 9, m);
  }

  lemma StarRowsAreOrdered(m: nat)
    ensures Ordered(StarRows(m))
  {
    hide StarRows;
  }

  lemma StarRowsAreOk(m: nat)
    requires m >= 1
    ensures TableOk(Table(StarRows(m), 2 * m + 10))
  {
    hide StarRows;
    forall x | 0 <= x < 2 * m + 7 ensures RowOk(StarRows(m)[x], 2 * m + 10) { }
  }

  lemma StarIsThere(t: Table, k: nat, c: int, m: nat)
    requires 1 <= c && 1 <= m && c + 2 * m + 1 <= t.nend && k + 2 * m + 1 <= |t.rows|
    requires forall x :: k <= x < k + 2 * m + 1 ==> t.rows[x] == StarRow(c, m, x - k)
    requires forall x :: k + 2 * m + 1 <= x < |t.rows| ==> t.rows[x].pk > c + 3 && t.rows[x].pj > c + 3
    ensures HasStar(t, k, c, m)
  {
  }

  /**
   * A table that takes the final loop out of its work arrays: with five alternatives it has 17 rows and 20
   * endpoints, arrays of 22 entries, and a chain of 26 clusters to copy into one of them.
   */
  lemma StarTableLeavesArrays(m: nat, t: Table, pr: Prints)
    requires 5 <= m <= 70 && t == Table(StarRows(m), 2 * m + 10) && PrintsFit(t, pr) && Aligned(t, pr)
    ensures TableOk(t) && Answers(SearchOf(t, pr), pr.angle, ArraySize(t), OutOfRange)
  {
    hide HasStar, Aligned, Ordered, TableOk, PrintsFit, Sweep, SweepOk, LeavesArrays, LiesWithin, StarRows, Initial,
      Stepping;
    StarTableFits(m);
    var s0 := Initial(ArraySize(t));
    StartsStepping(ArraySize(t), t, pr);
    var s1, a := UnitStar(s0, t, pr, 0, 1);
    OutsideStays(s0.w.sc, s1.w.sc, 0, 3, 3);
    OutsideStays(s0.w.sc, s1.w.sc, 0, 3, 6);
    var s2, b := UnitStar(s1, t, pr, 3, 5);
    OutsideStays(s1.w.sc, s2.w.sc, 3, 6, 6);
    var e, n := WideStar(s2, t, pr, 6, 9, m);
    var cs := e.s.clusters;
    assert s2.clusters == [a, b];
    assert cs[0] == s2.clusters[0] && cs[1] == s2.clusters[1];
    ScaleUp(m, 5, m);
    StarsOverrun(cs, pr.angle, m, n, t);
  }

  lemma StartsStepping(big: nat, t: Table, pr: Prints)
    requires TableOk(t) && PrintsFit(t, pr) && Aligned(t, pr) && |t.rows| < big && t.nend < big
    ensures Stepping(Initial(big), t, pr) && Initial(big).clusters == []
    ensures |Initial(big).w.sc| == big && forall y :: 0 <= y < big ==> Initial(big).w.sc[y] == 0
  {
    InitialIsOk(big, t, pr);
  }

  lemma OutsideStays(sc: seq<int>, sc': seq<int>, lo: int, hi: int, y: nat)
    requires SameOutside(sc, sc', lo, hi) && hi <= y < |sc|
    ensures |sc'| == |sc| && sc'[y] == sc[y]
  {
  }

  lemma StarsOverrun(cs: seq<Cluster>, angle: (int, int) -> int, m: nat, n: nat, t: Table)
    requires ClustersOk(cs, t) && StarPrefix(cs, 2, n, 9, m) && n >= 2 * m + 14
    requires LiesWithin(cs[0], 1, 4) && LiesWithin(cs[1], 5, 8)
    ensures LeavesArrays(cs, angle, 2 * m + 12)
  {
    hide Compatible, LiesWithin, LeavesArrays;
    forall i | 0 <= i < |cs| ensures |cs[i].edges| >= MSTR {
      assert ClusterOk(cs[i], t);
    }
    LevelAreCompatible(cs[0], cs[1], angle, 4, 5, 8);
    LiesWider(cs[1]);
    forall j | 2 <= j < 2 * m + 14 ensures Compatible(cs[0], cs[j], angle) && Compatible(cs[1], cs[j], angle) {
      LevelAreCompatible(cs[0], cs[j], angle, 4, 9, 9 + 2 * m + 1);
      LevelAreCompatible(cs[1], cs[j], angle, 8, 9, 9 + 2 * m + 1);
    }
    HubsOverrun(cs, angle, 2 * m + 12, 2 * m + 12);
  }

  lemma LiesWider(cl: Cluster)
    requires LiesWithin(cl, 5, 8)
    ensures LiesWithin(cl, 1, 8)
  {
  }
}
