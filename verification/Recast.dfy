/**
 * The course of the search does not depend on where the minutiae lie: on other prints with the same table
 * it takes the same paths, and its clusters are those paths' clusters on the other prints.
 */
module Recast {
  import opened Consts
  import opened Seqs
  import opened Paths
  import opened Odometer
  import opened Clusters
  import opened ScoreFacts
  import opened Seeds
  import opened SeedSteps
  import opened Matcher

  /** The clusters of the same edges on the prints `pr`. */
  function OnPrints(cs: seq<Cluster>, t: Table, pr: Prints): (r: seq<Cluster>)
    requires ClustersOk(cs, t) && PrintsFit(t, pr)
    ensures |r| == |cs|
    ensures forall i :: 0 <= i < |cs| ==> ClusterOk(cs[i], t) && r[i] == ClusterOf(cs[i].edges, t, pr)
  {
    seq(|cs|, i requires 0 <= i < |cs| => assert ClusterOk(cs[i], t); ClusterOf(cs[i].edges, t, pr))
  }

  lemma OnPrintsIsOk(cs: seq<Cluster>, t: Table, pr: Prints)
    requires ClustersOk(cs, t) && PrintsFit(t, pr)
    ensures ClustersOk(OnPrints(cs, t, pr), t)
  {
    hide ClusterOf;
    forall i | 0 <= i < |cs| ensures ClusterOk(OnPrints(cs, t, pr)[i], t) {
      assert ClusterOk(cs[i], t);
      ClusterOfIsOk(cs[i].edges, t, pr);
    }
  }

  lemma OnPrintsSnoc(cs: seq<Cluster>, path: seq<int>, t: Table, pr0: Prints, pr: Prints)
    requires ClustersOk(cs, t) && PrintsFit(t, pr0) && PrintsFit(t, pr)
    requires MSTR <= |path| && Distinct(path) && AllWithin(path, 1, |t.rows|)
    ensures ClustersOk(cs + [ClusterOf(path, t, pr0)], t)
    ensures OnPrints(cs + [ClusterOf(path, t, pr0)], t, pr) == OnPrints(cs, t, pr) + [ClusterOf(path, t, pr)]
  {
    hide ClusterOf, ClusterOk, PrintsFit, Distinct, AllWithin;
    ClusterOfIsOk(path, t, pr0);
    ClusterHasEdges(path, t, pr0);
  }

  lemma ClusterHasEdges(path: seq<int>, t: Table, pr: Prints)
    requires path != [] && AllWithin(path, 1, |t.rows|) && PrintsFit(t, pr)
    ensures ClusterOf(path, t, pr).edges == path
  {
  }

  function SearchOn(s: Search, t: Table, pr: Prints): (r: Search)
    requires ClustersOk(s.clusters, t) && PrintsFit(t, pr)
  {
    s.(clusters := OnPrints(s.clusters, t, pr))
  }

  lemma SettleRecasts(s: Search, t: Table, pr: Prints, pr': Prints)
    requires WorkOk(s.w, t, s.ftt) && PrintsFit(t, pr) && PrintsFit(t, pr') && ClustersOk(s.clusters, t)
    ensures AllWithin(s.w.path, 1, |t.rows|) && Distinct(s.w.path) && |s.w.sc| == |s.w.rk|
    ensures ClustersOk(Settle(s, t, pr).clusters, t)
    ensures Settle(SearchOn(s, t, pr'), t, pr') == SearchOn(Settle(s, t, pr), t, pr')
  {
    hide PrintsFit, ClusterOf, RolledBack, ClustersOk, OnPrints, Pruned;
    SettleKeeps(s, t, pr);
    PrunedKeeps(s.w.path, t.rows);
    var kept := Pruned(s.w.path, t.rows);
    if |kept| >= MSTR {
      OnPrintsSnoc(s.clusters, kept, t, pr, pr');
    }
  }

  lemma RoundOkOn(s: Search, t: Table, pr: Prints, pr': Prints, k: nat)
    requires RoundOk(s, t, pr, k) && PrintsFit(t, pr')
    ensures ClustersOk(s.clusters, t) && RoundOk(SearchOn(s, t, pr'), t, pr', k)
  {
    OnPrintsIsOk(s.clusters, t, pr');
    hide PrintsFit, ClustersOk, Ready, Accounted;
  }

  function OutcomeOn(o: Outcome<Search>, t: Table, pr: Prints): (r: Outcome<Search>)
    requires PrintsFit(t, pr) && (o.Ok? ==> ClustersOk(o.value.clusters, t))
  {
    match o
    case Overflow => Overflow
    case Ok(s) => Ok(SearchOn(s, t, pr))
  }

  lemma GrowRecasts(s: Search, t: Table, pr: Prints, pr': Prints, k: nat)
    requires RoundOk(s, t, pr, k) && PrintsFit(t, pr')
    ensures ClustersOk(s.clusters, t) && RoundOk(SearchOn(s, t, pr'), t, pr', k)
    ensures GrowAndSettle(s, t, pr, k).Ok? ==> ClustersOk(GrowAndSettle(s, t, pr, k).value.clusters, t)
    ensures GrowAndSettle(SearchOn(s, t, pr'), t, pr', k) == OutcomeOn(GrowAndSettle(s, t, pr, k), t, pr')
  {
    hide PrintsFit, RoundOk, Grow, WorkOk, Settle, GrowAndSettle, Fresh, ClustersOk, OnPrints;
    RoundOkOn(s, t, pr, pr', k);
    RoundGrows(s, t, pr, k);
    RoundGrows(SearchOn(s, t, pr'), t, pr', k);
    var o := Grow(s.w, t, k, s.ftt + 1);
    if o.Ok? {
      GrowSettleIs(s, o.value, t, pr, k);
      GrowSettleIs(SearchOn(s, t, pr'), o.value, t, pr', k);
      SettleRecasts(Search(o.value, s.ftt + 1, s.clusters, s.applied), t, pr, pr');
    } else {
      GrowOverflows(s, t, pr, k);
      GrowOverflows(SearchOn(s, t, pr'), t, pr', k);
    }
  }

  lemma RoundGrows(s: Search, t: Table, pr: Prints, k: nat)
    requires RoundOk(s, t, pr, k)
    ensures k < |t.rows| && PrintsFit(t, pr) && WorkOk(Fresh(s.w, t.rows[k]), t, s.ftt + 1)
  {
    assert RowOk(t.rows[k], t.nend);
    ReadyGrows(s.w, t, t.rows[k], s.ftt + 1);
  }

  lemma TearRecasts(g: Search, t: Table, pr': Prints, s: Search, more: bool)
    requires IsRound(g, t, s, more) && ClustersOk(g.clusters, t) && PrintsFit(t, pr')
    ensures s.clusters == g.clusters && IsRound(SearchOn(g, t, pr'), t, SearchOn(s, t, pr'), more)
  {
    hide Inverse, AllOk, Turn, OnPrints, Teardown, ClustersOk, PrintsFit;
  }

  function EndingOn(e: Ending, t: Table, pr: Prints): (r: Ending)
    requires PrintsFit(t, pr) && (!e.QueueFull? ==> ClustersOk(e.s.clusters, t))
  {
    match e
    case QueueFull => QueueFull
    case ClustersFull(s) => ClustersFull(SearchOn(s, t, pr))
    case Finished(s) => Finished(SearchOn(s, t, pr))
  }

  lemma RoundLeads(s: Search, t: Table, pr: Prints, k: nat, g: Search) returns (s1: Search, more: bool)
    requires RoundOk(s, t, pr, k) && GrowAndSettle(s, t, pr, k) == Ok(g)
    ensures IsRound(g, t, s1, more) && RoundOk(s1, t, pr, k)
  {
    hide RoundOk, GrowAndSettle, TearAndTurn, Inverse, AllOk, AllWithin;
    RoundGoesOn(s, t, pr, k, g);
    s1, more := TearAndTurn(g, t).s, TearAndTurn(g, t).more;
    IsRoundIs(g, t, s1, more);
  }

  lemma {:induction false} SeedLoopRecasts(s: Search, t: Table, pr: Prints, pr': Prints, k: nat)
    requires RoundOk(s, t, pr, k) && PrintsFit(t, pr') && AllOk(s.w.groups, t.nend)
    ensures ClustersOk(s.clusters, t) && RoundOk(SearchOn(s, t, pr'), t, pr', k)
    ensures var e := SeedLoop(s, t, pr, k); !e.QueueFull? ==> ClustersOk(e.s.clusters, t)
    ensures SeedLoop(SearchOn(s, t, pr'), t, pr', k) == EndingOn(SeedLoop(s, t, pr, k), t, pr')
    decreases TurnsLeft(s.w.groups, t.nend)
  {
    hide RoundOk, GrowAndSettle, AllOk, IsRound, TurnsLeft, OnPrints, SeedLoop, Accounted, Cleanup, PrintsFit,
      ClustersOk;
    GrowRecasts(s, t, pr, pr', k);
    SeedLeavesClean(s, t, pr, k);
    var o, s' := GrowAndSettle(s, t, pr, k), SearchOn(s, t, pr');
    if o.Overflow? {
      SeedLoopOverflows(s, t, pr, k);
      SeedLoopOverflows(s', t, pr', k);
    } else {
      var s1, more := RoundLeads(s, t, pr, k, o.value);
      TearRecasts(o.value, t, pr', s1, more);
      SeedLoopStep(s, t, pr, k, s1, more);
      SeedLoopStep(s', t, pr', k, SearchOn(s1, t, pr'), more);
      if more && |s1.clusters| <= MAX_CLUSTERS {
        SeedLoopRecasts(s1, t, pr, pr', k);
      }
    }
  }

  lemma SweepOkOn(s: Search, t: Table, pr: Prints, pr': Prints)
    requires SweepOk(s, t, pr) && PrintsFit(t, pr')
    ensures ClustersOk(s.clusters, t) && SweepOk(SearchOn(s, t, pr'), t, pr') && |t.rows| < |s.w.sc|
  {
    OnPrintsIsOk(s.clusters, t, pr');
  }

  /** The search on other prints is the search on these with the clusters of the other prints. */
  lemma {:induction false} SweepRecasts(s: Search, t: Table, pr: Prints, pr': Prints, k: nat)
    requires SweepOk(s, t, pr) && PrintsFit(t, pr')
    ensures ClustersOk(s.clusters, t) && SweepOk(SearchOn(s, t, pr'), t, pr')
    ensures var e := Sweep(s, t, pr, k); !e.QueueFull? ==> ClustersOk(e.s.clusters, t)
    ensures Sweep(SearchOn(s, t, pr'), t, pr', k) == EndingOn(Sweep(s, t, pr, k), t, pr')
    decreases |t.rows| - k
  {
    hide SweepOk, RoundOk, AllOk, SeedLoop, SeedOf, OnPrints, Sweep, PrintsFit, ClustersOk, Clean;
    SweepOkOn(s, t, pr, pr');
    SweepKeepsClusters(s, t, pr, k);
    var s' := SearchOn(s, t, pr');
    if k + 1 >= |t.rows| {
      SweepDone(s, t, pr, k);
      SweepDone(s', t, pr', k);
    } else if s.w.sc[k] != 0 {
      SweepSkips(s, t, pr, k);
      SweepSkips(s', t, pr', k);
      SweepRecasts(s, t, pr, pr', k + 1);
    } else {
      var e1 := SeedRecasts(s, t, pr, pr', k);
      SweepPlants(s, t, pr, k, e1);
      SweepPlants(s', t, pr', k, EndingOn(e1, t, pr'));
      if e1.Finished? {
        SweepRecasts(e1.s, t, pr, pr', k + 1);
      }
    }
  }

  /** One seed on both prints. */
  lemma SeedRecasts(s: Search, t: Table, pr: Prints, pr': Prints, k: nat) returns (e: Ending)
    requires SweepOk(s, t, pr) && PrintsFit(t, pr') && k < |t.rows|
    ensures ClustersOk(s.clusters, t) && SweepOk(SearchOn(s, t, pr'), t, pr')
    ensures SeedOf(e, s, t, pr, k) && (!e.QueueFull? ==> ClustersOk(e.s.clusters, t))
    ensures SeedOf(EndingOn(e, t, pr'), SearchOn(s, t, pr'), t, pr', k)
    ensures e.Finished? ==> SweepOk(e.s, t, pr) && SweepOk(SearchOn(e.s, t, pr'), t, pr')
  {
    hide SweepOk, RoundOk, SeedLoop, OnPrints, Plant, AllOk, PrintsFit, ClustersOk;
    SweepOkOn(s, t, pr, pr');
    e := SeedIs(s, t, pr, k);
    var e' := SeedIs(SearchOn(s, t, pr'), t, pr', k);
    PlantRecasts(s, t, pr', k);
    SeedLoopRecasts(Plant(s, t.rows[k]), t, pr, pr', k);
  }

  lemma SeedIs(s: Search, t: Table, pr: Prints, k: nat) returns (e: Ending)
    requires SweepOk(s, t, pr) && k < |t.rows|
    ensures SeedOf(e, s, t, pr, k) && (e.Finished? ==> SweepOk(e.s, t, pr))
    ensures !e.QueueFull? ==> ClustersOk(e.s.clusters, t)
  {
    assert RowOk(t.rows[k], t.nend);
    PlantIsReady(s, t, pr, k);
    hide RoundOk, Clean, ClustersOk, PrintsFit, SeedLoop, TableOk;
    SeedLeavesClean(Plant(s, t.rows[k]), t, pr, k);
    e := SeedLoop(Plant(s, t.rows[k]), t, pr, k);
  }

  lemma PlantRecasts(s: Search, t: Table, pr': Prints, k: nat)
    requires k < |t.rows| && 1 <= t.rows[k].pk <= |s.w.tq| && 1 <= t.rows[k].ga <= |s.w.rq|
    requires ClustersOk(s.clusters, t) && PrintsFit(t, pr')
    ensures Plant(SearchOn(s, t, pr'), t.rows[k]) == SearchOn(Plant(s, t.rows[k]), t, pr')
  {
    hide ClustersOk, OnPrints, PrintsFit;
  }

  /** The whole search, on any two pairs of prints with the same table. */
  lemma SearchRecasts(t: Table, pr: Prints, pr': Prints)
    requires TableOk(t) && PrintsFit(t, pr) && PrintsFit(t, pr')
    ensures var e := SearchOf(t, pr); !e.QueueFull? ==> ClustersOk(e.s.clusters, t)
    ensures SearchOf(t, pr') == EndingOn(SearchOf(t, pr), t, pr')
  {
    hide PrintsFit, TableOk, Sweep, SweepOk, Initial, ClustersOk;
    InitialIsOk(ArraySize(t), t, pr);
    SweepRecasts(Initial(ArraySize(t)), t, pr, pr', 0);
    NothingRecasts(ArraySize(t), t, pr');
  }

  lemma NothingRecasts(big: nat, t: Table, pr: Prints)
    requires PrintsFit(t, pr)
    ensures ClustersOk(Initial(big).clusters, t) && SearchOn(Initial(big), t, pr) == Initial(big)
  {
  }
}
