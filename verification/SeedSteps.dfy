/** The search over the seeds unfolded one step at a time, for the loops that run it. */
module SeedSteps {
  import opened Consts
  import opened Seqs
  import opened Paths
  import opened Odometer
  import opened OdometerFacts
  import opened Clusters
  import opened Seeds

  lemma GrowSettleIs(s: Search, w: Work, t: Table, pr: Prints, k: nat)
    requires RoundOk(s, t, pr, k) && WorkOk(Fresh(s.w, t.rows[k]), t, s.ftt + 1) && Grow(s.w, t, k, s.ftt + 1) == Ok(w)
    ensures AllWithin(w.path, 1, |t.rows|) && Distinct(w.path) && |w.sc| == |w.rk|
    ensures GrowAndSettle(s, t, pr, k) == Ok(Settle(Search(w, s.ftt + 1, s.clusters, s.applied), t, pr))
    ensures WorkOk(GrowAndSettle(s, t, pr, k).value.w, t, 0)
  {
    hide Grow, Settle, Grown, Fresh, Ready;
  }

  lemma GrowOverflows(s: Search, t: Table, pr: Prints, k: nat)
    requires RoundOk(s, t, pr, k) && WorkOk(Fresh(s.w, t.rows[k]), t, s.ftt + 1) && Grow(s.w, t, k, s.ftt + 1).Overflow?
    ensures GrowAndSettle(s, t, pr, k).Overflow?
  {
    hide Grow, Settle, Grown, Fresh, Ready, WorkOk;
  }

  lemma TearIsSound(g: Search, t: Table)
    requires WorkOk(g.w, t, 0) && AllWithin(g.applied, 1, t.nend)
    ensures g.w.q != [] && Inverse(g.w.tq, g.w.rq, t.nend) && AllOk(g.w.groups, t.nend) && AllWithin(g.w.q, 1, t.nend)
    ensures var w := Teardown(g.w, g.applied); Inverse(w.tq, w.rq, t.nend)
  {
    GroupsAreAllOk(g.w.cp, g.w.rp, g.w.groups, t.nend);
    assert AllWithin(g.w.q[1..] + g.applied, 1, t.nend);
    UnpairKeepsInverse(g.w.tq, g.w.rq, t.nend, g.w.q[1..] + g.applied);
  }

  lemma TearAndTurnIs(g: Search, t: Table, turn: Turned)
    requires g.w.q != [] && Inverse(g.w.tq, g.w.rq, t.nend) && AllOk(g.w.groups, t.nend)
    requires AllWithin(g.w.q, 1, t.nend) && AllWithin(g.applied, 1, t.nend)
    requires var w := Teardown(g.w, g.applied);
      && Inverse(w.tq, w.rq, t.nend) && turn == Turn(w.tq, w.rq, g.w.groups, t.nend) && AllOk(turn.groups, t.nend)
    ensures TearAndTurn(g, t).more == turn.more
    ensures TearAndTurn(g, t).s ==
      Search(Teardown(g.w, g.applied).(tq := turn.tq, rq := turn.rq, groups := turn.groups), g.ftt, g.clusters,
             if turn.more then SelectedProbes(turn.groups, t.nend, 0) else [])
  {
    hide AllOk, Inverse, Turn;
  }

  /** `s` is what tearing `g` down and turning the odometer leaves. */
  ghost predicate IsRound(g: Search, t: Table, s: Search, more: bool) {
    && g.w.q != [] && Inverse(g.w.tq, g.w.rq, t.nend) && AllOk(g.w.groups, t.nend)
    && AllWithin(g.w.q, 1, t.nend) && AllWithin(g.applied, 1, t.nend)
    && TearAndTurn(g, t) == Seeds.Round(s, more)
  }

  lemma IsRoundIs(g: Search, t: Table, s: Search, more: bool)
    requires g.w.q != [] && Inverse(g.w.tq, g.w.rq, t.nend) && AllOk(g.w.groups, t.nend)
    requires AllWithin(g.w.q, 1, t.nend) && AllWithin(g.applied, 1, t.nend)
    requires TearAndTurn(g, t).s == s && TearAndTurn(g, t).more == more
    ensures IsRound(g, t, s, more)
  {
  }

  lemma SeedLoopStep(s: Search, t: Table, pr: Prints, k: nat, s': Search, more: bool)
    requires RoundOk(s, t, pr, k) && AllOk(s.w.groups, t.nend)
    requires GrowAndSettle(s, t, pr, k).Ok? && IsRound(GrowAndSettle(s, t, pr, k).value, t, s', more)
    ensures RoundOk(s', t, pr, k) && AllOk(s'.w.groups, t.nend)
    ensures SeedLoop(s, t, pr, k) ==
      if |s'.clusters| > MAX_CLUSTERS then ClustersFull(s')
      else if more then SeedLoop(s', t, pr, k)
      else Finished(s'.(w := Cleanup(s'.w, t.rows[k].pk)))
    ensures more ==> TurnsLeft(s'.w.groups, t.nend) < TurnsLeft(s.w.groups, t.nend)
    ensures !more ==> Accounted(s'.w.tq, t.rows[k].pk, [])
  {
    hide RoundOk, AllOk, Inverse, AllWithin, GrowAndSettle, TearAndTurn, Cleanup, TurnsLeft, Accounted;
    RoundKeeps(s, t, pr, k);
  }

  lemma SeedLoopOverflows(s: Search, t: Table, pr: Prints, k: nat)
    requires RoundOk(s, t, pr, k) && AllOk(s.w.groups, t.nend) && GrowAndSettle(s, t, pr, k).Overflow?
    ensures SeedLoop(s, t, pr, k) == QueueFull
  {
    hide RoundOk, AllOk, GrowAndSettle;
  }

  /** `e` is how the search from seed row `k` ends. */
  ghost predicate SeedOf(e: Ending, s: Search, t: Table, pr: Prints, k: nat) {
    && k < |t.rows| && SweepOk(s, t, pr) && 1 <= t.rows[k].pk <= |s.w.tq| && 1 <= t.rows[k].ga <= |s.w.rq|
    && RoundOk(Plant(s, t.rows[k]), t, pr, k) && AllOk(Plant(s, t.rows[k]).w.groups, t.nend)
    && e == SeedLoop(Plant(s, t.rows[k]), t, pr, k)
  }

  lemma SweepSkips(s: Search, t: Table, pr: Prints, k: nat)
    requires SweepOk(s, t, pr) && k + 1 < |t.rows| && k < |s.w.sc| && s.w.sc[k] != 0
    ensures Sweep(s, t, pr, k) == Sweep(s, t, pr, k + 1)
  {
    hide SweepOk, SeedLoop;
  }

  lemma SweepPlants(s: Search, t: Table, pr: Prints, k: nat, e1: Ending)
    requires SweepOk(s, t, pr) && k + 1 < |t.rows| && k < |s.w.sc| && s.w.sc[k] == 0 && SeedOf(e1, s, t, pr, k)
    requires e1.Finished? ==> SweepOk(e1.s, t, pr)
    ensures Sweep(s, t, pr, k) == if e1.Finished? then Sweep(e1.s, t, pr, k + 1) else e1
  {
    hide SweepOk, SeedLoop, RoundOk, AllOk;
  }

  lemma SweepDone(s: Search, t: Table, pr: Prints, k: nat)
    requires SweepOk(s, t, pr) && k + 1 >= |t.rows|
    ensures Sweep(s, t, pr, k) == Finished(s)
  {
  }

  lemma MarkCleared(zz0: seq<int>, ps: seq<int>, e: int, nend: nat)
    requires IsEndpoint(e, nend) && nend <= |zz0|
    ensures Unmarked(zz0, [e] + ps) == Unmarked(zz0, ps)[e - 1 := 1000]
    ensures e in ps ==> Unmarked(zz0, [e] + ps) == Unmarked(zz0, ps)
  {
  }

  lemma GroupEndFits(cp0: seq<int>, rp0: seq<int>, gs: seq<Group>, nend: nat, i: nat)
    requires GroupsOk(cp0, rp0, gs, nend) && i < |gs|
    ensures 1 <= gs[i].end <= |cp0| && gs[i].end <= |rp0|
  {
    assert GroupOk(gs[i], nend);
  }

  lemma EraseStep(book: seq<int>, gs: seq<Group>, i: nat, side: bool)
    requires i < |gs| && 1 <= gs[i].end <= |book|
    ensures Erased(book, gs[i..], side) ==
      if gs[i].ofProbe == side then Erased(book, gs[i + 1..], side)[gs[i].end - 1 := 0]
      else Erased(book, gs[i + 1..], side)
  {
    var a, b := gs[i..], gs[i + 1..];
    forall e | 1 <= e <= |book|
      ensures HasGroup(a, side, e) <==> HasGroup(b, side, e) || (gs[i].ofProbe == side && gs[i].end == e)
    {
      if HasGroup(b, side, e) {
        var c :| 0 <= c < |b| && b[c].ofProbe == side && b[c].end == e;
        assert a[c + 1] == b[c];
      }
      if c :| 0 <= c < |a| && a[c].ofProbe == side && a[c].end == e {
        assert c > 0 ==> b[c - 1] == a[c];
      }
      assert a[0] == gs[i];
    }
  }
}
