/** How long the queue of a path can get: a table small enough never overflows it. */
module QueueBounds {
  import opened Consts
  import opened Seqs
  import opened Paths
  import opened PathFacts
  import opened Odometer
  import opened Clusters
  import opened ScoreFacts
  import opened Seeds

  /** The probe endpoints that are paired. */
  ghost function PairedEnds(tq: seq<int>): (r: set<int>) {
    set e | e in UpTo(|tq|) && tq[e - 1] != 0
  }

  /** Each queued endpoint was newly paired or came with an edge new to the path. */
  ghost predicate QueueShort(w: Work) {
    |w.q| <= 1 + |w.path| + |PairedEnds(w.tq)|
  }

  /** The table cannot fill the queue. */
  predicate Small(t: Table) {
    |t.rows| + t.nend + 1 < QQ_SIZE
  }

  lemma QueueHasRoom(w: Work, t: Table, ftt: int)
    requires WorkOk(w, t, ftt) && QueueShort(w) && Small(t)
    ensures |w.q| < QQ_SIZE
  {
    DistinctWithinIsShort(w.path, |t.rows|);
    SubsetIsSmaller(PairedEnds(w.tq), UpTo(t.nend));
  }

  lemma OneMorePaired(tq: seq<int>, p: int, g: int)
    requires 1 <= p <= |tq| && tq[p - 1] == 0 && g != 0
    ensures |PairedEnds(tq[p - 1 := g])| == |PairedEnds(tq)| + 1
  {
    assert PairedEnds(tq[p - 1 := g]) == PairedEnds(tq) + {p};
  }

  lemma SiftKeepsShort(w: Work, t: Table, kz: int, l: int, kx: int, ftt: int)
    requires WorkOk(w, t, ftt) && QueueShort(w) && Small(t)
    requires IsEndpoint(kz, t.nend) && IsEndpoint(l, t.nend) && 1 <= kx <= |t.rows|
    ensures var r := Sift(w, t, kz, l, kx, ftt); r.Ok? && QueueShort(r.value)
  {
    hide PairedEnds, Inverse, GroupsOk, QueueOk, PathOk, Conflict;
    QueueHasRoom(w, t, ftt);
    InverseFits(w.tq, w.rq, t.nend);
    if w.tq[kz - 1] == 0 {
      OneMorePaired(w.tq, kz, l);
    }
    if !(w.tq[kz - 1] == 0 && w.rq[l - 1] == 0) && w.tq[kz - 1] != l {
      ConflictKeepsGroups(w, t, kz, l);
    }
  }

  lemma SiftRowKeepsShort(w: Work, t: Table, i: nat, forward: bool, ftt: int)
    requires WorkOk(w, t, ftt) && QueueShort(w) && Small(t) && i < |t.rows|
    ensures var r := SiftRow(w, t, i, forward, ftt); r.Ok? && QueueShort(r.value)
  {
    var row := t.rows[i];
    assert RowOk(row, t.nend);
    hide Sift, QueueShort;
    if forward { SiftKeepsShort(w, t, row.pj, row.gb, i + 1, ftt); }
    else { SiftKeepsShort(w, t, row.pk, row.ga, i + 1, ftt); }
  }

  lemma {:induction false} SiftAllKeepsShort(w: Work, t: Table, idx: seq<nat>, forward: bool, ftt: int)
    requires WorkOk(w, t, ftt) && QueueShort(w) && Small(t) && Indices(idx, |t.rows|)
    ensures var r := SiftAll(w, t, idx, forward, ftt); r.Ok? && QueueShort(r.value)
  {
    hide WorkOk, QueueShort, Small, SiftRow;
    if idx != [] {
      var m := |idx| - 1;
      SiftAllKeepsShort(w, t, idx[..m], forward, ftt);
      SiftRowKeepsShort(SiftAll(w, t, idx[..m], forward, ftt).value, t, idx[m], forward, ftt);
    }
  }

  lemma ExpandKeepsShort(w: Work, t: Table, k: nat, kq: nat, j: nat, ftt: int)
    requires WorkOk(w, t, ftt) && QueueShort(w) && Small(t) && k < |t.rows| && 1 <= j < |w.q|
    ensures var r := Expand(w, t, k, kq, j, ftt); r.Ok? && QueueShort(r.value)
  {
    hide WorkOk, QueueShort, Small, SiftAll, RowsEndingAt, RowsStartingAt;
    QueueFits(w, t, ftt, j);
    var p, n := w.q[j], |t.rows|;
    var g := w.tq[p - 1];
    SiftAllKeepsShort(w, t, RowsEndingAt(t.rows, kq, n, p, g, t.rows[k]), false, ftt);
    var w1 := SiftAll(w, t, RowsEndingAt(t.rows, kq, n, p, g, t.rows[k]), false, ftt).value;
    SiftAllKeepsShort(w1, t, RowsStartingAt(t.rows, kq, n, p, g), true, ftt);
  }

  lemma {:induction false} ExploreKeepsShort(w: Work, t: Table, k: nat, kq: nat, j: nat, ftt: int)
    requires WorkOk(w, t, ftt) && QueueShort(w) && Small(t) && k < |t.rows| && 1 <= j
    ensures var r := Explore(w, t, k, kq, j, ftt); r.Ok?
    decreases QQ_SIZE - j
  {
    QueueHasRoom(w, t, ftt);
    hide WorkOk, QueueShort, Small, Expand;
    if j < |w.q| {
      ExpandKeepsShort(w, t, k, kq, j, ftt);
      ExploreKeepsShort(Expand(w, t, k, kq, j, ftt).value, t, k, kq, j + 1, ftt);
    }
  }

  lemma SmallPathFits(w: Work, t: Table, k: nat, ftt: int)
    requires k < |t.rows| && WorkOk(Fresh(w, t.rows[k]), t, ftt) && Small(t)
    ensures Grow(w, t, k, ftt).Ok?
  {
    var w0, kq := Fresh(w, t.rows[k]), SeedEnd(t.rows, k, k + 1);
    assert QueueShort(w0);
    hide WorkOk, QueueShort, Small, SiftAll, Explore;
    SiftAllKeepsShort(w0, t, RowRange(k, kq), true, ftt);
    ExploreKeepsShort(SiftAll(w0, t, RowRange(k, kq), true, ftt).value, t, k, kq, 1, ftt);
  }

  lemma SmallRoundFits(s: Search, t: Table, pr: Prints, k: nat)
    requires RoundOk(s, t, pr, k) && Small(t)
    ensures GrowAndSettle(s, t, pr, k).Ok?
  {
    hide Grow, Small, ClustersOk, WorkOk, Grown;
    ReadyGrows(s.w, t, t.rows[k], s.ftt + 1) by { assert RowOk(t.rows[k], t.nend); }
    SmallPathFits(s.w, t, k, s.ftt + 1);
  }

  lemma {:induction false} SmallSeedFits(s: Search, t: Table, pr: Prints, k: nat)
    requires RoundOk(s, t, pr, k) && AllOk(s.w.groups, t.nend) && Small(t)
    ensures !SeedLoop(s, t, pr, k).QueueFull?
    decreases TurnsLeft(s.w.groups, t.nend)
  {
    hide RoundOk, AllOk, GrowAndSettle, TearAndTurn, Small, Inverse, AllWithin, Accounted;
    SmallRoundFits(s, t, pr, k);
    RoundKeeps(s, t, pr, k);
    var r := TearAndTurn(GrowAndSettle(s, t, pr, k).value, t);
    if r.more && |r.s.clusters| <= MAX_CLUSTERS {
      SmallSeedFits(r.s, t, pr, k);
    }
  }

  /** On a table whose rows and endpoints number less than 3999 the search never overflows its queue. */
  lemma {:induction false} SmallTablesFit(s: Search, t: Table, pr: Prints, k: nat)
    requires SweepOk(s, t, pr) && Small(t)
    ensures !Sweep(s, t, pr, k).QueueFull?
    decreases |t.rows| - k
  {
    hide ClustersOk, SeedLoop, Small;
    if k + 1 < |t.rows| {
      if s.w.sc[k] != 0 {
        SmallTablesFit(s, t, pr, k + 1);
      } else {
        PlantIsReady(s, t, pr, k);
        var p := Plant(s, t.rows[k]);
        SeedLeavesClean(p, t, pr, k);
        hide RoundOk, AllOk;
        SmallSeedFits(p, t, pr, k);
        var r := SeedLoop(p, t, pr, k);
        if r.Finished? { SmallTablesFit(r.s, t, pr, k + 1); }
      }
    }
  }
}
