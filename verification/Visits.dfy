/**
 * What a round leaves of the stamps: a path that becomes a cluster keeps its own, and a path that is rolled back
 * leaves on each edge it had kept the stamp from before, or -1. So a row once stamped stays stamped, every seed
 * is, and a search that comes to its end has been through every row of the table but the last.
 */
module Visits {
  import opened Consts
  import opened Seqs
  import opened Paths
  import opened PathFacts
  import opened Reach
  import opened Odometer
  import opened OdometerFacts
  import opened Clusters
  import opened ScoreFacts
  import opened Seeds
  import opened SeedSteps
  import opened Formed

  lemma PathStamps(w: Work, t: Table, k: nat, ftt: int, w': Work)
    requires k < |t.rows| && WorkOk(Fresh(w, t.rows[k]), t, ftt) && Grow(w, t, k, ftt) == Ok(w')
    ensures Restamped(Fresh(w, t.rows[k]), w', ftt)
  {
    hide WorkOk, SiftLog, IsMet, Grow, LogInOrder, Restamped;
    var kq, log := GrowIsBreadthFirst(w, t, k, ftt, w');
    SiftLogDoes(Fresh(w, t.rows[k]), t, log, ftt);
  }

  /** The stamp of row `y` after a path, of which `kept` is left, has been settled. */
  ghost predicate SettledStamp(before: int, after: int, ftt: int, onPath: bool, isKept: bool, formed: bool) {
    if !onPath then after == before
    else before != ftt && after == if formed || !isKept then ftt else if before == 0 then -1 else before
  }

  /**
   * One round's path, and what becomes of it: from three edges left by the prune on it is a cluster, and its
   * number is used up; otherwise the edges left are given back.
   */
  lemma RoundStamps(s: Search, t: Table, pr: Prints, k: nat, g: Search) returns (path: seq<int>)
    requires RoundOk(s, t, pr, k) && GrowAndSettle(s, t, pr, k) == Ok(g)
    ensures k < |t.rows| && WorkOk(Fresh(s.w, t.rows[k]), t, s.ftt + 1)
    ensures Grow(s.w, t, k, s.ftt + 1).Ok? && path == Grow(s.w, t, k, s.ftt + 1).value.path
    ensures AllWithin(path, 1, |t.rows|) && Distinct(path) && PrintsFit(t, pr)
    ensures AllWithin(Pruned(path, t.rows), 1, |t.rows|)
    ensures var kept := Pruned(path, t.rows);
      && |g.w.sc| == |s.w.sc| && g.ftt == s.ftt + (if |kept| >= 3 then 1 else 0)
      && g.clusters == s.clusters + (if |kept| >= 3 then [ClusterOf(kept, t, pr)] else [])
      && forall y :: 0 <= y < |s.w.sc| ==>
           SettledStamp(s.w.sc[y], g.w.sc[y], s.ftt + 1, y + 1 in path, y + 1 in kept, |kept| >= 3)
  {
    hide RoundOk, Grow, ClusterOf, Pruned, WorkOk, Grown, SettledFrom;
    ReadyHasRows(s, t, pr, k);
    RoundCanGrow(s, t, pr, k);
    var ftt := s.ftt + 1;
    var w := Grow(s.w, t, k, ftt).value;
    PathStamps(s.w, t, k, ftt, w);
    path := w.path;
    PathFits(w, t, ftt);
    PrunedKeeps(path, t.rows);
    assert s.clusters + [] == s.clusters;
    forall y | 0 <= y < |s.w.sc|
      ensures SettledStamp(s.w.sc[y], g.w.sc[y], ftt, y + 1 in path, y + 1 in Pruned(path, t.rows),
                           |Pruned(path, t.rows)| >= 3)
    {
      if y + 1 in Pruned(path, t.rows) { KeptIsOnPath(path, t.rows, y + 1); }
    }
  }

  lemma KeptIsOnPath(path: seq<int>, rows: seq<ColpRow>, e: int)
    requires AllWithin(path, 1, |rows|) && e in Pruned(path, rows)
    ensures e in path
  {
    hide Rotation.Kept, Rotation.MeanRotation;
    if |path| >= MSTR {
      var angles := Along(path, rows, Rot);
      Rotation.KeptIsSublist(path, angles, Rotation.MeanRotation(angles));
    }
  }

  lemma RoundCanGrow(s: Search, t: Table, pr: Prints, k: nat)
    requires RoundOk(s, t, pr, k)
    ensures k < |t.rows| && PrintsFit(t, pr) && WorkOk(Fresh(s.w, t.rows[k]), t, s.ftt + 1)
  {
    assert RowOk(t.rows[k], t.nend);
    ReadyGrows(s.w, t, t.rows[k], s.ftt + 1);
  }

  // --- Every row ------------------------------------------------------------------------------

  /** Rows stamped before are stamped still. */
  ghost predicate StillStamped(sc: seq<int>, sc': seq<int>) {
    |sc'| == |sc| && forall y :: 0 <= y < |sc| && sc[y] != 0 ==> sc'[y] != 0
  }

  lemma RoundKeepsStamps(s: Search, t: Table, pr: Prints, k: nat, g: Search)
    requires RoundOk(s, t, pr, k) && GrowAndSettle(s, t, pr, k) == Ok(g) && s.ftt >= 0
    ensures StillStamped(s.w.sc, g.w.sc) && g.ftt >= 0
  {
    hide RoundOk, GrowAndSettle, Pruned, ClusterOf;
    var path := RoundStamps(s, t, pr, k, g);
    forall y | 0 <= y < |s.w.sc| && s.w.sc[y] != 0 ensures g.w.sc[y] != 0 {
      var kept := Pruned(path, t.rows);
      assert SettledStamp(s.w.sc[y], g.w.sc[y], s.ftt + 1, y + 1 in path, y + 1 in kept, |kept| >= 3);
    }
  }

  /** A planted seed's first path takes the seed's own row. */
  lemma SeedRowIsTaken(w: Work, t: Table, k: nat, ftt: int, w': Work)
    requires k < |t.rows| && WorkOk(Fresh(w, t.rows[k]), t, ftt) && Grow(w, t, k, ftt) == Ok(w')
    requires w.tq[t.rows[k].pj - 1] == 0 && w.rq[t.rows[k].gb - 1] == 0
    ensures k < |w'.sc| && w'.sc[k] == ftt
  {
    hide WorkOk, SiftLog, IsMet, LogInOrder, Restamped, Grown, SiftRow, Done, Explore;
    var kq, log := GrowIsBreadthFirst(w, t, k, ftt, w');
    var first := Meeting(0, true, k);
    FirstIsMet(w', t, k, kq);
    FirstInLog(log, w', t, k, kq);
    var w0, rest := Fresh(w, t.rows[k]), log[1..];
    assert log == [first] + rest;
    assert LogOk([first], t) && LogOk(rest, t);
    SiftLogConcat(w0, t, [first], rest, ftt);
    OneSift(w0, t, first, ftt);
    var w1 := SiftRow(w0, t, k, true, ftt).value;
    SiftLogDoes(w1, t, rest, ftt);
    FirstPairs(w0, t, k, ftt);
    FirstHeld(w1, w', t, k);
    assert w'.tq[t.rows[k].pj - 1] == t.rows[k].gb;
    SiftLogDoes(w0, t, log, ftt);
    assert log[0] == first;
    assert DoneFor(w', t, log[0], ftt);
    FirstDone(w', t, k, ftt);
  }

  lemma OneSift(w: Work, t: Table, m: Meeting, ftt: int)
    requires WorkOk(w, t, ftt) && LogOk([m], t)
    ensures m.row < |t.rows| && SiftLog(w, t, [m], ftt) == SiftRow(w, t, m.row, m.forward, ftt)
  {
    hide WorkOk, SiftRow;
    assert LogOk([], t) && [m][..0] == [];
    assert [m][0] == m;
    assert SiftLog(w, t, [], ftt) == Ok(w);
  }

  lemma FirstIsMet(w: Work, t: Table, k: nat, kq: nat)
    requires k < |t.rows| && k < kq
    ensures IsMet(Meeting(0, true, k), w, t, k, kq)
  {
  }

  /** Nothing is met before the seed's own row. */
  lemma FirstInLog(log: seq<Meeting>, w: Work, t: Table, k: nat, kq: nat)
    requires k < |t.rows| && k < kq && LogInOrder(log) && forall m :: m in log <==> IsMet(m, w, t, k, kq)
    ensures log != [] && log[0] == Meeting(0, true, k)
  {
    var first := Meeting(0, true, k);
    assert first in log;
    var i :| 0 <= i < |log| && log[i] == first;
    var head := log[0];
    assert head in log;
    SeedRowIsFirst(head, w, t, k, kq);
  }

  lemma SeedRowIsFirst(m: Meeting, w: Work, t: Table, k: nat, kq: nat)
    requires k < |t.rows| && IsMet(m, w, t, k, kq)
    ensures !Precedes(m, Meeting(0, true, k))
  {
  }

  lemma FirstPairs(w: Work, t: Table, k: nat, ftt: int)
    requires WorkOk(w, t, ftt) && k < |t.rows| && SiftRow(w, t, k, true, ftt).Ok?
    requires IsEndpoint(t.rows[k].pj, t.nend) && IsEndpoint(t.rows[k].gb, t.nend)
    requires w.tq[t.rows[k].pj - 1] == 0 && w.rq[t.rows[k].gb - 1] == 0
    ensures var w' := SiftRow(w, t, k, true, ftt).value;
      t.rows[k].pj <= |w'.tq| && w'.tq[t.rows[k].pj - 1] == t.rows[k].gb != 0
  {
    hide QueueOk, PathOk, GroupsOk;
  }

  lemma FirstHeld(w: Work, w': Work, t: Table, k: nat)
    requires k < |t.rows| && Grown(w, w') && 1 <= t.rows[k].pj <= |w.tq|
    requires w.tq[t.rows[k].pj - 1] == t.rows[k].gb != 0
    ensures t.rows[k].pj <= |w'.tq| && w'.tq[t.rows[k].pj - 1] == t.rows[k].gb
  {
  }

  lemma FirstDone(w: Work, t: Table, k: nat, ftt: int)
    requires TableOk(t) && t.nend <= |w.tq| && t.nend <= |w.rq| && k < |t.rows| < |w.sc|
    requires DoneFor(w, t, Meeting(0, true, k), ftt) && 1 <= t.rows[k].pj <= |w.tq|
    requires w.tq[t.rows[k].pj - 1] == t.rows[k].gb
    ensures w.sc[k] == ftt
  {
    hide OnFile;
  }

  lemma OnPathIfStamped(w: Work, w': Work, ftt: int, y: nat)
    requires Restamped(w, w', ftt) && y < |w.sc| && w.sc[y] != ftt && w'.sc[y] == ftt
    ensures y + 1 in w'.path
  {
  }

  /** The first round of a seed stamps the seed's row. */
  lemma FirstRoundStamps(s: Search, t: Table, pr: Prints, k: nat, g: Search)
    requires RoundOk(s, t, pr, k) && GrowAndSettle(s, t, pr, k) == Ok(g) && s.ftt >= 0
    requires k < |s.w.sc| && t.nend <= |s.w.tq| && t.nend <= |s.w.rq| && RowOk(t.rows[k], t.nend)
    requires s.w.tq[t.rows[k].pj - 1] == 0 && s.w.rq[t.rows[k].gb - 1] == 0
    ensures |g.w.sc| == |s.w.sc| && g.w.sc[k] != 0
  {
    hide RoundOk, GrowAndSettle, Pruned, ClusterOf, WorkOk, Grow, Restamped;
    var path := RoundStamps(s, t, pr, k, g);
    var w := Grow(s.w, t, k, s.ftt + 1).value;
    SeedRowIsTaken(s.w, t, k, s.ftt + 1, w);
    PathStamps(s.w, t, k, s.ftt + 1, w);
    var kept := Pruned(path, t.rows);
    assert SettledStamp(s.w.sc[k], g.w.sc[k], s.ftt + 1, k + 1 in path, k + 1 in kept, |kept| >= 3);
    if s.w.sc[k] != s.ftt + 1 {
      OnPathIfStamped(Fresh(s.w, t.rows[k]), w, s.ftt + 1, k);
    }
  }

  lemma TurningKeepsStamps(g: Search, t: Table)
    requires g.w.q != [] && Inverse(g.w.tq, g.w.rq, t.nend) && AllOk(g.w.groups, t.nend)
    requires AllWithin(g.w.q, 1, t.nend) && AllWithin(g.applied, 1, t.nend)
    ensures TearAndTurn(g, t).s.w.sc == g.w.sc
  {
    hide AllOk, Inverse, Turn;
  }

  ghost predicate KeepsStamps(s: Search, e: Ending) {
    !e.QueueFull? ==> StillStamped(s.w.sc, e.s.w.sc) && e.s.ftt >= 0
  }

  lemma {:induction false} SeedKeepsStamps(s: Search, t: Table, pr: Prints, k: nat)
    requires RoundOk(s, t, pr, k) && AllOk(s.w.groups, t.nend) && s.ftt >= 0
    ensures KeepsStamps(s, SeedLoop(s, t, pr, k))
    decreases TurnsLeft(s.w.groups, t.nend)
  {
    hide RoundOk, AllOk, GrowAndSettle, TearAndTurn, Inverse, AllWithin, Accounted;
    if GrowAndSettle(s, t, pr, k).Ok? {
      var g := GrowAndSettle(s, t, pr, k).value;
      RoundKeepsStamps(s, t, pr, k, g);
      RoundGoesOn(s, t, pr, k, g);
      RoundKeeps(s, t, pr, k);
      TurningKeepsStamps(g, t);
      var r := TearAndTurn(g, t);
      if r.more && |r.s.clusters| <= MAX_CLUSTERS {
        SeedKeepsStamps(r.s, t, pr, k);
      }
    }
  }

  /** The rows have two distinct ends in either print. */
  ghost predicate Proper(rows: seq<ColpRow>) {
    forall i :: 0 <= i < |rows| ==> rows[i].pk != rows[i].pj && rows[i].ga != rows[i].gb
  }

  /** A seed that is planted leaves its row stamped. */
  lemma SeedIsStamped(s: Search, t: Table, pr: Prints, k: nat)
    requires SweepOk(s, t, pr) && k < |t.rows| && s.ftt >= 0 && Proper(t.rows)
    requires 1 <= t.rows[k].pk <= |s.w.tq| && 1 <= t.rows[k].ga <= |s.w.rq|
    requires RoundOk(Plant(s, t.rows[k]), t, pr, k) && AllOk(Plant(s, t.rows[k]).w.groups, t.nend)
    ensures var e := SeedLoop(Plant(s, t.rows[k]), t, pr, k);
      KeepsStamps(s, e) && (!e.QueueFull? ==> k < |e.s.w.sc| && e.s.w.sc[k] != 0)
  {
    var p := Plant(s, t.rows[k]);
    PlantedEnds(s, t, pr, k);
    hide RoundOk, AllOk, GrowAndSettle, TearAndTurn, Inverse, AllWithin, Accounted, SweepOk, Proper, Cleanup;
    SeedKeepsStamps(p, t, pr, k);
    if GrowAndSettle(p, t, pr, k).Ok? {
      var g := GrowAndSettle(p, t, pr, k).value;
      FirstRoundStamps(p, t, pr, k, g);
      RoundKeepsStamps(p, t, pr, k, g);
      RoundGoesOn(p, t, pr, k, g);
      RoundKeeps(p, t, pr, k);
      TurningKeepsStamps(g, t);
      var r := TearAndTurn(g, t);
      if r.more && |r.s.clusters| <= MAX_CLUSTERS {
        SeedKeepsStamps(r.s, t, pr, k);
      } else {
        CleanupKeepsStamps(r.s.w, t.rows[k].pk);
      }
    }
  }

  lemma CleanupKeepsStamps(w: Work, seed: int)
    ensures Cleanup(w, seed).sc == w.sc
  {
  }

  lemma PlantedEnds(s: Search, t: Table, pr: Prints, k: nat)
    requires SweepOk(s, t, pr) && k < |t.rows| && Proper(t.rows)
    requires 1 <= t.rows[k].pk <= |s.w.tq| && 1 <= t.rows[k].ga <= |s.w.rq|
    ensures var p, r := Plant(s, t.rows[k]), t.rows[k];
      && k < |p.w.sc| && t.nend <= |p.w.tq| && t.nend <= |p.w.rq| && RowOk(r, t.nend)
      && p.w.tq[r.pj - 1] == 0 && p.w.rq[r.gb - 1] == 0 && p.w.sc == s.w.sc && p.ftt == s.ftt
  {
    assert RowOk(t.rows[k], t.nend);
  }

  /** All rows from `lo` up to `hi` carry a stamp. */
  ghost predicate AllStamped(sc: seq<int>, lo: int, hi: int) {
    hi <= |sc| && forall y :: 0 <= lo <= y < hi ==> sc[y] != 0
  }

  /**
   * A search that comes to its end has been through every row but the last: each has been taken by a path, from
   * its own seed or an earlier one.
   */
  lemma {:induction false} EveryRowIsVisited(s: Search, t: Table, pr: Prints, k: nat)
    requires SweepOk(s, t, pr) && s.ftt >= 0 && Proper(t.rows)
    ensures var e := Sweep(s, t, pr, k);
      KeepsStamps(s, e) && (e.Finished? && k <= |t.rows| ==> AllStamped(e.s.w.sc, k, |t.rows| - 1))
    decreases |t.rows| - k
  {
    hide ClustersOk, SeedLoop, Proper;
    if k + 1 < |t.rows| {
      if s.w.sc[k] != 0 {
        EveryRowIsVisited(s, t, pr, k + 1);
        OneMoreStamped(s.w.sc, Sweep(s, t, pr, k + 1), t, k);
      } else {
        PlantIsReady(s, t, pr, k);
        var p := Plant(s, t.rows[k]);
        SeedLeavesClean(p, t, pr, k);
        assert RowOk(t.rows[k], t.nend);
        hide RoundOk, AllOk;
        SeedIsStamped(s, t, pr, k);
        var r := SeedLoop(p, t, pr, k);
        if r.Finished? {
          EveryRowIsVisited(r.s, t, pr, k + 1);
          OneMoreStamped(r.s.w.sc, Sweep(r.s, t, pr, k + 1), t, k);
        }
      }
    }
  }

  lemma OneMoreStamped(sc: seq<int>, e: Ending, t: Table, k: nat)
    requires k + 1 < |t.rows| && k < |sc| && sc[k] != 0
    requires e.Finished? ==> StillStamped(sc, e.s.w.sc) && AllStamped(e.s.w.sc, k + 1, |t.rows| - 1)
    ensures e.Finished? ==> AllStamped(e.s.w.sc, k, |t.rows| - 1)
  {
  }
}
