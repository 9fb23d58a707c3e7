/**
 * Where the search's pairings, alternatives and clusters come from, over every round of every seed: pairs and
 * alternatives are those of rows of the table, and each cluster is what the prune leaves of a grown path.
 */
module Formed {
  import opened Consts
  import opened Seqs
  import opened Paths
  import opened PathFacts
  import opened Reach
  import opened Odometer
  import opened OdometerFacts
  import opened Clusters
  import opened ScoreFacts
  import opened Seeds
  import opened SeedSteps

  // --- Pairs and alternatives -----------------------------------------------------------------

  /** Some row of the table has probe endpoint `e` and gallery endpoint `o` at one of its ends. */
  ghost predicate Suggested(rows: seq<ColpRow>, e: int, o: int) {
    exists x :: 0 <= x < |rows| && ((rows[x].pk == e && rows[x].ga == o) || (rows[x].pj == e && rows[x].gb == o))
  }

  ghost predicate PairsSuggested(tq: seq<int>, rows: seq<ColpRow>) {
    forall p :: 0 <= p < |tq| && tq[p] != 0 ==> Suggested(rows, p + 1, tq[p])
  }

  ghost predicate GroupSuggested(g: Group, rows: seq<ColpRow>) {
    forall a :: a in g.alts ==> if g.ofProbe then Suggested(rows, g.end, a) else Suggested(rows, a, g.end)
  }

  ghost predicate GroupsSuggested(groups: seq<Group>, rows: seq<ColpRow>) {
    forall b :: 0 <= b < |groups| ==> GroupSuggested(groups[b], rows)
  }

  ghost predicate AllSuggested(w: Work, rows: seq<ColpRow>) {
    PairsSuggested(w.tq, rows) && GroupsSuggested(w.groups, rows)
  }

  lemma NoteSuggests(w: Work, ofProbe: bool, e: int, current: int, alt: int, rows: seq<ColpRow>)
    requires 1 <= e <= |Book(w, ofProbe)| && 0 <= Book(w, ofProbe)[e - 1] <= |w.groups|
    requires Books(w.cp, w.groups, true) && Books(w.rp, w.groups, false) && GroupsSuggested(w.groups, rows)
    requires if ofProbe then Suggested(rows, e, current) && Suggested(rows, e, alt)
             else Suggested(rows, current, e) && Suggested(rows, alt, e)
    ensures GroupsSuggested(Note(w, ofProbe, e, current, alt).groups, rows)
  {
    hide Suggested;
    var r := Note(w, ofProbe, e, current, alt).groups;
    forall b | 0 <= b < |r| ensures GroupSuggested(r[b], rows) {
      if b < |w.groups| { assert GroupSuggested(w.groups[b], rows); }
    }
  }

  lemma PartnerIsSuggested(tq: seq<int>, rq: seq<int>, nend: nat, o: int, rows: seq<ColpRow>)
    requires Inverse(tq, rq, nend) && PairsSuggested(tq, rows) && 1 <= o <= |rq| && rq[o - 1] != 0
    ensures Suggested(rows, rq[o - 1], o)
  {
    hide Suggested;
    assert tq[rq[o - 1] - 1] == o;
  }

  lemma ConflictSuggests(w: Work, t: Table, kz: int, l: int)
    requires IsEndpoint(kz, t.nend) && IsEndpoint(l, t.nend)
    requires GroupsOk(w.cp, w.rp, w.groups, t.nend) && Inverse(w.tq, w.rq, t.nend)
    requires AllSuggested(w, t.rows) && Suggested(t.rows, kz, l)
    ensures AllSuggested(Conflict(w, t, kz, l), t.rows)
  {
    hide Inverse, Note, Suggested, GroupsSuggested, AllWidened;
    PartnersFit(w, t.nend, kz, l);
    BothFit(w, t.nend);
    var n, g := w.tq[kz - 1], w.rq[l - 1];
    var w1 := if n != 0 then Note(w, true, kz, n, l) else w;
    ConflictKeepsGroups(w, t, kz, l);
    if n != 0 {
      assert Suggested(t.rows, kz, n);
      NoteSuggests(w, true, kz, n, l, t.rows);
      NoteKeepsGroups(w, true, kz, n, l, t.nend);
    }
    if g != 0 {
      BothFit(w1, t.nend);
      PartnerIsSuggested(w.tq, w.rq, t.nend, l, t.rows);
      NoteSuggests(w1, false, l, g, kz, t.rows);
    }
  }

  lemma SiftSuggests(w: Work, t: Table, kz: int, l: int, kx: int, ftt: int)
    requires WorkOk(w, t, ftt) && IsEndpoint(kz, t.nend) && IsEndpoint(l, t.nend) && 1 <= kx <= |t.rows|
    requires AllSuggested(w, t.rows) && Suggested(t.rows, kz, l) && Sift(w, t, kz, l, kx, ftt).Ok?
    ensures AllSuggested(Sift(w, t, kz, l, kx, ftt).value, t.rows)
  {
    hide Suggested, GroupsSuggested, QueueOk, PathOk, TableOk, Conflict;
    if w.tq[kz - 1] == 0 && w.rq[l - 1] == 0 {
    } else if w.tq[kz - 1] != l {
      ConflictSuggests(w, t, kz, l);
    }
  }

  lemma RowSuggests(t: Table, m: Meeting)
    requires m.row < |t.rows|
    ensures Suggested(t.rows, FarEnd(t.rows[m.row], m.forward), FarPartner(t.rows[m.row], m.forward))
  {
  }

  lemma {:induction false} SiftLogSuggests(w: Work, t: Table, log: seq<Meeting>, ftt: int)
    requires WorkOk(w, t, ftt) && LogOk(log, t) && AllSuggested(w, t.rows) && SiftLog(w, t, log, ftt).Ok?
    ensures AllSuggested(SiftLog(w, t, log, ftt).value, t.rows)
  {
    hide WorkOk, Sift, AllSuggested, Suggested;
    if log != [] {
      var m := |log| - 1;
      SiftLogSuggests(w, t, log[..m], ftt);
      var w1, r := SiftLog(w, t, log[..m], ftt).value, t.rows[log[m].row];
      RowSuggests(t, log[m]);
      WorkHasTable(w, t, ftt);
      assert RowOk(r, t.nend);
      SiftSuggests(w1, t, FarEnd(r, log[m].forward), FarPartner(r, log[m].forward), log[m].row + 1, ftt);
    }
  }

  /** A path pairs and files only what rows of the table suggest. */
  lemma GrowSuggests(w: Work, t: Table, k: nat, ftt: int, w': Work)
    requires k < |t.rows| && WorkOk(Fresh(w, t.rows[k]), t, ftt) && Grow(w, t, k, ftt) == Ok(w')
    requires AllSuggested(w, t.rows)
    ensures AllSuggested(w', t.rows)
  {
    hide WorkOk, Grow, SiftLog, IsMet, LogInOrder, PairsSuggested, GroupsSuggested;
    var kq, log := GrowIsBreadthFirst(w, t, k, ftt, w');
    SiftLogSuggests(Fresh(w, t.rows[k]), t, log, ftt);
  }

  lemma FewerSuggested(tq: seq<int>, tq': seq<int>, rows: seq<ColpRow>)
    requires PairsSuggested(tq, rows) && |tq'| == |tq| && forall p :: 0 <= p < |tq| ==> tq'[p] == 0 || tq'[p] == tq[p]
    ensures PairsSuggested(tq', rows)
  {
    hide Suggested;
  }

  /** A group's selection is one of its alternatives. */
  lemma SelectionIsSuggested(g: Group, nend: nat, rows: seq<ColpRow>)
    requires GroupOk(g, nend) && GroupSuggested(g, rows)
    ensures Suggested(rows, Probe(g), Gallery(g))
  {
    assert g.alts[g.pick - 1] in g.alts;
  }

  lemma TurnSuggests(tq: seq<int>, groups: seq<Group>, r: Turned, nend: nat, rows: seq<ColpRow>)
    requires nend <= |tq| == |r.tq| && GoodTurn(tq, groups, nend, r)
    requires PairsSuggested(tq, rows) && GroupsSuggested(groups, rows)
    ensures PairsSuggested(r.tq, rows) && GroupsSuggested(r.groups, rows)
  {
    hide Suggested, Inverse, Before, AllOk;
    forall b | 0 <= b < |r.groups| ensures GroupSuggested(r.groups[b], rows) {
      assert GroupSuggested(groups[b], rows);
    }
    if r.more {
      forall p | 0 <= p < |r.tq| && r.tq[p] != 0 ensures Suggested(rows, p + 1, r.tq[p]) {
        if r.tq[p] != tq[p] { SelectedIsSuggested(r, nend, rows, p); }
      }
    }
  }

  lemma SelectedIsSuggested(r: Turned, nend: nat, rows: seq<ColpRow>, p: nat)
    requires AllOk(r.groups, nend) && nend <= |r.tq| && Selected(r.tq, r.groups, nend, 0, |r.groups|)
    requires GroupsSuggested(r.groups, rows) && p < |r.tq| && p + 1 in SelectedProbes(r.groups, nend, 0)
    ensures Suggested(rows, p + 1, r.tq[p])
  {
    hide Suggested, AllOk, GroupOk, GroupSuggested, SelectedProbes, Selected, Probe, Gallery;
    var ps := SelectedProbes(r.groups, nend, 0);
    var i :| 0 <= i < |ps| && ps[i] == p + 1;
    SelectionInPlace(r, nend, i);
    SelectionIsSuggested(r.groups[i], nend, rows);
  }

  lemma SelectionInPlace(r: Turned, nend: nat, i: nat)
    requires AllOk(r.groups, nend) && nend <= |r.tq| && Selected(r.tq, r.groups, nend, 0, |r.groups|)
    requires i < |SelectedProbes(r.groups, nend, 0)|
    ensures i < |r.groups| && GroupOk(r.groups[i], nend) && SelectedProbes(r.groups, nend, 0)[i] == Probe(r.groups[i])
    ensures 1 <= Probe(r.groups[i]) <= |r.tq| && r.tq[Probe(r.groups[i]) - 1] == Gallery(r.groups[i])
  {
    assert GroupOk(r.groups[0 + i], nend);
  }

  // --- Selections -----------------------------------------------------------------------------

  /** The alternative that a group has selected is the one in the pairing. */
  ghost predicate InPlace(g: Group, tq: seq<int>) {
    && 1 <= g.pick <= |g.alts|
    && var a := g.alts[g.pick - 1];
       if g.ofProbe then a != 0 && 1 <= g.end <= |tq| && tq[g.end - 1] == a
       else g.end != 0 && 1 <= a <= |tq| && tq[a - 1] == g.end
  }

  ghost predicate AllInPlace(groups: seq<Group>, tq: seq<int>) {
    forall b :: 0 <= b < |groups| ==> InPlace(groups[b], tq)
  }

  lemma PlacesStay(a: seq<Group>, tq: seq<int>, tq': seq<int>)
    requires AllInPlace(a, tq) && Extends(tq, tq')
    ensures AllInPlace(a, tq')
  {
    forall b | 0 <= b < |a| ensures InPlace(a[b], tq') { assert InPlace(a[b], tq); }
  }

  lemma NoteInPlace(w: Work, ofProbe: bool, e: int, current: int, alt: int)
    requires 1 <= e <= |Book(w, ofProbe)| && 0 <= Book(w, ofProbe)[e - 1] <= |w.groups|
    requires AllInPlace(w.groups, w.tq)
    requires if ofProbe then current != 0 && e <= |w.tq| && w.tq[e - 1] == current
             else 1 <= current <= |w.tq| && w.tq[current - 1] == e
    ensures AllInPlace(Note(w, ofProbe, e, current, alt).groups, w.tq)
  {
    var r := Note(w, ofProbe, e, current, alt).groups;
    forall b | 0 <= b < |r| ensures InPlace(r[b], w.tq) {
      if b < |w.groups| { assert InPlace(w.groups[b], w.tq); }
    }
  }

  lemma ConflictInPlace(w: Work, t: Table, kz: int, l: int)
    requires IsEndpoint(kz, t.nend) && IsEndpoint(l, t.nend)
    requires GroupsOk(w.cp, w.rp, w.groups, t.nend) && Inverse(w.tq, w.rq, t.nend) && AllInPlace(w.groups, w.tq)
    ensures AllInPlace(Conflict(w, t, kz, l).groups, w.tq)
  {
    hide Note, AllWidened, InPlace;
    PartnersFit(w, t.nend, kz, l);
    BothFit(w, t.nend);
    var n, g := w.tq[kz - 1], w.rq[l - 1];
    var w1 := if n != 0 then Note(w, true, kz, n, l) else w;
    ConflictKeepsGroups(w, t, kz, l);
    if n != 0 {
      NoteInPlace(w, true, kz, n, l);
      NoteKeepsGroups(w, true, kz, n, l, t.nend);
      NoteKeepsPairing(w, true, kz, n, l);
    }
    if g != 0 {
      BothFit(w1, t.nend);
      BackIsForth(w.tq, w.rq, t.nend, l);
      NoteInPlace(w1, false, l, g, kz);
    }
  }

  lemma NoteKeepsPairing(w: Work, ofProbe: bool, e: int, current: int, alt: int)
    requires 1 <= e <= |Book(w, ofProbe)| && 0 <= Book(w, ofProbe)[e - 1] <= |w.groups|
    ensures Note(w, ofProbe, e, current, alt).tq == w.tq
  {
  }

  lemma BackIsForth(tq: seq<int>, rq: seq<int>, nend: nat, o: int)
    requires Inverse(tq, rq, nend) && 1 <= o <= |rq| && rq[o - 1] != 0
    ensures 1 <= rq[o - 1] <= |tq| && tq[rq[o - 1] - 1] == o
  {
  }

  lemma SiftInPlace(w: Work, t: Table, kz: int, l: int, kx: int, ftt: int)
    requires WorkOk(w, t, ftt) && IsEndpoint(kz, t.nend) && IsEndpoint(l, t.nend) && 1 <= kx <= |t.rows|
    requires AllInPlace(w.groups, w.tq) && Sift(w, t, kz, l, kx, ftt).Ok?
    ensures var w' := Sift(w, t, kz, l, kx, ftt).value; AllInPlace(w'.groups, w'.tq)
  {
    hide QueueOk, PathOk, TableOk, Conflict, InPlace, AllInPlace, Inverse, GroupsOk;
    InverseFits(w.tq, w.rq, t.nend);
    if w.tq[kz - 1] == 0 && w.rq[l - 1] == 0 {
      PlacesStay(w.groups, w.tq, w.tq[kz - 1 := l]);
    } else if w.tq[kz - 1] != l {
      ConflictKeepsGroups(w, t, kz, l);
      ConflictInPlace(w, t, kz, l);
    }
  }

  lemma {:induction false} SiftLogInPlace(w: Work, t: Table, log: seq<Meeting>, ftt: int)
    requires WorkOk(w, t, ftt) && LogOk(log, t) && AllInPlace(w.groups, w.tq) && SiftLog(w, t, log, ftt).Ok?
    ensures var w' := SiftLog(w, t, log, ftt).value; AllInPlace(w'.groups, w'.tq)
  {
    hide WorkOk, Sift, AllInPlace;
    if log != [] {
      var m := |log| - 1;
      SiftLogInPlace(w, t, log[..m], ftt);
      var w1, r := SiftLog(w, t, log[..m], ftt).value, t.rows[log[m].row];
      WorkHasTable(w, t, ftt);
      assert RowOk(r, t.nend);
      SiftInPlace(w1, t, FarEnd(r, log[m].forward), FarPartner(r, log[m].forward), log[m].row + 1, ftt);
    }
  }

  lemma SelectedIsInPlace(r: Turned, nend: nat)
    requires AllOk(r.groups, nend) && nend <= |r.tq| && Selected(r.tq, r.groups, nend, 0, |r.groups|)
    ensures AllInPlace(r.groups, r.tq)
  {
    forall b | 0 <= b < |r.groups| ensures InPlace(r.groups[b], r.tq) {
      var g := r.groups[b];
      assert GroupOk(g, nend) && r.tq[Probe(g) - 1] == Gallery(g);
      assert 1 <= g.alts[g.pick - 1] <= nend;
    }
  }

  /**
   * In every round each open group has its selection in the pairing: a group opens with the pair in place as its
   * first alternative, and the odometer puts the selections of a further round in place before that begins.
   */
  lemma RoundKeepsSelections(s: Search, t: Table, pr: Prints, k: nat, g: Search)
    requires RoundOk(s, t, pr, k) && GrowAndSettle(s, t, pr, k) == Ok(g) && AllInPlace(s.w.groups, s.w.tq)
    ensures AllInPlace(g.w.groups, g.w.tq)
    ensures g.w.q != [] && Inverse(g.w.tq, g.w.rq, t.nend) && AllOk(g.w.groups, t.nend)
    ensures AllWithin(g.w.q, 1, t.nend) && AllWithin(g.applied, 1, t.nend)
    ensures var r := TearAndTurn(g, t); r.more ==> AllInPlace(r.s.w.groups, r.s.w.tq)
  {
    hide RoundOk, AllInPlace, WorkOk, Grow, SiftLog, IsMet, LogInOrder, TearAndTurn, Settle, SettledFrom, Inverse,
      AllOk;
    RoundKeeps(s, t, pr, k);
    ReadyHasRows(s, t, pr, k);
    RoundIsReady(s, t, pr, k);
    var w := Grow(s.w, t, k, s.ftt + 1).value;
    var kq, log := GrowIsBreadthFirst(s.w, t, k, s.ftt + 1, w);
    SiftLogInPlace(Fresh(s.w, t.rows[k]), t, log, s.ftt + 1);
    SettledPairs(s, t, pr, k, g);
    TurnInPlace(g, t);
  }

  lemma RoundIsReady(s: Search, t: Table, pr: Prints, k: nat)
    requires RoundOk(s, t, pr, k)
    ensures k < |t.rows| && WorkOk(Fresh(s.w, t.rows[k]), t, s.ftt + 1)
  {
    assert RowOk(t.rows[k], t.nend);
    ReadyGrows(s.w, t, t.rows[k], s.ftt + 1);
  }

  lemma SettledPairs(s: Search, t: Table, pr: Prints, k: nat, g: Search)
    requires RoundOk(s, t, pr, k) && GrowAndSettle(s, t, pr, k) == Ok(g)
    ensures k < |t.rows| && WorkOk(Fresh(s.w, t.rows[k]), t, s.ftt + 1)
    ensures var r := Grow(s.w, t, k, s.ftt + 1); r.Ok? && g.w.tq == r.value.tq && g.w.groups == r.value.groups
  {
    hide RoundOk, Grow, WorkOk, Pruned, ClusterOf, RolledBack, Grown, SettledFrom;
    RoundIsReady(s, t, pr, k);
  }

  lemma TurnInPlace(g: Search, t: Table)
    requires g.w.q != [] && Inverse(g.w.tq, g.w.rq, t.nend) && AllOk(g.w.groups, t.nend)
    requires AllWithin(g.w.q, 1, t.nend) && AllWithin(g.applied, 1, t.nend)
    ensures var r := TearAndTurn(g, t); r.more ==> AllInPlace(r.s.w.groups, r.s.w.tq)
  {
    hide Inverse, AllOk, Turn, AllInPlace, Selected, SelectedProbes;
    var w := Teardown(g.w, g.applied);
    UnpairKeepsInverse(g.w.tq, g.w.rq, t.nend, g.w.q[1..] + g.applied);
    InverseFits(w.tq, w.rq, t.nend);
    TurnKeeps(w.tq, w.rq, w.groups, t.nend);
    var r := Turn(w.tq, w.rq, w.groups, t.nend);
    if r.more { SelectedIsInPlace(r, t.nend); }
  }

  // --- Clusters -------------------------------------------------------------------------------

  /** The cluster is what the prune leaves of the path that seed row `k` grew to `w'`. */
  ghost predicate FromPath(c: Cluster, t: Table, pr: Prints, w: Work, k: nat, ftt: int, w': Work) {
    && k < |t.rows| && WorkOk(Fresh(w, t.rows[k]), t, ftt) && Grow(w, t, k, ftt) == Ok(w')
    && PrintsFit(t, pr) && AllWithin(w'.path, 1, |t.rows|) && AllWithin(Pruned(w'.path, t.rows), 1, |t.rows|)
    && |Pruned(w'.path, t.rows)| >= 3 && c == ClusterOf(Pruned(w'.path, t.rows), t, pr)
  }

  ghost predicate Arises(c: Cluster, t: Table, pr: Prints) {
    exists w, k, ftt, w' :: FromPath(c, t, pr, w, k, ftt, w')
  }

  ghost predicate AllArise(cs: seq<Cluster>, t: Table, pr: Prints) {
    forall i :: 0 <= i < |cs| ==> Arises(cs[i], t, pr)
  }

  lemma OneMoreArises(cs: seq<Cluster>, c: Cluster, t: Table, pr: Prints)
    requires AllArise(cs, t, pr) && Arises(c, t, pr)
    ensures AllArise(cs + [c], t, pr)
  {
    hide Arises;
  }

  /** What holds of the search between rounds. */
  ghost predicate Sound(s: Search, t: Table, pr: Prints) {
    AllSuggested(s.w, t.rows) && AllArise(s.clusters, t, pr)
  }

  lemma SettleIsSound(s: Search, t: Table, pr: Prints, w: Work, k: nat)
    requires k < |t.rows| && WorkOk(Fresh(w, t.rows[k]), t, s.ftt) && Grow(w, t, k, s.ftt) == Ok(s.w)
    requires PrintsFit(t, pr) && WorkOk(s.w, t, s.ftt) && Sound(s, t, pr)
    ensures AllWithin(s.w.path, 1, |t.rows|) && Distinct(s.w.path) && |s.w.sc| == |s.w.rk|
    ensures Sound(Settle(s, t, pr), t, pr)
  {
    hide WorkOk, Grow, ClusterOf, Pruned, RolledBack, PrintsFit, AllSuggested, Arises;
    PathFits(s.w, t, s.ftt);
    PrunedKeeps(s.w.path, t.rows);
    SamePairs(s.w, Settle(s, t, pr).w, t.rows);
    var kept := Pruned(s.w.path, t.rows);
    if |kept| >= MSTR {
      PathArises(ClusterOf(kept, t, pr), t, pr, w, k, s.ftt, s.w);
      OneMoreArises(s.clusters, ClusterOf(kept, t, pr), t, pr);
    }
  }

  lemma SamePairs(w: Work, w': Work, rows: seq<ColpRow>)
    requires AllSuggested(w, rows) && w'.tq == w.tq && w'.groups == w.groups
    ensures AllSuggested(w', rows)
  {
  }

  lemma PathArises(c: Cluster, t: Table, pr: Prints, w: Work, k: nat, ftt: int, w': Work)
    requires FromPath(c, t, pr, w, k, ftt, w')
    ensures Arises(c, t, pr)
  {
  }

  lemma TearAndTurnIsSound(s: Search, t: Table, pr: Prints)
    requires s.w.q != [] && Inverse(s.w.tq, s.w.rq, t.nend) && AllOk(s.w.groups, t.nend)
    requires AllWithin(s.w.q, 1, t.nend) && AllWithin(s.applied, 1, t.nend) && Sound(s, t, pr)
    ensures Sound(TearAndTurn(s, t).s, t, pr)
  {
    hide Inverse, AllOk, Suggested, Turn, GoodTurn, AllArise, PairsSuggested, GroupsSuggested;
    var w := Teardown(s.w, s.applied);
    FewerSuggested(s.w.tq, w.tq, t.rows);
    UnpairKeepsInverse(s.w.tq, s.w.rq, t.nend, s.w.q[1..] + s.applied);
    InverseFits(w.tq, w.rq, t.nend);
    TurnKeeps(w.tq, w.rq, w.groups, t.nend);
    var r := Turn(w.tq, w.rq, w.groups, t.nend);
    TurnSuggests(w.tq, w.groups, r, t.nend, t.rows);
  }

  lemma RoundIsSound(s: Search, t: Table, pr: Prints, k: nat, g: Search)
    requires RoundOk(s, t, pr, k) && GrowAndSettle(s, t, pr, k) == Ok(g) && Sound(s, t, pr)
    ensures Sound(g, t, pr)
  {
    hide Ready, ClustersOk, WorkOk, Grow, Settle, Grown, SettledFrom, AllSuggested, AllArise;
    assert RowOk(t.rows[k], t.nend) by { hide *; ReadyHasRows(s, t, pr, k); }
    ReadyGrows(s.w, t, t.rows[k], s.ftt + 1);
    var w := Grow(s.w, t, k, s.ftt + 1).value;
    GrowSuggests(s.w, t, k, s.ftt + 1, w);
    SettleIsSound(Search(w, s.ftt + 1, s.clusters, s.applied), t, pr, s.w, k);
  }

  lemma ReadyHasRows(s: Search, t: Table, pr: Prints, k: nat)
    requires RoundOk(s, t, pr, k)
    ensures k < |t.rows| && RowOk(t.rows[k], t.nend)
  {
  }

  /** However many rounds a seed takes, they leave the search sound. */
  lemma {:induction false} SeedIsSound(s: Search, t: Table, pr: Prints, k: nat)
    requires RoundOk(s, t, pr, k) && AllOk(s.w.groups, t.nend) && Sound(s, t, pr)
    ensures var r := SeedLoop(s, t, pr, k); !r.QueueFull? ==> Sound(r.s, t, pr)
    decreases TurnsLeft(s.w.groups, t.nend)
  {
    hide RoundOk, AllOk, GrowAndSettle, TearAndTurn, Inverse, AllWithin, Accounted, Cleanup, Sound;
    if GrowAndSettle(s, t, pr, k).Ok? {
      var g := GrowAndSettle(s, t, pr, k).value;
      ReadyHasRows(s, t, pr, k);
      RoundIsSound(s, t, pr, k, g);
      RoundGoesOn(s, t, pr, k, g);
      RoundKeeps(s, t, pr, k);
      TearAndTurnIsSound(g, t, pr);
      var r := TearAndTurn(g, t);
      if r.more && |r.s.clusters| <= MAX_CLUSTERS {
        SeedIsSound(r.s, t, pr, k);
      } else {
        CleanupIsSound(r.s, t, pr, t.rows[k].pk);
      }
    }
  }

  lemma CleanupIsSound(s: Search, t: Table, pr: Prints, seed: int)
    requires Sound(s, t, pr)
    ensures Sound(s.(w := Cleanup(s.w, seed)), t, pr)
  {
    hide Suggested, AllArise, PairsSuggested;
    FewerSuggested(s.w.tq, UnpairProbes(s.w.tq, [seed]), t.rows);
  }

  lemma PlantIsSound(s: Search, t: Table, pr: Prints, k: nat)
    requires Sound(s, t, pr) && k < |t.rows|
    requires 1 <= t.rows[k].pk <= |s.w.tq| && 1 <= t.rows[k].ga <= |s.w.rq|
    ensures Sound(Plant(s, t.rows[k]), t, pr)
  {
    hide AllArise;
    assert Suggested(t.rows, t.rows[k].pk, t.rows[k].ga);
    hide Suggested;
  }

  /** And so does the whole search. */
  lemma {:induction false} SweepIsSound(s: Search, t: Table, pr: Prints, k: nat)
    requires SweepOk(s, t, pr) && Sound(s, t, pr)
    ensures var r := Sweep(s, t, pr, k); !r.QueueFull? ==> Sound(r.s, t, pr)
    decreases |t.rows| - k
  {
    hide ClustersOk, SeedLoop, Sound;
    if k + 1 < |t.rows| {
      if s.w.sc[k] != 0 {
        SweepIsSound(s, t, pr, k + 1);
      } else {
        PlantIsReady(s, t, pr, k);
        var p := Plant(s, t.rows[k]);
        SeedLeavesClean(p, t, pr, k);
        assert RowOk(t.rows[k], t.nend);
        PlantIsSound(s, t, pr, k);
        hide RoundOk, AllOk;
        SeedIsSound(p, t, pr, k);
        var r := SeedLoop(p, t, pr, k);
        if r.Finished? { SweepIsSound(r.s, t, pr, k + 1); }
      }
    }
  }

  lemma InitialIsSound(big: nat, t: Table, pr: Prints)
    ensures Sound(Initial(big), t, pr)
  {
  }
}
