/**
 * The seed loop on values: from each unused edge, grow a path, keep it as a cluster or roll it back,
 * tear the pairing down, and let the odometer choose the next combination of alternatives.
 */
module Seeds {
  import opened Consts
  import opened Seqs
  import opened Paths
  import opened PathFacts
  import opened Odometer
  import opened OdometerFacts
  import opened Rotation
  import opened Clusters
  import opened ScoreFacts

  /** The work arrays, the path counter, the clusters so far, and the endpoints the odometer paired. */
  datatype Search = Search(w: Work, ftt: int, clusters: seq<Cluster>, applied: seq<int>)

  // --- Settling a grown path ------------------------------------------------------------------

  /** The edges of a path of three or more that agree with its mean rotation; shorter ones as they are. */
  function Pruned(path: seq<int>, rows: seq<ColpRow>): (r: seq<int>)
    requires AllWithin(path, 1, |rows|)
  {
    if |path| < MSTR then path else
    var angles := Along(path, rows, Rot);
    Kept(path, angles, MeanRotation(angles))
  }

  /** The stamps with those of `path` put back to what they were, or to -1 when they were unused. */
  function RolledBack(sc: seq<int>, rk: seq<int>, path: seq<int>): (r: seq<int>)
    requires |sc| == |rk|
    ensures |r| == |sc|
    ensures forall p :: 0 <= p < |r| ==>
      r[p] == if p + 1 in path then (if rk[p] == 0 then -1 else rk[p]) else sc[p]
  {
    seq(|sc|, p requires 0 <= p < |sc| => if p + 1 in path then (if rk[p] == 0 then -1 else rk[p]) else sc[p])
  }

  lemma PrunedKeeps(path: seq<int>, rows: seq<ColpRow>)
    requires AllWithin(path, 1, |rows|) && Distinct(path)
    ensures AllWithin(Pruned(path, rows), 1, |rows|) && Distinct(Pruned(path, rows))
    ensures |Pruned(path, rows)| <= |path|
  {
    if |path| >= MSTR {
      var angles := Along(path, rows, Rot);
      KeptIsSublist(path, angles, MeanRotation(angles));
      SublistWithin(Kept(path, angles, MeanRotation(angles)), path, 1, |rows|);
    }
  }

  lemma SublistWithin(r: seq<int>, s: seq<int>, lo: int, hi: int)
    requires AllWithin(s, lo, hi) && forall x :: x in r ==> x in s
    ensures AllWithin(r, lo, hi)
  {
    forall i | 0 <= i < |r| ensures lo <= r[i] <= hi {
      assert r[i] in r;
    }
  }

  /** A path that stays long enough becomes a cluster; otherwise its stamps and its number are returned. */
  function Settle(s: Search, t: Table, pr: Prints): (r: Search)
    requires AllWithin(s.w.path, 1, |t.rows|) && Distinct(s.w.path) && PrintsFit(t, pr) && |s.w.sc| == |s.w.rk|
  {
    PrunedKeeps(s.w.path, t.rows);
    var kept := Pruned(s.w.path, t.rows);
    if |kept| < MSTR then
      s.(w := s.w.(sc := RolledBack(s.w.sc, s.w.rk, kept), path := []), ftt := s.ftt - 1)
    else
      s.(w := s.w.(path := []), clusters := s.clusters + [ClusterOf(kept, t, pr)])
  }

  /**
   * An edge that the prune dropped from a path keeps the path's stamp, even when what is left of the path
   * is then rolled back: only the edges kept are given back.
   */
  lemma PrunedEdgesKeepTheirStamp(s: Search, t: Table, pr: Prints, i: nat)
    requires AllWithin(s.w.path, 1, |t.rows|) && Distinct(s.w.path) && PrintsFit(t, pr)
    requires PathOk(s.w.path, s.w.sc, |t.rows|, s.ftt) && |s.w.sc| == |s.w.rk| && i < |s.w.path|
    ensures var x := s.w.path[i];
      var back := |Pruned(s.w.path, t.rows)| < MSTR && x in Pruned(s.w.path, t.rows);
      Settle(s, t, pr).w.sc[x - 1] ==
        if !back then s.ftt else if s.w.rk[x - 1] == 0 then -1 else s.w.rk[x - 1]
  {
    hide Pruned, ClusterOf;
  }

  // --- Teardown -------------------------------------------------------------------------------

  function Unmarked(zz: seq<int>, ps: seq<int>): (r: seq<int>)
    ensures |r| == |zz| && forall p :: 0 <= p < |r| ==> r[p] == if p + 1 in ps then 1000 else zz[p]
  {
    seq(|zz|, p requires 0 <= p < |zz| => if p + 1 in ps then 1000 else zz[p])
  }

  /** Unpairs what the path queued and what the odometer had applied; only the seed stays queued. */
  function Teardown(w: Work, applied: seq<int>): (r: Work)
    requires w.q != []
  {
    var ps := w.q[1..] + applied;
    w.(tq := UnpairProbes(w.tq, ps), rq := UnpairGallery(w.rq, ps), zz := Unmarked(w.zz, w.q[1..]), q := w.q[..1])
  }

  // --- Invariants of the seed loop ------------------------------------------------------------

  ghost predicate AllZero(s: seq<int>) {
    forall i :: 0 <= i < |s| ==> s[i] == 0
  }

  ghost predicate Unqueued(zz: seq<int>) {
    forall i :: 0 <= i < |zz| ==> zz[i] == 1000
  }

  /** No pairing, no group, no mark is left: what every seed starts from. */
  ghost predicate Clean(w: Work, t: Table) {
    && TableOk(t) && SizesOk(w, t) && |w.rq| == |w.tq|
    && AllZero(w.tq) && AllZero(w.rq) && AllZero(w.cp) && AllZero(w.rp) && Unqueued(w.zz)
  }

  /** Ready to grow a path: nothing queued, the pairing one-to-one, the groups in order. */
  ghost predicate Ready(w: Work, t: Table) {
    && TableOk(t) && SizesOk(w, t) && Inverse(w.tq, w.rq, t.nend)
    && GroupsOk(w.cp, w.rp, w.groups, t.nend) && |w.groups| <= WWIM + 1
    && Unqueued(w.zz)
  }

  /** Only the seed's own endpoint and those the odometer applied are paired. */
  ghost predicate Accounted(tq: seq<int>, seed: int, applied: seq<int>) {
    forall p :: 0 <= p < |tq| && tq[p] != 0 ==> p + 1 == seed || p + 1 in applied
  }

  ghost predicate RoundOk(s: Search, t: Table, pr: Prints, k: nat) {
    && k < |t.rows| && PrintsFit(t, pr) && Ready(s.w, t)
    && Accounted(s.w.tq, t.rows[k].pk, s.applied) && AllWithin(s.applied, 1, t.nend)
    && ClustersOk(s.clusters, t)
  }

  lemma ReadyGrows(w: Work, t: Table, row: ColpRow, ftt: int)
    requires Ready(w, t) && RowOk(row, t.nend)
    ensures WorkOk(Fresh(w, row), t, ftt)
  {
  }

  lemma GroupsAreAllOk(cp: seq<int>, rp: seq<int>, groups: seq<Group>, nend: nat)
    requires GroupsOk(cp, rp, groups, nend) && |groups| <= WWIM + 1
    ensures AllOk(groups, nend)
  {
  }

  /** The groups with other selections are filed as before. */
  lemma TurnedGroupsOk(cp: seq<int>, rp: seq<int>, a: seq<Group>, b: seq<Group>, nend: nat)
    requires GroupsOk(cp, rp, a, nend) && SameWheels(a, b) && AllOk(b, nend)
    ensures GroupsOk(cp, rp, b, nend)
  {
  }

  /** After teardown only the seed can still be paired, and no mark is left. */
  lemma TeardownKeeps(w0: Work, w: Work, t: Table, ftt: int, seed: int, applied: seq<int>)
    requires WorkOk(w, t, ftt) && Grown(w0, w) && w.q[0] == seed
    requires Accounted(w0.tq, seed, applied) && AllWithin(applied, 1, t.nend)
    ensures var r := Teardown(w, applied);
      && Inverse(r.tq, r.rq, t.nend) && Unqueued(r.zz) && Accounted(r.tq, seed, [])
  {
    var ps := w.q[1..] + applied;
    assert w.q == [seed] + w.q[1..];
    hide GroupsOk, PathOk, TableOk;
    assert AllWithin(ps, 1, t.nend);
    UnpairKeepsInverse(w.tq, w.rq, t.nend, ps);
    hide Inverse;
    var r := Teardown(w, applied);
    forall p | 0 <= p < |r.tq| && r.tq[p] != 0 ensures p + 1 == seed {
      assert w.tq[p] != 0 && p + 1 !in ps;
      assert w0.tq[p] == 0 ==> p + 1 in w.q;
    }
  }

  // --- One round of the endpoint-group loop ---------------------------------------------------

  /** The state after a round, and whether the odometer found a combination for another. */
  datatype Round = Round(s: Search, more: bool)

  lemma SettleKeeps(s: Search, t: Table, pr: Prints)
    requires WorkOk(s.w, t, s.ftt) && PrintsFit(t, pr) && ClustersOk(s.clusters, t)
    ensures var r := Settle(s, t, pr);
      && r.w == s.w.(sc := r.w.sc, path := []) && |r.w.sc| == |s.w.sc|
      && ClustersOk(r.clusters, t) && r.applied == s.applied && s.clusters <= r.clusters
  {
    hide WorkOk, PrintsFit, ClustersOk, Pruned, ClusterOf, RolledBack;
    PathFits(s.w, t, s.ftt);
    PrunedKeeps(s.w.path, t.rows);
    var kept := Pruned(s.w.path, t.rows);
    if |kept| >= MSTR {
      ClusterOfIsOk(kept, t, pr);
      OneMoreOk(s.clusters, ClusterOf(kept, t, pr), t);
    }
  }

  lemma PathFits(w: Work, t: Table, ftt: int)
    requires WorkOk(w, t, ftt)
    ensures AllWithin(w.path, 1, |t.rows|) && Distinct(w.path) && |w.sc| == |w.rk|
  {
  }

  lemma OneMoreOk(cs: seq<Cluster>, c: Cluster, t: Table)
    requires ClustersOk(cs, t) && ClusterOk(c, t)
    ensures ClustersOk(cs + [c], t)
  {
  }

  /** What is left once a path has been settled: everything but its own stamps. */
  ghost predicate SettledFrom(w0: Work, w: Work, t: Table) {
    WorkOk(w, t, 0) && Grown(w0, w) && w.path == []
  }

  /** Grows the next path from the pairing at hand and settles it. */
  function GrowAndSettle(s: Search, t: Table, pr: Prints, k: nat): (r: Outcome<Search>)
    requires RoundOk(s, t, pr, k)
    ensures r.Ok? ==> SettledFrom(Fresh(s.w, t.rows[k]), r.value.w, t) && ClustersOk(r.value.clusters, t)
    ensures r.Ok? ==> r.value.applied == s.applied && s.clusters <= r.value.clusters
  {
    ReadyGrows(s.w, t, t.rows[k], s.ftt + 1);
    match Grow(s.w, t, k, s.ftt + 1)
    case Overflow => Overflow
    case Ok(w) =>
      GrowKeeps(s.w, t, k, s.ftt + 1);
      var grown := Search(w, s.ftt + 1, s.clusters, s.applied);
      SettleKeeps(grown, t, pr);
      SettledAfter(Fresh(s.w, t.rows[k]), w, Settle(grown, t, pr).w, t, s.ftt + 1);
      Ok(Settle(grown, t, pr))
  }

  lemma SettledAfter(w0: Work, w: Work, w': Work, t: Table, ftt: int)
    requires WorkOk(w, t, ftt) && Grown(w0, w) && w0.path == [] && w' == w.(sc := w'.sc, path := [])
    requires |w'.sc| == |w.sc|
    ensures SettledFrom(w0, w', t)
  {
  }

  /** Tears the path down and turns the odometer. */
  function TearAndTurn(s: Search, t: Table): (r: Round)
    requires s.w.q != [] && Inverse(s.w.tq, s.w.rq, t.nend) && AllOk(s.w.groups, t.nend)
    requires AllWithin(s.w.q, 1, t.nend) && AllWithin(s.applied, 1, t.nend)
  {
    var w := Teardown(s.w, s.applied);
    UnpairKeepsInverse(s.w.tq, s.w.rq, t.nend, s.w.q[1..] + s.applied);
    TurnKeeps(w.tq, w.rq, w.groups, t.nend);
    var turned := Turn(w.tq, w.rq, w.groups, t.nend);
    var next := w.(tq := turned.tq, rq := turned.rq, groups := turned.groups);
    Round(Search(next, s.ftt, s.clusters, if turned.more then SelectedProbes(turned.groups, t.nend, 0) else []),
          turned.more)
  }

  /** A round hands the next one a state to start from, or leaves nothing but the seed paired. */
  lemma TearAndTurnKeeps(w0: Work, s: Search, t: Table, seed: int)
    requires SettledFrom(w0, s.w, t) && w0.q == [seed] && IsEndpoint(seed, t.nend)
    requires Accounted(w0.tq, seed, s.applied) && AllWithin(s.applied, 1, t.nend)
    ensures s.w.q != [] && Inverse(s.w.tq, s.w.rq, t.nend) && AllOk(s.w.groups, t.nend) && AllWithin(s.w.q, 1, t.nend)
    ensures var r := TearAndTurn(s, t);
      && Ready(r.s.w, t) && Accounted(r.s.w.tq, seed, r.s.applied) && AllWithin(r.s.applied, 1, t.nend)
      && r.s.clusters == s.clusters
      && AllOk(r.s.w.groups, t.nend) && (r.more ==> Before(s.w.groups, r.s.w.groups))
  {
    GroupsAreAllOk(s.w.cp, s.w.rp, s.w.groups, t.nend);
    TeardownKeeps(w0, s.w, t, 0, seed, s.applied);
    var w := Teardown(s.w, s.applied);
    TurnKeeps(w.tq, w.rq, w.groups, t.nend);
    var turned := Turn(w.tq, w.rq, w.groups, t.nend);
    TurnedGroupsOk(w.cp, w.rp, w.groups, turned.groups, t.nend);
    TurnAccounts(w.tq, seed, turned, t.nend);
  }

  lemma TurnAccounts(tq: seq<int>, seed: int, r: Turned, nend: nat)
    requires nend <= |tq| == |r.tq| && AllOk(r.groups, nend) && Accounted(tq, seed, [])
    requires if r.more then Landed(tq, r, nend) else Restricts(r.tq, tq)
    ensures var applied := if r.more then SelectedProbes(r.groups, nend, 0) else [];
      Accounted(r.tq, seed, applied) && AllWithin(applied, 1, nend)
  {
    if r.more { SelectedWithin(r.groups, nend, 0); }
  }

  // --- The whole of one seed ------------------------------------------------------------------

  /** How the search for one seed, or for all of them, comes to an end. */
  datatype Ending = QueueFull | ClustersFull(s: Search) | Finished(s: Search)

  /** Pairs the seed's own endpoints, with no group open. */
  function Plant(s: Search, row: ColpRow): (r: Search)
    requires 1 <= row.pk <= |s.w.tq| && 1 <= row.ga <= |s.w.rq|
  {
    s.(w := s.w.(tq := s.w.tq[row.pk - 1 := row.ga], rq := s.w.rq[row.ga - 1 := row.pk],
                 q := [row.pk], path := [], groups := []), applied := [])
  }

  predicate HasGroup(groups: seq<Group>, ofProbe: bool, e: int) {
    exists b :: 0 <= b < |groups| && groups[b].ofProbe == ofProbe && groups[b].end == e
  }

  function Erased(book: seq<int>, groups: seq<Group>, ofProbe: bool): (r: seq<int>)
    ensures |r| == |book|
    ensures forall p :: 0 <= p < |r| ==> r[p] == if HasGroup(groups, ofProbe, p + 1) then 0 else book[p]
  {
    seq(|book|, p requires 0 <= p < |book| => if HasGroup(groups, ofProbe, p + 1) then 0 else book[p])
  }

  /** Unpairs the seed if it still is paired and forgets its groups. */
  function Cleanup(w: Work, seed: int): (r: Work) {
    w.(tq := UnpairProbes(w.tq, [seed]), rq := UnpairGallery(w.rq, [seed]),
       cp := Erased(w.cp, w.groups, true), rp := Erased(w.rp, w.groups, false), groups := [])
  }

  /** New groups and new alternatives never raise the rank: a new digit starts below its bound. */
  lemma {:induction false} WideningKeepsRank(a: seq<Group>, b: seq<Group>, nend: nat, i: nat)
    requires AllOk(a, nend) && AllOk(b, nend) && AllWidened(a, b)
    ensures Rank(b, nend, i) <= Rank(a, nend, i)
    decreases WWIM + 1 - i
  {
    if i <= WWIM {
      WideningKeepsRank(a, b, nend, i + 1);
      RoomFalls(a, b, nend, i);
      hide AllOk, AllWidened, Room;
      ScaleUp(Span(nend, WWIM - i), Room(b, nend, i), Room(a, nend, i));
    }
  }

  lemma RoomFalls(a: seq<Group>, b: seq<Group>, nend: nat, i: nat)
    requires AllOk(a, nend) && AllOk(b, nend) && AllWidened(a, b)
    ensures Room(b, nend, i) <= Room(a, nend, i)
  {
    if i < |b| { assert GroupOk(b[i], nend); }
    if i < |a| { assert Widened(a[i], b[i]); }
  }

  /** Everything one more round needs, and that it is nearer to the end. */
  lemma RoundKeeps(s: Search, t: Table, pr: Prints, k: nat)
    requires RoundOk(s, t, pr, k) && GrowAndSettle(s, t, pr, k).Ok?
    ensures var g := GrowAndSettle(s, t, pr, k).value;
      && g.w.q != [] && Inverse(g.w.tq, g.w.rq, t.nend) && AllOk(g.w.groups, t.nend)
      && AllWithin(g.w.q, 1, t.nend) && AllWithin(g.applied, 1, t.nend)
    ensures var r := TearAndTurn(GrowAndSettle(s, t, pr, k).value, t);
      && RoundOk(r.s, t, pr, k) && (!r.more ==> Accounted(r.s.w.tq, t.rows[k].pk, []))
      && s.clusters <= r.s.clusters
      && AllOk(s.w.groups, t.nend) && AllOk(r.s.w.groups, t.nend)
      && (r.more ==> TurnsLeft(r.s.w.groups, t.nend) < TurnsLeft(s.w.groups, t.nend))
  {
    var g, seed := GrowAndSettle(s, t, pr, k).value, t.rows[k].pk;
    var w0 := Fresh(s.w, t.rows[k]);
    assert RowOk(t.rows[k], t.nend);
    GroupsAreAllOk(s.w.cp, s.w.rp, s.w.groups, t.nend);
    TearAndTurnKeeps(w0, g, t, seed);
    assert AllWidened(s.w.groups, g.w.groups);
    hide GrowAndSettle, SettledFrom, TearAndTurn, Ready;
    var r := TearAndTurn(g, t);
    WideningKeepsRank(s.w.groups, g.w.groups, t.nend, 0);
    if r.more {
      BeforeRanks(g.w.groups, r.s.w.groups, t.nend);
    }
  }

  lemma SeedStaysQueued(s: Search, t: Table, pr: Prints, k: nat, g: Search)
    requires RoundOk(s, t, pr, k) && GrowAndSettle(s, t, pr, k) == Ok(g)
    ensures g.w.q != [] && g.w.q[..1] == [t.rows[k].pk]
  {
    hide GrowAndSettle, Ready, ClustersOk, WorkOk;
    assert Fresh(s.w, t.rows[k]).q == [t.rows[k].pk];
  }

  lemma TurningKeepsRest(g: Search, t: Table)
    requires g.w.q != [] && Inverse(g.w.tq, g.w.rq, t.nend) && AllOk(g.w.groups, t.nend)
    requires AllWithin(g.w.q, 1, t.nend) && AllWithin(g.applied, 1, t.nend)
    ensures var r := TearAndTurn(g, t); r.s.w.q == g.w.q[..1] && r.s.ftt == g.ftt && r.s.clusters == g.clusters
  {
    hide AllOk, Inverse, Turn;
  }

  /** One round leaves a state to begin the next from, still seeded as it was. */
  lemma RoundGoesOn(s: Search, t: Table, pr: Prints, k: nat, g: Search)
    requires RoundOk(s, t, pr, k) && GrowAndSettle(s, t, pr, k) == Ok(g)
    ensures g.w.q != [] && Inverse(g.w.tq, g.w.rq, t.nend) && AllOk(g.w.groups, t.nend)
    ensures AllWithin(g.w.q, 1, t.nend) && AllWithin(g.applied, 1, t.nend)
    ensures var r := TearAndTurn(g, t);
      && RoundOk(r.s, t, pr, k) && AllOk(r.s.w.groups, t.nend) && r.s.w.q == [t.rows[k].pk]
      && r.s.ftt == g.ftt && r.s.clusters == g.clusters
  {
    hide RoundOk, GrowAndSettle, TearAndTurn, Inverse, AllOk, AllWithin;
    RoundKeeps(s, t, pr, k);
    SeedStaysQueued(s, t, pr, k, g);
    TurningKeepsRest(g, t);
  }

  /** Rounds until the odometer has run out of combinations, then the seed's cleanup. */
  function SeedLoop(s: Search, t: Table, pr: Prints, k: nat): (r: Ending)
    requires RoundOk(s, t, pr, k) && AllOk(s.w.groups, t.nend)
    decreases TurnsLeft(s.w.groups, t.nend)
  {
    match GrowAndSettle(s, t, pr, k)
    case Overflow => QueueFull
    case Ok(g) =>
      RoundKeeps(s, t, pr, k);
      var r := TearAndTurn(g, t);
      if |r.s.clusters| > MAX_CLUSTERS then ClustersFull(r.s)
      else if r.more then SeedLoop(r.s, t, pr, k)
      else Finished(r.s.(w := Cleanup(r.s.w, t.rows[k].pk)))
  }

  lemma CleanupCleans(w: Work, t: Table, seed: int)
    requires Ready(w, t) && Accounted(w.tq, seed, []) && IsEndpoint(seed, t.nend)
    ensures Clean(Cleanup(w, seed), t)
  {
    var r := Cleanup(w, seed);
    UnpairKeepsInverse(w.tq, w.rq, t.nend, [seed]);
    assert AllZero(r.tq);
    ZeroHalves(r.tq, r.rq, t.nend);
    ErasedIsZero(w.cp, w.groups, true);
    ErasedIsZero(w.rp, w.groups, false);
  }

  lemma ZeroHalves(tq: seq<int>, rq: seq<int>, nend: nat)
    requires Inverse(tq, rq, nend) && AllZero(tq)
    ensures AllZero(rq)
  {
    forall g | 0 <= g < |rq| ensures rq[g] == 0 {
      if rq[g] != 0 { PartnerBack(tq, rq, nend, g); }
    }
  }

  lemma PartnerBack(tq: seq<int>, rq: seq<int>, nend: nat, g: nat)
    requires Inverse(tq, rq, nend) && g < |rq| && rq[g] != 0
    ensures 1 <= rq[g] <= |tq| && tq[rq[g] - 1] == g + 1
  {
  }

  lemma ErasedIsZero(book: seq<int>, groups: seq<Group>, ofProbe: bool)
    requires Books(book, groups, ofProbe)
    ensures AllZero(Erased(book, groups, ofProbe))
  {
    forall p | 0 <= p < |book| ensures book[p] != 0 ==> HasGroup(groups, ofProbe, p + 1) {
      if book[p] != 0 { assert groups[book[p] - 1].end == p + 1; }
    }
  }

  lemma PlantIsReady(s: Search, t: Table, pr: Prints, k: nat)
    requires Clean(s.w, t) && k < |t.rows| && PrintsFit(t, pr) && ClustersOk(s.clusters, t)
    ensures var p := Plant(s, t.rows[k]); RoundOk(p, t, pr, k) && p.w.groups == []
  {
    assert RowOk(t.rows[k], t.nend);
    assert Inverse(s.w.tq, s.w.rq, t.nend);
    PairKeepsInverse(s.w.tq, s.w.rq, t.nend, t.rows[k].pk, t.rows[k].ga);
  }

  /**
   * A seed that runs its course leaves the pairing, the group numbers and the marks as clean as it
   * found them, whatever rounds it took and whether or not a teardown has unpaired the seed itself.
   */
  lemma {:induction false} SeedLeavesClean(s: Search, t: Table, pr: Prints, k: nat)
    requires RoundOk(s, t, pr, k) && AllOk(s.w.groups, t.nend)
    ensures var r := SeedLoop(s, t, pr, k);
      && (r.Finished? ==> Clean(r.s.w, t))
      && (!r.QueueFull? ==> s.clusters <= r.s.clusters && ClustersOk(r.s.clusters, t))
    decreases TurnsLeft(s.w.groups, t.nend)
  {
    hide Clean, ClustersOk, AllOk, SettledFrom, GrowAndSettle, TearAndTurn, Accounted;
    var g := GrowAndSettle(s, t, pr, k);
    if g.Ok? {
      RoundKeeps(s, t, pr, k);
      var r := TearAndTurn(g.value, t);
      if |r.s.clusters| <= MAX_CLUSTERS && r.more {
        hide RoundOk;
        SeedLeavesClean(r.s, t, pr, k);
      } else if |r.s.clusters| <= MAX_CLUSTERS {
        assert RowOk(t.rows[k], t.nend);
        hide Ready;
        CleanupCleans(r.s.w, t, t.rows[k].pk);
      }
    }
  }

  lemma RoundAddsOne(s: Search, t: Table, pr: Prints, k: nat)
    requires RoundOk(s, t, pr, k) && GrowAndSettle(s, t, pr, k).Ok?
    ensures |GrowAndSettle(s, t, pr, k).value.clusters| <= |s.clusters| + 1
  {
    hide RoundOk, Grow, Pruned, ClusterOf, RolledBack;
  }

  /** A round forms a cluster at most, and the search ends with the first that is one too many. */
  lemma {:induction false} SeedFormsFew(s: Search, t: Table, pr: Prints, k: nat)
    requires RoundOk(s, t, pr, k) && AllOk(s.w.groups, t.nend) && |s.clusters| <= MAX_CLUSTERS
    ensures FewClusters(SeedLoop(s, t, pr, k))
    decreases TurnsLeft(s.w.groups, t.nend)
  {
    hide RoundOk, AllOk, GrowAndSettle, TearAndTurn, Inverse, AllWithin, Accounted, Cleanup;
    if GrowAndSettle(s, t, pr, k).Ok? {
      var g := GrowAndSettle(s, t, pr, k).value;
      RoundAddsOne(s, t, pr, k);
      RoundGoesOn(s, t, pr, k, g);
      RoundKeeps(s, t, pr, k);
      var r := TearAndTurn(g, t);
      if r.more && |r.s.clusters| <= MAX_CLUSTERS {
        SeedFormsFew(r.s, t, pr, k);
      }
    }
  }

  /** The search has gone through all seeds with at most as many clusters as allowed, or has one too many. */
  predicate FewClusters(e: Ending) {
    match e
    case QueueFull => true
    case ClustersFull(s) => |s.clusters| == 2000
    case Finished(s) => |s.clusters| <= 1999
  }

  // --- Every seed -----------------------------------------------------------------------------

  /** What holds whenever the sweep reaches a seed. */
  ghost predicate SweepOk(s: Search, t: Table, pr: Prints) {
    Clean(s.w, t) && PrintsFit(t, pr) && ClustersOk(s.clusters, t)
  }

  /** Seeds rows `k, k + 1, ..` that no path has used yet, all but the last row of the table. */
  function Sweep(s: Search, t: Table, pr: Prints, k: nat): (r: Ending)
    requires SweepOk(s, t, pr)
    decreases |t.rows| - k
  {
    if k + 1 >= |t.rows| then Finished(s)
    else if s.w.sc[k] != 0 then Sweep(s, t, pr, k + 1)
    else
      PlantIsReady(s, t, pr, k);
      var p := Plant(s, t.rows[k]);
      SeedLeavesClean(p, t, pr, k);
      var r := SeedLoop(p, t, pr, k);
      if r.Finished? then Sweep(r.s, t, pr, k + 1) else r
  }

  lemma {:induction false} SweepKeepsClusters(s: Search, t: Table, pr: Prints, k: nat)
    requires SweepOk(s, t, pr)
    ensures var r := Sweep(s, t, pr, k);
      && (!r.QueueFull? ==> ClustersOk(r.s.clusters, t) && s.clusters <= r.s.clusters)
      && (r.Finished? ==> Clean(r.s.w, t))
    decreases |t.rows| - k
  {
    hide ClustersOk, RoundOk, SeedLoop;
    if k + 1 < |t.rows| {
      if s.w.sc[k] != 0 {
        SweepKeepsClusters(s, t, pr, k + 1);
      } else {
        PlantIsReady(s, t, pr, k);
        var p := Plant(s, t.rows[k]);
        SeedLeavesClean(p, t, pr, k);
        var r := SeedLoop(p, t, pr, k);
        if r.Finished? { SweepKeepsClusters(r.s, t, pr, k + 1); }
      }
    }
  }

  lemma {:induction false} SweepFormsFew(s: Search, t: Table, pr: Prints, k: nat)
    requires SweepOk(s, t, pr) && |s.clusters| <= MAX_CLUSTERS
    ensures FewClusters(Sweep(s, t, pr, k))
    decreases |t.rows| - k
  {
    hide ClustersOk, SeedLoop;
    if k + 1 < |t.rows| {
      if s.w.sc[k] != 0 {
        SweepFormsFew(s, t, pr, k + 1);
      } else {
        PlantIsReady(s, t, pr, k);
        var p := Plant(s, t.rows[k]);
        SeedLeavesClean(p, t, pr, k);
        hide RoundOk, AllOk;
        SeedFormsFew(p, t, pr, k);
        var r := SeedLoop(p, t, pr, k);
        if r.Finished? { SweepFormsFew(r.s, t, pr, k + 1); }
      }
    }
  }

  /** The search before the first seed, with work arrays of length `big`. */
  function Initial(big: nat): (r: Search) {
    var zeros := seq(big, _ => 0);
    Search(Work(zeros, zeros, zeros, zeros, seq(big, _ => 1000), zeros, zeros, [0], [], []), 0, [], [])
  }

  lemma InitialIsOk(big: nat, t: Table, pr: Prints)
    requires TableOk(t) && PrintsFit(t, pr) && |t.rows| < big && t.nend < big
    ensures SweepOk(Initial(big), t, pr)
  {
  }
}
