/** What every grown path keeps, whatever table and pairing it starts from. */
module PathFacts {
  import opened Consts
  import opened Paths

  lemma GrownTransitive(a: Work, b: Work, c: Work)
    requires Grown(a, b) && Grown(b, c)
    ensures Grown(a, c)
  {
    AllWidenedTransitive(a.groups, b.groups, c.groups);
    forall p | 0 <= p < |a.tq| && a.tq[p] == 0 && c.tq[p] != 0 ensures p + 1 in c.q {
      assert b.tq[p] != 0 ==> p + 1 in b.q;
    }
  }

  lemma SiftRowGrows(w: Work, t: Table, i: nat, forward: bool, ftt: int)
    requires WorkOk(w, t, ftt) && i < |t.rows|
    ensures var r := SiftRow(w, t, i, forward, ftt);
      r.Ok? ==> WorkOk(r.value, t, ftt) && Grown(w, r.value)
  {
    var row := t.rows[i];
    if forward { SiftKeeps(w, t, row.pj, row.gb, i + 1, ftt); } else { SiftKeeps(w, t, row.pk, row.ga, i + 1, ftt); }
  }

  lemma {:induction false} SiftAllGrows(w: Work, t: Table, idx: seq<nat>, forward: bool, ftt: int)
    requires WorkOk(w, t, ftt) && Indices(idx, |t.rows|)
    ensures var r := SiftAll(w, t, idx, forward, ftt); r.Ok? ==> Grown(w, r.value)
  {
    if idx == [] {
      GrownReflexive(w);
    } else {
      var m := |idx| - 1;
      SiftAllGrows(w, t, idx[..m], forward, ftt);
      var r := SiftAll(w, t, idx[..m], forward, ftt);
      if r.Ok? {
        SiftRowGrows(r.value, t, idx[m], forward, ftt);
        var r' := SiftRow(r.value, t, idx[m], forward, ftt);
        if r'.Ok? { GrownTransitive(w, r.value, r'.value); }
      }
    }
  }

  lemma GrownReflexive(w: Work)
    ensures Grown(w, w)
  {
  }

  /** The `j`-th queued endpoint is `p`, paired with `g`. */
  ghost predicate Queued(w: Work, j: nat, p: int, g: int) {
    1 <= j < |w.q| && w.q[j] == p && 1 <= p <= |w.tq| && w.tq[p - 1] == g
  }

  lemma QueuedIsPaired(w: Work, t: Table, ftt: int, j: nat, p: int, g: int)
    requires WorkOk(w, t, ftt) && Queued(w, j, p, g)
    ensures g != 0 && |w.q| <= QQ_SIZE
  {
  }

  lemma QueuedStays(w: Work, w': Work, j: nat, p: int, g: int)
    requires Grown(w, w') && Queued(w, j, p, g) && g != 0
    ensures Queued(w', j, p, g)
  {
  }

  // --- A path realises one map ----------------------------------------------------------------

  /** The far pair of edge `r` is in the pairing and, for an edge the expansion reached, the near pair too. */
  ghost predicate EdgeRealised(tq: seq<int>, r: ColpRow, both: bool) {
    && 1 <= r.pj <= |tq| && tq[r.pj - 1] == r.gb
    && (both ==> 1 <= r.pk <= |tq| && tq[r.pk - 1] == r.ga)
  }

  /** Edges numbered above `kq` were reached by the expansion; the others start at the seed. */
  ghost predicate Realised(w: Work, t: Table, kq: nat) {
    forall i :: 0 <= i < |w.path| ==>
      1 <= w.path[i] <= |t.rows| && EdgeRealised(w.tq, t.rows[w.path[i] - 1], kq < w.path[i])
  }

  /** Before row `i` is sifted, the end it was met at is paired. */
  ghost predicate Met(tq: seq<int>, t: Table, i: nat, forward: bool, kq: nat)
    requires i < |t.rows|
  {
    var r := t.rows[i];
    if forward then kq <= i ==> 1 <= r.pk <= |tq| && tq[r.pk - 1] == r.ga && r.ga != 0
    else 1 <= r.pj <= |tq| && tq[r.pj - 1] == r.gb && r.gb != 0
  }

  lemma ExtendsRealises(w: Work, w': Work, t: Table, kq: nat, kx: int)
    requires TableOk(t) && Realised(w, t, kq) && Extends(w.tq, w'.tq)
    requires 1 <= kx <= |t.rows| && EdgeRealised(w'.tq, t.rows[kx - 1], kq < kx)
    requires w'.path == w.path + [kx]
    ensures Realised(w', t, kq)
  {
    SamePathRealises(w, w'.(path := w.path), t, kq);
  }

  lemma SamePathRealises(w: Work, w': Work, t: Table, kq: nat)
    requires TableOk(t) && Realised(w, t, kq) && Extends(w.tq, w'.tq) && w'.path == w.path
    ensures Realised(w', t, kq)
  {
    forall i | 0 <= i < |w.path|
      ensures 1 <= w.path[i] <= |t.rows| && EdgeRealised(w'.tq, t.rows[w.path[i] - 1], kq < w.path[i])
    {
      assert EdgeRealised(w.tq, t.rows[w.path[i] - 1], kq < w.path[i]) && RowOk(t.rows[w.path[i] - 1], t.nend);
    }
  }

  /** One sift appends at most its own edge, and then only with its far pair in place. */
  lemma SiftAppends(w: Work, t: Table, kz: int, l: int, kx: int, ftt: int)
    requires WorkOk(w, t, ftt) && IsEndpoint(kz, t.nend) && IsEndpoint(l, t.nend) && 1 <= kx <= |t.rows|
    ensures var r := Sift(w, t, kz, l, kx, ftt);
      r.Ok? ==> r.value.path == w.path || (r.value.path == w.path + [kx] && r.value.tq[kz - 1] == l)
  {
  }

  lemma SiftRowRealises(w: Work, t: Table, i: nat, forward: bool, ftt: int, kq: nat)
    requires WorkOk(w, t, ftt) && i < |t.rows| && Realised(w, t, kq) && Met(w.tq, t, i, forward, kq)
    ensures var r := SiftRow(w, t, i, forward, ftt); r.Ok? ==> Realised(r.value, t, kq)
  {
    var row, r := t.rows[i], SiftRow(w, t, i, forward, ftt);
    SiftRowGrows(w, t, i, forward, ftt);
    if forward { SiftAppends(w, t, row.pj, row.gb, i + 1, ftt); }
    else { SiftAppends(w, t, row.pk, row.ga, i + 1, ftt); }
    hide WorkOk, Realised;
    if r.Ok? {
      if r.value.path == w.path {
        SamePathRealises(w, r.value, t, kq);
      } else {
        ExtendsRealises(w, r.value, t, kq, i + 1);
      }
    }
  }

  lemma {:induction false} SiftAllRealises(w: Work, t: Table, idx: seq<nat>, forward: bool, ftt: int, kq: nat)
    requires WorkOk(w, t, ftt) && Indices(idx, |t.rows|) && Realised(w, t, kq)
    requires forall i :: 0 <= i < |idx| ==> Met(w.tq, t, idx[i], forward, kq)
    ensures var r := SiftAll(w, t, idx, forward, ftt); r.Ok? ==> Realised(r.value, t, kq)
  {
    if idx != [] {
      var m := |idx| - 1;
      SiftAllRealises(w, t, idx[..m], forward, ftt, kq);
      SiftAllGrows(w, t, idx[..m], forward, ftt);
      var r := SiftAll(w, t, idx[..m], forward, ftt);
      if r.Ok? {
        assert Met(r.value.tq, t, idx[m], forward, kq);
        SiftRowRealises(r.value, t, idx[m], forward, ftt, kq);
      }
    }
  }

  lemma QueueFits(w: Work, t: Table, ftt: int, j: nat)
    requires WorkOk(w, t, ftt) && 1 <= j < |w.q|
    ensures 1 <= w.q[j] <= |w.tq| && w.tq[w.q[j] - 1] != 0
  {
  }

  lemma PartnerKept(w: Work, w': Work, p: int)
    requires Grown(w, w') && 1 <= p <= |w.tq| && w.tq[p - 1] != 0
    ensures p <= |w'.tq| && w'.tq[p - 1] == w.tq[p - 1]
  {
  }

  lemma ExpandKeeps(w: Work, t: Table, k: nat, kq: nat, j: nat, ftt: int)
    requires WorkOk(w, t, ftt) && k < |t.rows| && 1 <= j < |w.q| && Realised(w, t, kq)
    ensures var r := Expand(w, t, k, kq, j, ftt);
      r.Ok? ==> Grown(w, r.value) && Realised(r.value, t, kq)
  {
    hide WorkOk, SiftAll, RowsEndingAt, RowsStartingAt, Grown, Realised;
    QueueFits(w, t, ftt, j);
    var p, n := w.q[j], |t.rows|;
    var g := w.tq[p - 1];
    var ending := RowsEndingAt(t.rows, kq, n, p, g, t.rows[k]);
    var starting := RowsStartingAt(t.rows, kq, n, p, g);
    SiftAllGrows(w, t, ending, false, ftt);
    SiftAllRealises(w, t, ending, false, ftt, kq);
    var r := SiftAll(w, t, ending, false, ftt);
    if r.Ok? {
      PartnerKept(w, r.value, p);
      SiftAllGrows(r.value, t, starting, true, ftt);
      SiftAllRealises(r.value, t, starting, true, ftt, kq);
      var r' := SiftAll(r.value, t, starting, true, ftt);
      if r'.Ok? { GrownTransitive(w, r.value, r'.value); }
    }
  }

  lemma {:induction false} ExploreKeeps(w: Work, t: Table, k: nat, kq: nat, j: nat, ftt: int)
    requires WorkOk(w, t, ftt) && k < |t.rows| && 1 <= j && Realised(w, t, kq)
    ensures var r := Explore(w, t, k, kq, j, ftt);
      r.Ok? ==> Grown(w, r.value) && Realised(r.value, t, kq)
    decreases QQ_SIZE - j
  {
    if j >= |w.q| {
      GrownReflexive(w);
    } else {
      ExpandKeeps(w, t, k, kq, j, ftt);
      var r := Expand(w, t, k, kq, j, ftt);
      if r.Ok? {
        ExploreKeeps(r.value, t, k, kq, j + 1, ftt);
        var r' := Explore(r.value, t, k, kq, j + 1, ftt);
        if r'.Ok? { GrownTransitive(w, r.value, r'.value); }
      }
    }
  }

  /** Over a whole path the pairing only grows, and every edge taken is realised by it. */
  lemma GrowKeeps(w: Work, t: Table, k: nat, ftt: int)
    requires k < |t.rows| && WorkOk(Fresh(w, t.rows[k]), t, ftt)
    ensures var r := Grow(w, t, k, ftt);
      r.Ok? ==> Grown(Fresh(w, t.rows[k]), r.value) && Realised(r.value, t, SeedEnd(t.rows, k, k + 1))
  {
    var w0, kq := Fresh(w, t.rows[k]), SeedEnd(t.rows, k, k + 1);
    SiftAllGrows(w0, t, RowRange(k, kq), true, ftt);
    SiftAllRealises(w0, t, RowRange(k, kq), true, ftt, kq);
    var r := SiftAll(w0, t, RowRange(k, kq), true, ftt);
    if r.Ok? {
      ExploreKeeps(r.value, t, k, kq, 1, ftt);
      var r' := Explore(r.value, t, k, kq, 1, ftt);
      if r'.Ok? { GrownTransitive(w0, r.value, r'.value); }
    }
  }

  /** Two edges agree on a probe endpoint exactly when they agree on its gallery partner. */
  ghost predicate Consistent(a: ColpRow, b: ColpRow) {
    && (a.pk == b.pk <==> a.ga == b.ga)
    && (a.pj == b.pj <==> a.gb == b.gb)
    && (a.pk == b.pj <==> a.ga == b.gb)
  }

  /**
   * The edges a path's expansion reached realise one injective map from probe to gallery endpoints:
   * across any two of them, equal probe endpoints have equal partners and the reverse.
   */
  lemma PathIsOneToOne(w: Work, t: Table, k: nat, ftt: int, w': Work, i: nat, j: nat)
    requires k < |t.rows| && WorkOk(Fresh(w, t.rows[k]), t, ftt) && Grow(w, t, k, ftt) == Ok(w')
    requires i < |w'.path| && SeedEnd(t.rows, k, k + 1) < w'.path[i]
    requires j < |w'.path| && SeedEnd(t.rows, k, k + 1) < w'.path[j]
    ensures WorkOk(w', t, ftt) && Consistent(t.rows[w'.path[i] - 1], t.rows[w'.path[j] - 1])
  {
    GrowKeeps(w, t, k, ftt);
    hide Grow, WorkOk, Realised, Grown;
    EdgesConsistent(w', t, SeedEnd(t.rows, k, k + 1), ftt, i, j);
  }

  lemma EdgesConsistent(w: Work, t: Table, kq: nat, ftt: int, i: nat, j: nat)
    requires WorkOk(w, t, ftt) && Realised(w, t, kq)
    requires i < |w.path| && j < |w.path| && kq < w.path[i] && kq < w.path[j]
    ensures Consistent(t.rows[w.path[i] - 1], t.rows[w.path[j] - 1])
  {
    var a, b := t.rows[w.path[i] - 1], t.rows[w.path[j] - 1];
    assert EdgeRealised(w.tq, a, true) && EdgeRealised(w.tq, b, true);
    assert RowOk(a, t.nend) && RowOk(b, t.nend);
    hide WorkOk, Realised, Inverse;
    SamePartner(w.tq, w.rq, t.nend, a.pk, b.pk);
    SamePartner(w.tq, w.rq, t.nend, a.pj, b.pj);
    SamePartner(w.tq, w.rq, t.nend, a.pk, b.pj);
  }

  lemma SamePartner(tq: seq<int>, rq: seq<int>, nend: nat, p: int, p': int)
    requires Inverse(tq, rq, nend) && IsEndpoint(p, nend) && IsEndpoint(p', nend)
    requires tq[p - 1] != 0
    ensures p == p' <==> tq[p - 1] == tq[p' - 1]
  {
    assert rq[tq[p - 1] - 1] == p;
  }
}
