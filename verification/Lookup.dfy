/** Finding rows of the sorted table by their start. */
module Lookup {
  import opened Consts
  import opened Seqs
  import opened Paths
  import opened PathFacts

  predicate KeyLess(p: int, g: int, r: ColpRow) {
    p < r.pk || (p == r.pk && g < r.ga)
  }

  predicate KeyMore(p: int, g: int, r: ColpRow) {
    p > r.pk || (p == r.pk && g > r.ga)
  }

  /** Rows ascend by (probe_k, gallery_a). */
  ghost predicate Ordered(rows: seq<ColpRow>) {
    forall i, j :: 0 <= i < j < |rows| ==> !KeyLess(rows[j].pk, rows[j].ga, rows[i])
  }

  const SENTINEL := ColpRow(0, 0, 0, 0, 0)

  lemma {:induction false} SeedEndIs(rows: seq<ColpRow>, k: nat, i: nat, e: nat)
    requires k < |rows| && i <= e <= |rows|
    requires forall x :: i <= x < e ==> SameKey(rows[x], rows[k])
    requires e < |rows| ==> !SameKey(rows[e], rows[k])
    ensures SeedEnd(rows, k, i) == e
    decreases e - i
  {
    if i < e {
      SeedEndIs(rows, k, i + 1, e);
    }
  }

  lemma RangePrefix(lo: nat, mid: nat, hi: nat)
    requires lo <= mid <= hi
    ensures RowRange(lo, mid) == RowRange(lo, hi)[..mid - lo]
  {
  }

  /** Sifting one more row. */
  lemma SiftSnoc(w: Work, t: Table, idx: seq<nat>, i: nat, forward: bool, ftt: int)
    requires WorkOk(w, t, ftt) && Indices(idx, |t.rows|) && i < |t.rows|
    ensures Indices(idx + [i], |t.rows|)
    ensures SiftAll(w, t, idx + [i], forward, ftt) ==
      match SiftAll(w, t, idx, forward, ftt)
      case Overflow => Overflow
      case Ok(w1) => SiftRow(w1, t, i, forward, ftt)
  {
    assert (idx + [i])[..|idx|] == idx;
  }

  /** Once the queue has overflowed, sifting more rows changes nothing. */
  lemma {:induction false} OverflowSticks(w: Work, t: Table, idx: seq<nat>, m: nat, forward: bool, ftt: int)
    requires WorkOk(w, t, ftt) && Indices(idx, |t.rows|) && m <= |idx|
    requires SiftAll(w, t, idx[..m], forward, ftt).Overflow?
    ensures SiftAll(w, t, idx, forward, ftt).Overflow?
  {
    hide WorkOk, SiftRow;
    if m == |idx| {
      assert idx[..m] == idx;
    } else {
      var n := |idx| - 1;
      assert idx[..n][..m] == idx[..m];
      OverflowSticks(w, t, idx[..n], m, forward, ftt);
    }
  }

  /** In an ordered table the rows that start at (p, g) are one contiguous run. */
  lemma {:induction false} StartingRowsAreRun(rows: seq<ColpRow>, lo: nat, hi: nat, p: int, g: int, head: nat, end: nat)
    requires lo <= head <= end && lo <= hi <= |rows|
    requires forall x :: lo <= x < hi ==> (StartsAt(rows[x], p, g) <==> head <= x < end)
    ensures RowsStartingAt(rows, lo, hi, p, g) == RowRange(head, if end < hi then end else hi)
    decreases hi - lo
  {
    if lo < hi {
      StartingRowsAreRun(rows, lo, hi - 1, p, g, head, end);
    }
  }

  /** One more row number, larger than those before. */
  lemma ExactSnoc(r: seq<nat>, n: nat)
    requires Ascending(r) && forall x: nat :: x in r ==> x < n
    ensures Ascending(r + [n]) && forall x: nat :: x in r + [n] <==> x in r || x == n
  {
    AscendingSnoc(r, n);
  }

  lemma EndingUnfolds(rows: seq<ColpRow>, lo: nat, hi: nat, p: int, g: int, seed: ColpRow)
    requires hi <= |rows|
    ensures RowsEndingAt(rows, lo, hi, p, g, seed) ==
      if hi <= lo then []
      else if EndsAt(rows[hi - 1], p, g, seed) then RowsEndingAt(rows, lo, hi - 1, p, g, seed) + [hi - 1]
      else RowsEndingAt(rows, lo, hi - 1, p, g, seed)
  {
  }

  /** The linear scan finds each row that ends at (p, g) away from the seed once, in order, and no other. */
  lemma {:induction false} EndingRowsAreExact(rows: seq<ColpRow>, lo: nat, hi: nat, p: int, g: int, seed: ColpRow)
    requires hi <= |rows|
    ensures var r := RowsEndingAt(rows, lo, hi, p, g, seed);
      Ascending(r) && forall x: nat :: x in r <==> lo <= x < hi && EndsAt(rows[x], p, g, seed)
  {
    hide EndsAt, RowsEndingAt;
    EndingUnfolds(rows, lo, hi, p, g, seed);
    if lo < hi {
      EndingRowsAreExact(rows, lo, hi - 1, p, g, seed);
      ExactSnoc(RowsEndingAt(rows, lo, hi - 1, p, g, seed), hi - 1);
    }
  }

  /** And so does the keyed look-up with the rows that start at (p, g). */
  lemma {:induction false} StartingRowsAreExact(rows: seq<ColpRow>, lo: nat, hi: nat, p: int, g: int)
    requires hi <= |rows|
    ensures var r := RowsStartingAt(rows, lo, hi, p, g);
      Ascending(r) && forall x: nat :: x in r <==> lo <= x < hi && StartsAt(rows[x], p, g)
  {
    hide StartsAt, RowsStartingAt;
    StartingUnfolds(rows, lo, hi, p, g);
    if lo < hi {
      var n := hi - 1;
      StartingRowsAreExact(rows, lo, n, p, g);
      var before := RowsStartingAt(rows, lo, n, p, g);
      if StartsAt(rows[n], p, g) {
        ExactSnoc(before, n);
        assert RowsStartingAt(rows, lo, hi, p, g) == before + [n];
      } else {
        assert RowsStartingAt(rows, lo, hi, p, g) == before;
      }
    }
  }

  lemma StartingUnfolds(rows: seq<ColpRow>, lo: nat, hi: nat, p: int, g: int)
    requires hi <= |rows|
    ensures RowsStartingAt(rows, lo, hi, p, g) ==
      if hi <= lo then []
      else if StartsAt(rows[hi - 1], p, g) then RowsStartingAt(rows, lo, hi - 1, p, g) + [hi - 1]
      else RowsStartingAt(rows, lo, hi - 1, p, g)
  {
  }

  lemma {:induction false} NoStartingRows(rows: seq<ColpRow>, lo: nat, hi: nat, p: int, g: int)
    requires hi <= |rows| && forall x :: lo <= x < hi ==> !StartsAt(rows[x], p, g)
    ensures RowsStartingAt(rows, lo, hi, p, g) == []
  {
    if lo < hi {
      NoStartingRows(rows, lo, hi - 1, p, g);
    }
  }

  /**
   * Binary search at or after `kq` for a row starting at (p, g), then back to the first of its run.
   * `kq` follows the seed's run, so the walk back cannot leave the range searched.
   */
  method FindStart(colp: seq<ColpRow>, np: nat, kq: nat, p: int, g: int) returns (found: bool, head: nat)
    requires |colp| == np + 1 && 1 <= kq <= np && Ordered(colp[..np])
    requires kq < np ==> !SameKey(colp[kq], colp[kq - 1])
    ensures found ==> kq <= head < np && StartsAt(colp[head], p, g)
    ensures found ==> forall x :: kq <= x < head ==> !StartsAt(colp[x], p, g)
    ensures !found ==> forall x :: kq <= x < np ==> !StartsAt(colp[x], p, g)
  {
    var b, t := kq, np + 1;
    while t - b > 1
      invariant kq <= b < t <= np + 1
      invariant forall x :: kq <= x < b ==> KeyMore(p, g, colp[x])
      invariant forall x :: t - 1 <= x < np ==> KeyLess(p, g, colp[x])
    {
      var l := (b + t) / 2;
      var n := Sense(p, colp[l - 1].pk);
      if n == 0 {
        n := Sense(g, colp[l - 1].ga);
      }
      OrderedAround(colp[..np], l - 1);
      if n < 0 {
        t := l;
      } else if n > 0 {
        b := l;
      } else {
        var p2 := colp[l - 1].ga;
        while l >= 2 && colp[l - 2].ga == p2 && colp[l - 2].pk == colp[l - 1].pk
          invariant kq < l <= np && StartsAt(colp[l - 1], p, g)
        {
          l := l - 1;
        }
        return true, l - 1;
      }
    }
    return false, 0;
  }

  lemma OrderedAround(rows: seq<ColpRow>, m: nat)
    requires Ordered(rows) && m < |rows|
    ensures forall x :: 0 <= x < m ==> !KeyLess(rows[m].pk, rows[m].ga, rows[x])
    ensures forall x :: m < x < |rows| ==> !KeyLess(rows[x].pk, rows[x].ga, rows[m])
  {
  }

  /** From the first row starting at (p, g), the rows that start there are its run, and only those. */
  lemma RunFromHead(rows: seq<ColpRow>, lo: nat, p: int, g: int, head: nat)
    requires Ordered(rows) && lo <= head < |rows| && StartsAt(rows[head], p, g)
    requires forall x :: lo <= x < head ==> !StartsAt(rows[x], p, g)
    ensures RowsStartingAt(rows, lo, |rows|, p, g) == RowRange(head, SeedEnd(rows, head, head + 1))
  {
    var end := SeedEnd(rows, head, head + 1);
    forall x | lo <= x < |rows| ensures StartsAt(rows[x], p, g) <==> head <= x < end {
      if head < x < end {
        assert SameKey(rows[x], rows[head]);
      } else if end <= x {
        assert !KeyLess(rows[end].pk, rows[end].ga, rows[head]) && !SameKey(rows[end], rows[head]);
        assert x == end || !KeyLess(rows[x].pk, rows[x].ga, rows[end]);
      }
    }
    StartingRowsAreRun(rows, lo, |rows|, p, g, head, end);
  }

  /** Expanding an endpoint, step by step. */
  lemma ExpandInSteps(w: Work, t: Table, k: nat, kq: nat, j: nat, ftt: int, p: int, g: int)
    requires WorkOk(w, t, ftt) && k < |t.rows| && Queued(w, j, p, g)
    ensures Expand(w, t, k, kq, j, ftt) ==
      match SiftAll(w, t, RowsEndingAt(t.rows, kq, |t.rows|, p, g, t.rows[k]), false, ftt)
      case Overflow => Overflow
      case Ok(w1) => SiftAll(w1, t, RowsStartingAt(t.rows, kq, |t.rows|, p, g), true, ftt)
  {
    hide WorkOk, SiftAll, RowsEndingAt, RowsStartingAt;
  }

  /** Growing a path, step by step, from a state that is already fresh. */
  lemma GrowInSteps(w: Work, t: Table, k: nat, ftt: int)
    requires k < |t.rows| && WorkOk(w, t, ftt) && Fresh(w, t.rows[k]) == w
    ensures var kq := SeedEnd(t.rows, k, k + 1);
      && AfterRun(t.rows, kq) && Indices(RowRange(k, kq), |t.rows|)
      && Grow(w, t, k, ftt) ==
           match SiftAll(w, t, RowRange(k, kq), true, ftt)
           case Overflow => Overflow
           case Ok(w1) => Explore(w1, t, k, kq, 1, ftt)
  {
    var kq := SeedEnd(t.rows, k, k + 1);
    assert SameKey(t.rows[kq - 1], t.rows[k]);
    hide WorkOk, SiftAll, Explore, SeedEnd, RowRange, Fresh;
  }

  /** `kq` is where some run of equal starts ends. */
  ghost predicate AfterRun(rows: seq<ColpRow>, kq: nat) {
    1 <= kq <= |rows| && (kq < |rows| ==> !SameKey(rows[kq], rows[kq - 1]))
  }

  lemma EndingNone(rows: seq<ColpRow>, kq: nat, p: int, g: int, seed: ColpRow)
    requires kq <= |rows|
    ensures RowsEndingAt(rows, kq, kq, p, g, seed) == []
  {
  }

  lemma EndingStep(rows: seq<ColpRow>, lo: nat, i: nat, hi: nat, p: int, g: int, seed: ColpRow)
    requires lo <= i < hi <= |rows|
    ensures RowsEndingAt(rows, lo, i + 1, p, g, seed)
      == if EndsAt(rows[i], p, g, seed) then RowsEndingAt(rows, lo, i, p, g, seed) + [i]
         else RowsEndingAt(rows, lo, i, p, g, seed)
    ensures RowsEndingAt(rows, lo, i + 1, p, g, seed) <= RowsEndingAt(rows, lo, hi, p, g, seed)
  {
    EndingPrefix(rows, lo, i + 1, hi, p, g, seed);
  }

  lemma {:induction false} EndingPrefix(rows: seq<ColpRow>, lo: nat, mid: nat, hi: nat, p: int, g: int,
          seed: ColpRow)
    requires mid <= hi <= |rows|
    ensures RowsEndingAt(rows, lo, mid, p, g, seed) <= RowsEndingAt(rows, lo, hi, p, g, seed)
    decreases hi - mid
  {
    if mid < hi {
      EndingPrefix(rows, lo, mid, hi - 1, p, g, seed);
    }
  }
}
