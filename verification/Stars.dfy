/**
 * Stars: tables in which one pair of endpoints is the centre of three arms, two of them with several
 * alternatives on the gallery side. The search forms one cluster for each choice of alternatives, so a
 * few rows are enough for more clusters than the work arrays have entries.
 */
module Stars {
  import opened Consts
  import opened Seqs
  import opened Paths
  import opened PathFacts
  import opened Lookup
  import opened Seeds

  // --- Sifting one arm ------------------------------------------------------------------------

  /** Rows `lo..lo + len` all lead to probe endpoint `a`, with gallery endpoints `g, g + 1, ..`. */
  ghost predicate ArmRows(t: Table, lo: nat, len: nat, a: int, g: int) {
    && lo + len <= |t.rows|
    && forall x :: lo <= x < lo + len ==> t.rows[x].pj == a && t.rows[x].gb == g + (x - lo)
  }

  function Alternatives(g: int, len: nat): (r: seq<int>)
    ensures |r| == len && forall x :: 0 <= x < len ==> r[x] == g + x
  {
    seq(len, x requires 0 <= x < len => g + x)
  }

  /** What sifting an arm's rows does when the arm ends up paired with `h`. */
  ghost predicate ArmSifted(w: Work, w': Work, lo: nat, len: nat, a: int, h: int, ftt: int)
    requires 1 <= a <= |w.tq| && 1 <= h <= |w.rq|
  {
    && w'.tq == w.tq[a - 1 := h] && w'.rq == w.rq[h - 1 := a] && w'.rp == w.rp
    && (w'.q == w.q || w'.q == w.q + [a])
    && Stamped(w, w', lo, lo + len, ftt)
    && |w'.cp| == |w.cp| && forall y :: 0 <= y < |w.cp| && y != a - 1 ==> w'.cp[y] == w.cp[y]
  }

  /** One edge numbered above `lo`, up to `hi`, joined the path, and no stamp changed but its own. */
  ghost predicate Stamped(w: Work, w': Work, lo: nat, hi: nat, ftt: int) {
    && |w'.path| == |w.path| + 1 && w.path <= w'.path && lo < w'.path[|w.path|] <= hi
    && |w'.sc| == |w.sc|
    && forall y :: 0 <= y < |w.sc| && w'.sc[y] != w.sc[y] ==> lo <= y < hi && w'.sc[y] == ftt
  }

  /** The state after the rows from `k` up to `lo`. */
  ghost predicate SweptTo(w0: Work, t: Table, k: nat, lo: nat, ftt: int, w: Work) {
    && WorkOk(w0, t, ftt) && WorkOk(w, t, ftt) && lo <= |t.rows|
    && SiftAll(w0, t, RowRange(k, lo), true, ftt) == Ok(w)
  }

  lemma SweptToNext(w0: Work, t: Table, k: nat, lo: nat, ftt: int, w: Work)
    requires SweptTo(w0, t, k, lo, ftt, w) && k <= lo < |t.rows|
    ensures var r := SiftRow(w, t, lo, true, ftt); r.Ok? ==> SweptTo(w0, t, k, lo + 1, ftt, r.value)
  {
    hide WorkOk, SiftRow;
    assert RowRange(k, lo + 1) == RowRange(k, lo) + [lo];
    SiftSnoc(w0, t, RowRange(k, lo), lo, true, ftt);
    SiftRowKeeps(w, t, lo, true, ftt);
  }

  /** A row that leads to two free endpoints is taken. */
  lemma FreeRow(w: Work, t: Table, lo: nat, a: int, g: int, ftt: int)
    requires WorkOk(w, t, ftt) && ArmRows(t, lo, 1, a, g) && IsEndpoint(a, t.nend) && IsEndpoint(g, t.nend)
    requires w.tq[a - 1] == 0 && w.rq[g - 1] == 0 && w.sc[lo] != ftt && |w.q| < QQ_SIZE
    ensures var r := SiftRow(w, t, lo, true, ftt);
      r.Ok? && ArmSifted(w, r.value, lo, 1, a, g, ftt) && r.value.groups == w.groups && r.value.cp == w.cp
      && r.value.q == w.q + [a]
  {
    assert t.rows[lo].pj == a && t.rows[lo].gb == g;
  }

  /** A row that leads to an alternative of an endpoint already paired is noted in its group. */
  lemma OtherRow(w: Work, t: Table, lo: nat, a: int, g: int, ftt: int)
    requires WorkOk(w, t, ftt) && ArmRows(t, lo, 1, a, g) && IsEndpoint(a, t.nend) && IsEndpoint(g, t.nend)
    requires w.tq[a - 1] != 0 && w.tq[a - 1] != g && w.rq[g - 1] == 0 && |w.groups| < WWIM
    ensures 1 <= a <= |w.cp| && 0 <= w.cp[a - 1] <= |w.groups|
    ensures SiftRow(w, t, lo, true, ftt) == Ok(Note(w, true, a, w.tq[a - 1], g))
  {
    assert t.rows[lo].pj == a && t.rows[lo].gb == g;
    BothFit(w, t.nend);
  }

  /** Gallery endpoints `lo..hi` are unpaired. */
  ghost predicate FreeRun(rq: seq<int>, lo: int, hi: int) {
    1 <= lo && hi <= |rq| + 1 && forall z :: lo - 1 <= z < hi - 1 ==> rq[z] == 0
  }

  /** What is known of an arm before its first row is sifted. */
  ghost predicate FirstMet(w: Work, t: Table, lo: nat, len: nat, a: int, g: int, ftt: int) {
    && WorkOk(w, t, ftt) && 0 < len && ArmRows(t, lo, len, a, g)
    && IsEndpoint(a, t.nend) && 1 <= g && g + len - 1 <= t.nend
    && w.tq[a - 1] == 0 && w.cp[a - 1] == 0 && FreeRun(w.rq, g, g + len)
    && w.sc[lo] != ftt && |w.q| < QQ_SIZE && |w.groups| + 1 < WWIM
  }

  lemma FirstMetFits(w: Work, t: Table, lo: nat, len: nat, a: int, g: int, ftt: int)
    requires FirstMet(w, t, lo, len, a, g, ftt)
    ensures 1 <= a <= |w.tq| == |w.cp| && 1 <= g <= |w.rq|
    ensures len > 1 ==> FirstMet(w, t, lo, len - 1, a, g, ftt)
  {
    hide Inverse, GroupsOk, QueueOk, PathOk;
    ArraysFit(w, t, ftt);
  }

  lemma ArraysFit(w: Work, t: Table, ftt: int)
    requires WorkOk(w, t, ftt)
    ensures t.nend <= |w.tq| == |w.rq| && |w.cp| == |w.tq|
  {
  }

  /** An arm that has been sifted as far as `len` rows, its first alternative chosen. */
  ghost predicate FirstSwept(w: Work, w': Work, lo: nat, len: nat, a: int, g: int, ftt: int)
    requires 1 <= a <= |w.tq| == |w.cp| && 1 <= g <= |w.rq|
  {
    && ArmSifted(w, w', lo, len, a, g, ftt)
    && w'.groups == w.groups + (if len > 1 then [Group(true, a, Alternatives(g, len), 1)] else [])
    && w'.cp[a - 1] == if len > 1 then |w.groups| + 1 else 0
  }

  /** An arm met for the first time is paired with its first alternative; the others open its group. */
  lemma {:induction false} FirstArm(w0: Work, t: Table, k: nat, lo: nat, len: nat, a: int, g: int, ftt: int, w: Work)
    returns (w': Work)
    requires SweptTo(w0, t, k, lo, ftt, w) && k <= lo && FirstMet(w, t, lo, len, a, g, ftt)
    ensures SweptTo(w0, t, k, lo + len, ftt, w')
    ensures 1 <= a <= |w.tq| == |w.cp| && 1 <= g <= |w.rq| && FirstSwept(w, w', lo, len, a, g, ftt)
  {
    hide SweptTo, FirstMet, FirstSwept;
    FirstMetFits(w, t, lo, len, a, g, ftt);
    if len <= 1 {
      FirstRow(w, t, lo, len, a, g, ftt);
      NextIsSifted(w0, t, k, lo, ftt, w);
      w' := SiftRow(w, t, lo, true, ftt).value;
    } else {
      var x := lo + len - 1;
      var w1 := FirstArm(w0, t, k, lo, len - 1, a, g, ftt, w);
      SiftedIsOk(w0, t, k, x, ftt, w1);
      FurtherRow(w, w1, t, lo, len, a, g, ftt);
      NextIsSifted(w0, t, k, x, ftt, w1);
      w' := SiftRow(w1, t, x, true, ftt).value;
    }
  }

  lemma NextIsSifted(w0: Work, t: Table, k: nat, lo: nat, ftt: int, w: Work)
    requires SweptTo(w0, t, k, lo, ftt, w) && k <= lo < |t.rows| && WorkOk(w, t, ftt)
    requires SiftRow(w, t, lo, true, ftt).Ok?
    ensures SweptTo(w0, t, k, lo + 1, ftt, SiftRow(w, t, lo, true, ftt).value)
  {
    hide WorkOk, SiftRow, SweptTo;
    SweptToNext(w0, t, k, lo, ftt, w);
  }

  lemma FirstRow(w: Work, t: Table, lo: nat, len: nat, a: int, g: int, ftt: int)
    requires FirstMet(w, t, lo, len, a, g, ftt) && len <= 1
    ensures len == 1 && lo < |t.rows| && WorkOk(w, t, ftt)
    ensures SiftRow(w, t, lo, true, ftt).Ok? && 1 <= a <= |w.tq| == |w.cp| && 1 <= g <= |w.rq|
    ensures FirstSwept(w, SiftRow(w, t, lo, true, ftt).value, lo, 1, a, g, ftt)
  {
    hide SiftRow, WorkOk, ArmSifted;
    FirstMetFits(w, t, lo, len, a, g, ftt);
    FreeRow(w, t, lo, a, g, ftt);
  }

  lemma FurtherRow(w: Work, w1: Work, t: Table, lo: nat, len: nat, a: int, g: int, ftt: int)
    requires len > 1 && FirstMet(w, t, lo, len, a, g, ftt) && WorkOk(w1, t, ftt)
    requires 1 <= a <= |w.tq| == |w.cp| && 1 <= g <= |w.rq| && FirstSwept(w, w1, lo, len - 1, a, g, ftt)
    ensures lo + len <= |t.rows|
    ensures var r := SiftRow(w1, t, lo + len - 1, true, ftt); r.Ok? && FirstSwept(w, r.value, lo, len, a, g, ftt)
  {
    hide SiftRow, WorkOk, Note, Alternatives;
    var x, l := lo + len - 1, g + len - 1;
    ArraysFit(w1, t, ftt);
    OtherRow(w1, t, x, a, l, ftt);
    OneMore(w.groups, w1, Note(w1, true, a, g, l), a, g, l, len);
  }

  lemma SiftedIsOk(w0: Work, t: Table, k: nat, lo: nat, ftt: int, w: Work)
    requires SweptTo(w0, t, k, lo, ftt, w)
    ensures WorkOk(w, t, ftt)
  {
  }

  /** Noting the next alternative in an arm's group, or opening the group with it. */
  lemma OneMore(groups: seq<Group>, w: Work, w': Work, a: int, g: int, l: int, len: nat)
    requires len >= 2 && 1 <= a <= |w.cp| && l == g + len - 1
    requires w.groups == groups + if len > 2 then [Group(true, a, Alternatives(g, len - 1), 1)] else []
    requires w.cp[a - 1] == if len > 2 then |groups| + 1 else 0
    requires w' == Note(w, true, a, g, l)
    ensures w'.groups == groups + [Group(true, a, Alternatives(g, len), 1)] && w'.cp[a - 1] == |groups| + 1
    ensures w' == w.(groups := w'.groups, cp := w'.cp) && |w'.cp| == |w.cp|
    ensures forall y :: 0 <= y < |w.cp| && y != a - 1 ==> w'.cp[y] == w.cp[y]
  {
    assert Alternatives(g, len) == Alternatives(g, len - 1) + [l];
    if len == 2 {
      assert AddNew([g], l) == Alternatives(g, 2);
    } else {
      var alts := Alternatives(g, len - 1);
      assert l !in alts;
      assert w'.groups == w.groups[|groups| := Group(true, a, alts + [l], 1)];
    }
  }

  /** What is known of an arm that has a group of all its alternatives and is paired with one of them. */
  ghost predicate MetAgain(w: Work, t: Table, lo: nat, len: nat, all: nat, a: int, g: int, h: int, ftt: int) {
    && WorkOk(w, t, ftt) && len <= all && ArmRows(t, lo, len, a, g)
    && IsEndpoint(a, t.nend) && 1 <= g <= h < g + all && g + all - 1 <= t.nend
    && w.tq[a - 1] == h && w.rq[h - 1] == a
    && FreeRun(w.rq, g, h) && FreeRun(w.rq, h + 1, g + all)
    && 1 <= w.cp[a - 1] <= |w.groups| && w.groups[w.cp[a - 1] - 1].alts == Alternatives(g, all)
    && (forall x :: lo <= x < lo + len ==> w.sc[x] != ftt)
    && |w.q| < QQ_SIZE && |w.groups| < WWIM
  }

  ghost predicate SweptAgain(w: Work, w': Work, lo: nat, len: nat, a: int, g: int, h: int, ftt: int)
    requires 1 <= a <= |w.tq| == |w.cp| && 1 <= h <= |w.rq|
  {
    if h < g + len then ArmSifted(w, w', lo, len, a, h, ftt) && w'.groups == w.groups && w'.cp == w.cp
    else w' == w
  }

  lemma MetAgainFits(w: Work, t: Table, lo: nat, len: nat, all: nat, a: int, g: int, h: int, ftt: int)
    requires MetAgain(w, t, lo, len, all, a, g, h, ftt)
    ensures 1 <= a <= |w.tq| == |w.cp| && 1 <= h <= |w.rq|
    ensures len > 0 ==> MetAgain(w, t, lo, len - 1, all, a, g, h, ftt)
  {
    hide Inverse, GroupsOk, QueueOk, PathOk, FreeRun;
    ArraysFit(w, t, ftt);
  }

  /** Sifting an arm again takes the row of the alternative it is paired with and notes nothing new. */
  lemma {:induction false} ArmAgain(w0: Work, t: Table, k: nat, lo: nat, len: nat, all: nat, a: int, g: int, h: int,
          ftt: int, w: Work)
    returns (w': Work)
    requires SweptTo(w0, t, k, lo, ftt, w) && k <= lo && MetAgain(w, t, lo, len, all, a, g, h, ftt)
    ensures SweptTo(w0, t, k, lo + len, ftt, w')
    ensures 1 <= a <= |w.tq| == |w.cp| && 1 <= h <= |w.rq| && SweptAgain(w, w', lo, len, a, g, h, ftt)
  {
    hide SweptTo, MetAgain, SweptAgain;
    MetAgainFits(w, t, lo, len, all, a, g, h, ftt);
    if len == 0 {
      w' := w;
      NoneSweptAgain(w, t, lo, all, a, g, h, ftt);
    } else {
      var x := lo + len - 1;
      var w1 := ArmAgain(w0, t, k, lo, len - 1, all, a, g, h, ftt, w);
      SiftedIsOk(w0, t, k, x, ftt, w1);
      RowAgain(w, w1, t, lo, len, all, a, g, h, ftt);
      NextIsSifted(w0, t, k, x, ftt, w1);
      w' := SiftRow(w1, t, x, true, ftt).value;
    }
  }

  lemma NoneSweptAgain(w: Work, t: Table, lo: nat, all: nat, a: int, g: int, h: int, ftt: int)
    requires MetAgain(w, t, lo, 0, all, a, g, h, ftt) && 1 <= a <= |w.tq| == |w.cp| && 1 <= h <= |w.rq|
    ensures SweptAgain(w, w, lo, 0, a, g, h, ftt)
  {
  }

  lemma RowAgain(w: Work, w1: Work, t: Table, lo: nat, len: nat, all: nat, a: int, g: int, h: int, ftt: int)
    requires len > 0 && MetAgain(w, t, lo, len, all, a, g, h, ftt) && WorkOk(w1, t, ftt)
    requires 1 <= a <= |w.tq| == |w.cp| && 1 <= h <= |w.rq| && SweptAgain(w, w1, lo, len - 1, a, g, h, ftt)
    ensures lo + len <= |t.rows|
    ensures var r := SiftRow(w1, t, lo + len - 1, true, ftt); r.Ok? && SweptAgain(w, r.value, lo, len, a, g, h, ftt)
  {
    hide SiftRow, WorkOk, Note;
    var x, l := lo + len - 1, g + len - 1;
    ArraysFit(w, t, ftt);
    ArraysFit(w1, t, ftt);
    if l == h {
      PairedRow(w1, t, x, a, h, ftt);
    } else {
      assert w1.tq[a - 1] == h && w1.rq[l - 1] == 0;
      OtherRow(w1, t, x, a, l, ftt);
      assert Alternatives(g, all)[len - 1] == l;
      NotedBefore(w1, a, h, l);
    }
  }

  /** A row that leads to two endpoints paired with each other is taken. */
  lemma PairedRow(w: Work, t: Table, lo: nat, a: int, g: int, ftt: int)
    requires WorkOk(w, t, ftt) && ArmRows(t, lo, 1, a, g) && IsEndpoint(a, t.nend) && IsEndpoint(g, t.nend)
    requires w.tq[a - 1] == g && w.rq[g - 1] == a && w.sc[lo] != ftt && |w.q| < QQ_SIZE
    ensures var r := SiftRow(w, t, lo, true, ftt);
      r.Ok? && ArmSifted(w, r.value, lo, 1, a, g, ftt) && r.value.groups == w.groups && r.value.cp == w.cp
  {
    assert t.rows[lo].pj == a && t.rows[lo].gb == g;
    assert w.tq[a - 1 := g] == w.tq && w.rq[g - 1 := a] == w.rq;
  }

  /** Noting an alternative that its group has changes nothing. */
  lemma NotedBefore(w: Work, a: int, h: int, l: int)
    requires 1 <= a <= |w.cp| && 1 <= w.cp[a - 1] <= |w.groups| && l in w.groups[w.cp[a - 1] - 1].alts
    ensures Note(w, true, a, h, l) == w
  {
    var b := w.cp[a - 1] - 1;
    assert w.groups[b := w.groups[b]] == w.groups;
  }

  // --- One path across a star -----------------------------------------------------------------

  /**
   * Rows `k..` are a star: centre `c` on both sides, two arms with `m` alternatives each and a third with
   * one. Nothing after it starts or ends at its endpoints.
   */
  ghost predicate HasStar(t: Table, k: nat, c: int, m: nat) {
    && 1 <= c && 1 <= m && c + 3 <= t.nend && c + 2 * m + 1 <= t.nend && k + 2 * m + 1 <= |t.rows|
    && ArmRows(t, k, m, c + 1, c + 1) && ArmRows(t, k + m, m, c + 2, c + m + 1)
    && ArmRows(t, k + 2 * m, 1, c + 3, c + 2 * m + 1)
    && (forall x :: k <= x < k + 2 * m + 1 ==> t.rows[x].pk == c && t.rows[x].ga == c && t.rows[x].rot == 0)
    && forall x :: k + 2 * m + 1 <= x < |t.rows| ==> t.rows[x].pk > c + 3 && t.rows[x].pj > c + 3
  }

  /** The centre is paired with itself, the arms with `h1`, `h2` and `h3`, and nothing else is paired. */
  ghost predicate ArmsPaired(tq: seq<int>, c: int, h1: int, h2: int, h3: int) {
    && 1 <= c && c + 3 <= |tq| && tq[c - 1] == c && tq[c] == h1 && tq[c + 1] == h2 && tq[c + 2] == h3
    && forall p :: 0 <= p < |tq| && (p < c - 1 || p >= c + 3) ==> tq[p] == 0
  }

  /** The groups of the two wide arms, set to their `i`-th and `j`-th alternatives. */
  function Wheels(c: int, m: nat, i: int, j: int): (r: seq<Group>) {
    [Group(true, c + 1, Alternatives(c + 1, m), i), Group(true, c + 2, Alternatives(c + m + 1, m), j)]
  }

  /** A path of `n` edges from the rows `k..x`, and nothing stamped or queued beyond them. */
  ghost predicate Halfway(w: Work, t: Table, k: nat, x: nat, c: int, n: nat, ftt: int) {
    && WorkOk(w, t, ftt) && |w.path| == n && AllWithin(w.path, k + 1, x)
    && (forall y :: 0 <= y < |w.sc| ==> w.sc[y] <= ftt && (x <= y ==> w.sc[y] < ftt))
    && |w.q| <= n + 1 && w.q[0] == c && forall y :: 1 <= y < |w.q| ==> c + 1 <= w.q[y] <= c + 3
  }

  lemma ArmGoesOn(w: Work, w': Work, t: Table, k: nat, lo: nat, len: nat, a: int, h: int, c: int, n: nat, ftt: int)
    requires Halfway(w, t, k, lo, c, n, ftt) && WorkOk(w', t, ftt) && k <= lo
    requires 1 <= a <= |w.tq| && 1 <= h <= |w.rq| && ArmSifted(w, w', lo, len, a, h, ftt) && c + 1 <= a <= c + 3
    ensures Halfway(w', t, k, lo + len, c, n + 1, ftt)
  {
    hide WorkOk;
    assert 1 <= |w.q| by { QueueStarts(w, t, ftt); }
  }

  lemma QueueStarts(w: Work, t: Table, ftt: int)
    requires WorkOk(w, t, ftt)
    ensures 1 <= |w.q|
  {
  }

  /** No probe endpoint is paired with any of the gallery endpoints `lo..hi`. */
  ghost predicate NobodysFrom(tq: seq<int>, lo: int, hi: int) {
    forall p :: 0 <= p < |tq| ==> tq[p] == 0 || tq[p] < lo || hi <= tq[p]
  }

  /** A stretch of gallery endpoints that no probe endpoint is paired with is unpaired. */
  lemma NobodysAreUnpaired(tq: seq<int>, rq: seq<int>, nend: nat, lo: int, hi: int)
    requires Inverse(tq, rq, nend) && 1 <= lo && hi <= |rq| + 1
    requires NobodysFrom(tq, lo, hi)
    ensures FreeRun(rq, lo, hi)
  {
    forall z | lo - 1 <= z < hi - 1 ensures rq[z] == 0 {
      if rq[z] != 0 { PartnerBack(tq, rq, nend, z); }
    }
  }

  /** An endpoint without a group has no group number. */
  lemma NoGroupNoNumber(cp: seq<int>, groups: seq<Group>, e: int)
    requires Books(cp, groups, true) && 1 <= e <= |cp| && forall b :: 0 <= b < |groups| ==> groups[b].end != e
    ensures cp[e - 1] == 0
  {
    if cp[e - 1] != 0 { NumberIsGroups(cp, groups, e); }
  }

  lemma NumberIsGroups(cp: seq<int>, groups: seq<Group>, e: int)
    requires Books(cp, groups, true) && 1 <= e <= |cp| && cp[e - 1] != 0
    ensures 1 <= cp[e - 1] <= |groups| && groups[cp[e - 1] - 1].end == e
  {
    var p, b := e - 1, cp[e - 1] - 1;
    assert 0 <= b < |groups|;
    assert cp[p] == b + 1 <==> groups[b].ofProbe == true && groups[b].end == p + 1;
  }

  /** The partner of an arm's first row, when nothing has been paired with the arm yet. */
  lemma ReadyForFirst(w: Work, t: Table, k: nat, lo: nat, len: nat, a: int, g: int, c: int, n: nat, ftt: int)
    requires Halfway(w, t, k, lo, c, n, ftt) && ArmRows(t, lo, len, a, g) && 0 < len && n <= 3
    requires 1 <= g && g + len - 1 <= t.nend && IsEndpoint(a, t.nend) && w.tq[a - 1] == 0
    requires NobodysFrom(w.tq, g, g + len)
    requires |w.groups| <= 2 && forall b :: 0 <= b < |w.groups| ==> w.groups[b].end != a
    ensures FirstMet(w, t, lo, len, a, g, ftt)
  {
    hide QueueOk, PathOk, GroupOk;
    ArraysFit(w, t, ftt);
    NobodysAreUnpaired(w.tq, w.rq, t.nend, g, g + len);
    NoGroupNoNumber(w.cp, w.groups, a);
    hide Inverse, Books, FreeRun, ArmRows;
  }

  /** What only `a` takes of a range, nobody takes of the rest of it. */
  lemma OthersAvoid(tq: seq<int>, a: int, g: int, h: int, hi: int)
    requires 1 <= a <= |tq| && g <= h < hi && tq[a - 1] == h && NobodysFrom(tq[a - 1 := 0], g, hi)
    ensures NobodysFrom(tq, g, h) && NobodysFrom(tq, h + 1, hi)
  {
    forall p | 0 <= p < |tq| ensures tq[p] == 0 || tq[p] < g || h <= tq[p] {
      assert tq[a - 1 := 0][p] == if p == a - 1 then 0 else tq[p];
    }
    forall p | 0 <= p < |tq| ensures tq[p] == 0 || tq[p] < h + 1 || hi <= tq[p] {
      assert tq[a - 1 := 0][p] == if p == a - 1 then 0 else tq[p];
    }
  }

  lemma ReadyAgain(w: Work, t: Table, k: nat, lo: nat, len: nat, a: int, g: int, h: int, b: nat, c: int, n: nat,
          ftt: int)
    requires Halfway(w, t, k, lo, c, n, ftt) && ArmRows(t, lo, len, a, g) && n <= 3
    requires 1 <= g <= h < g + len && g + len - 1 <= t.nend && IsEndpoint(a, t.nend) && w.tq[a - 1] == h
    requires NobodysFrom(w.tq[a - 1 := 0], g, g + len)
    requires b < |w.groups| <= 2 && w.groups[b].ofProbe && w.groups[b].end == a
    requires w.groups[b].alts == Alternatives(g, len)
    ensures MetAgain(w, t, lo, len, len, a, g, h, ftt)
  {
    hide QueueOk, PathOk, GroupOk, Alternatives;
    ArraysFit(w, t, ftt);
    assert w.rq[h - 1] == a by { assert w.tq[a - 1] == (h - 1) + 1; }
    OthersAvoid(w.tq, a, g, h, g + len);
    NobodysAreUnpaired(w.tq, w.rq, t.nend, g, h);
    NobodysAreUnpaired(w.tq, w.rq, t.nend, h + 1, g + len);
    assert w.cp[a - 1] == b + 1;
    hide Inverse, Books, FreeRun, ArmRows;
  }

  /** A star's pairing that takes nothing from `lo..hi`. */
  lemma PairsAvoid(tq: seq<int>, c: int, h1: int, h2: int, h3: int, lo: int, hi: int)
    requires ArmsPaired(tq, c, h1, h2, h3) && 0 < lo && c < lo
    requires (h1 < lo || hi <= h1) && (h2 < lo || hi <= h2) && (h3 < lo || hi <= h3)
    ensures NobodysFrom(tq, lo, hi)
  {
  }

  /** Sweeping an arm that is met for the first time. */
  lemma TakeArm(w0: Work, t: Table, k: nat, lo: nat, len: nat, a: int, g: int, c: int, n: nat, ftt: int, w: Work)
    returns (w': Work)
    requires SweptTo(w0, t, k, lo, ftt, w) && k <= lo && Halfway(w, t, k, lo, c, n, ftt) && n <= 3
    requires ArmRows(t, lo, len, a, g) && 0 < len && 1 <= g && g + len - 1 <= t.nend && c + 1 <= a <= c + 3
    requires IsEndpoint(a, t.nend) && a <= |w.tq| && w.tq[a - 1] == 0 && NobodysFrom(w.tq, g, g + len)
    requires |w.groups| <= 2 && forall b :: 0 <= b < |w.groups| ==> w.groups[b].end != a
    ensures SweptTo(w0, t, k, lo + len, ftt, w') && Halfway(w', t, k, lo + len, c, n + 1, ftt)
    ensures w'.tq == w.tq[a - 1 := g] && SameOutside(w.sc, w'.sc, lo, lo + len)
    ensures w'.groups == w.groups + if len > 1 then [Group(true, a, Alternatives(g, len), 1)] else []
  {
    hide SweptTo, Halfway, FirstMet, ArmRows, Alternatives, ArmSifted, SameOutside;
    ReadyForFirst(w, t, k, lo, len, a, g, c, n, ftt);
    w' := FirstArm(w0, t, k, lo, len, a, g, ftt, w);
    SiftedIsOk(w0, t, k, lo + len, ftt, w');
    ArmGoesOn(w, w', t, k, lo, len, a, g, c, n, ftt);
    ArmPairs(w, w', t, lo, len, a, g, c, ftt);
    StampedInside(w, w', lo, lo + len, ftt);
  }

  /** Sweeping an arm that is paired already, with `h`. */
  lemma TakeArmAgain(w0: Work, t: Table, k: nat, lo: nat, len: nat, a: int, g: int, h: int, b: nat, c: int, n: nat,
          ftt: int, w: Work)
    returns (w': Work)
    requires SweptTo(w0, t, k, lo, ftt, w) && k <= lo && Halfway(w, t, k, lo, c, n, ftt) && n <= 3
    requires ArmRows(t, lo, len, a, g) && 1 <= g <= h < g + len && g + len - 1 <= t.nend && c + 1 <= a <= c + 3
    requires IsEndpoint(a, t.nend) && a <= |w.tq| && w.tq[a - 1] == h
    requires NobodysFrom(w.tq[a - 1 := 0], g, g + len)
    requires b < |w.groups| <= 2 && w.groups[b].ofProbe && w.groups[b].end == a
    requires w.groups[b].alts == Alternatives(g, len)
    ensures SweptTo(w0, t, k, lo + len, ftt, w') && Halfway(w', t, k, lo + len, c, n + 1, ftt)
    ensures w'.tq == w.tq && w'.groups == w.groups
  {
    hide SweptTo, Halfway, MetAgain, ArmRows, Alternatives, ArmSifted;
    ReadyAgain(w, t, k, lo, len, a, g, h, b, c, n, ftt);
    w' := ArmAgain(w0, t, k, lo, len, len, a, g, h, ftt, w);
    SiftedIsOk(w0, t, k, lo + len, ftt, w');
    ArmGoesOn(w, w', t, k, lo, len, a, h, c, n, ftt);
    ArmPairs(w, w', t, lo, len, a, h, c, ftt);
  }

  /** Sifting a star with nothing but its centre paired: each arm takes its first alternative. */
  lemma SweepStarFirst(w0: Work, t: Table, k: nat, c: int, m: nat, ftt: int) returns (w: Work)
    requires HasStar(t, k, c, m) && Halfway(w0, t, k, k, c, 0, ftt) && ArmsPaired(w0.tq, c, 0, 0, 0) && w0.groups == []
    ensures SweptTo(w0, t, k, k + 2 * m + 1, ftt, w) && Halfway(w, t, k, k + 2 * m + 1, c, 3, ftt)
    ensures ArmsPaired(w.tq, c, c + 1, c + m + 1, c + 2 * m + 1) && SameOutside(w0.sc, w.sc, k, k + 2 * m + 1)
    ensures w.groups == if m > 1 then Wheels(c, m, 1, 1) else []
  {
    hide SweptTo, Halfway, ArmRows, Alternatives, NobodysFrom, ArmsPaired, SameOutside;
    NothingSifted(w0, t, k, c, ftt);
    PairsFit(w0.tq, c, 0, 0, 0);
    PairsAvoid(w0.tq, c, 0, 0, 0, c + 1, c + m + 1);
    var w1 := TakeArm(w0, t, k, k, m, c + 1, c + 1, c, 0, ftt, w0);
    PairsJoin(w0.tq, c, 0, 0, 0, 1, c + 1);
    PairsAvoid(w1.tq, c, c + 1, 0, 0, c + m + 1, c + 2 * m + 1);
    var w2 := TakeArm(w0, t, k, k + m, m, c + 2, c + m + 1, c, 1, ftt, w1);
    PairsJoin(w1.tq, c, c + 1, 0, 0, 2, c + m + 1);
    w := LastArm(w0, w2, t, k, c, m, c + 1, c + m + 1, ftt);
    OutsideAll(w0.sc, w1.sc, w2.sc, w.sc, k, k + m, k + 2 * m);
  }

  /** Sifting it again with both wide arms paired takes the same row of each. */
  lemma SweepStarAgain(w0: Work, t: Table, k: nat, c: int, m: nat, i: int, j: int, ftt: int) returns (w: Work)
    requires HasStar(t, k, c, m) && Halfway(w0, t, k, k, c, 0, ftt) && 1 <= i <= m && 1 <= j <= m
    requires ArmsPaired(w0.tq, c, c + i, c + m + j, 0) && w0.groups == Wheels(c, m, i, j)
    ensures SweptTo(w0, t, k, k + 2 * m + 1, ftt, w) && Halfway(w, t, k, k + 2 * m + 1, c, 3, ftt)
    ensures ArmsPaired(w.tq, c, c + i, c + m + j, c + 2 * m + 1) && w.groups == w0.groups
  {
    hide SweptTo, Halfway, ArmRows, Alternatives, NobodysFrom, ArmsPaired, SameOutside;
    NothingSifted(w0, t, k, c, ftt);
    PairsFit(w0.tq, c, c + i, c + m + j, 0);
    PairsPart(w0.tq, c, c + i, c + m + j, 0);
    PairsAvoid(w0.tq[c := 0], c, 0, c + m + j, 0, c + 1, c + m + 1);
    var w1 := TakeArmAgain(w0, t, k, k, m, c + 1, c + 1, c + i, 0, c, 0, ftt, w0);
    PairsAvoid(w0.tq[c + 1 := 0], c, c + i, 0, 0, c + m + 1, c + 2 * m + 1);
    var w2 := TakeArmAgain(w0, t, k, k + m, m, c + 2, c + m + 1, c + m + j, 1, c, 1, ftt, w1);
    w := LastArm(w0, w2, t, k, c, m, c + i, c + m + j, ftt);
  }

  /** The third arm, with a single alternative, has always been torn down before it is met. */
  lemma LastArm(w0: Work, w2: Work, t: Table, k: nat, c: int, m: nat, h1: int, h2: int, ftt: int) returns (w: Work)
    requires HasStar(t, k, c, m) && SweptTo(w0, t, k, k + 2 * m, ftt, w2)
    requires Halfway(w2, t, k, k + 2 * m, c, 2, ftt) && ArmsPaired(w2.tq, c, h1, h2, 0) && |w2.groups| <= 2
    requires c < h1 <= c + 2 * m && c < h2 <= c + 2 * m
    requires forall b :: 0 <= b < |w2.groups| ==> w2.groups[b].end != c + 3
    ensures SweptTo(w0, t, k, k + 2 * m + 1, ftt, w) && Halfway(w, t, k, k + 2 * m + 1, c, 3, ftt)
    ensures ArmsPaired(w.tq, c, h1, h2, c + 2 * m + 1) && w.groups == w2.groups
    ensures SameOutside(w2.sc, w.sc, k + 2 * m, k + 2 * m + 1)
  {
    hide SweptTo, Halfway, ArmRows, Alternatives, NobodysFrom, ArmsPaired, SameOutside;
    PairsFit(w2.tq, c, h1, h2, 0);
    PairsAvoid(w2.tq, c, h1, h2, 0, c + 2 * m + 1, c + 2 * m + 2);
    w := TakeArm(w0, t, k, k + 2 * m, 1, c + 3, c + 2 * m + 1, c, 2, ftt, w2);
    PairsJoin(w2.tq, c, h1, h2, 0, 3, c + 2 * m + 1);
  }

  lemma PairsFit(tq: seq<int>, c: int, h1: int, h2: int, h3: int)
    requires ArmsPaired(tq, c, h1, h2, h3)
    ensures 1 <= c && c + 3 <= |tq| && tq[c] == h1 && tq[c + 1] == h2 && tq[c + 2] == h3
  {
  }

  /** Pairing one arm. */
  lemma PairsJoin(tq: seq<int>, c: int, h1: int, h2: int, h3: int, arm: int, h: int)
    requires ArmsPaired(tq, c, h1, h2, h3) && 1 <= arm <= 3
    ensures var tq' := tq[c + arm - 1 := h];
      ArmsPaired(tq', c, if arm == 1 then h else h1, if arm == 2 then h else h2, if arm == 3 then h else h3)
  {
  }

  lemma PairsPart(tq: seq<int>, c: int, h1: int, h2: int, h3: int)
    requires ArmsPaired(tq, c, h1, h2, h3)
    ensures ArmsPaired(tq[c := 0], c, 0, h2, h3) && ArmsPaired(tq[c + 1 := 0], c, h1, 0, h3)
  {
  }

  lemma OutsideAll(a: seq<int>, b: seq<int>, c: seq<int>, d: seq<int>, lo: nat, mid: nat, hi: nat)
    requires lo <= mid <= hi
    requires SameOutside(a, b, lo, mid) && SameOutside(b, c, mid, hi) && SameOutside(c, d, hi, hi + 1)
    ensures SameOutside(a, d, lo, hi + 1)
  {
  }

  ghost predicate SameOutside(sc: seq<int>, sc': seq<int>, lo: int, hi: int) {
    |sc'| == |sc| && forall y :: 0 <= y < |sc| && (y < lo || hi <= y) ==> sc'[y] == sc[y]
  }

  lemma StampedInside(w: Work, w': Work, lo: nat, hi: nat, ftt: int)
    requires Stamped(w, w', lo, hi, ftt)
    ensures SameOutside(w.sc, w'.sc, lo, hi)
  {
  }

  lemma NothingSifted(w: Work, t: Table, k: nat, c: int, ftt: int)
    requires Halfway(w, t, k, k, c, 0, ftt) && k <= |t.rows|
    ensures SweptTo(w, t, k, k, ftt, w)
  {
    assert RowRange(k, k) == [];
  }

  lemma ArmPairs(w: Work, w': Work, t: Table, lo: nat, len: nat, a: int, h: int, c: int, ftt: int)
    requires 1 <= a <= |w.tq| && 1 <= h <= |w.rq| && ArmSifted(w, w', lo, len, a, h, ftt)
    ensures w'.tq == w.tq[a - 1 := h] && |w'.tq| == |w.tq| && Stamped(w, w', lo, lo + len, ftt)
  {
  }

  // --- Nothing lies behind a star -------------------------------------------------------------

  lemma {:induction false} NoEndingRows(rows: seq<ColpRow>, lo: nat, hi: nat, p: int, g: int, seed: ColpRow)
    requires hi <= |rows| && forall x :: lo <= x < hi ==> rows[x].pj != p
    ensures RowsEndingAt(rows, lo, hi, p, g, seed) == []
  {
    if lo < hi {
      NoEndingRows(rows, lo, hi - 1, p, g, seed);
    }
  }

  /** The arms lead nowhere: expanding the queue adds nothing. */
  lemma {:induction false} ExploreStar(w: Work, t: Table, k: nat, c: int, m: nat, j: nat, ftt: int)
    requires HasStar(t, k, c, m) && Halfway(w, t, k, k + 2 * m + 1, c, 3, ftt) && 1 <= j
    ensures WorkOk(w, t, ftt) && Explore(w, t, k, k + 2 * m + 1, j, ftt) == Ok(w)
    decreases |w.q| - j
  {
    hide WorkOk, ArmRows, SiftAll;
    if j < |w.q| {
      ExpandNothing(w, t, k, c, m, j, ftt);
      ExploreStar(w, t, k, c, m, j + 1, ftt);
    }
    ExploreUnfolds(w, t, k, k + 2 * m + 1, j, ftt);
  }

  lemma ExploreUnfolds(w: Work, t: Table, k: nat, kq: nat, j: nat, ftt: int)
    requires WorkOk(w, t, ftt) && k < |t.rows| && 1 <= j
    ensures Explore(w, t, k, kq, j, ftt) ==
      if j >= |w.q| then Ok(w) else
      match Expand(w, t, k, kq, j, ftt)
      case Overflow => Overflow
      case Ok(w1) => Explore(w1, t, k, kq, j + 1, ftt)
  {
    hide WorkOk, Expand;
  }

  lemma ExpandNothing(w: Work, t: Table, k: nat, c: int, m: nat, j: nat, ftt: int)
    requires HasStar(t, k, c, m) && Halfway(w, t, k, k + 2 * m + 1, c, 3, ftt) && 1 <= j < |w.q|
    ensures WorkOk(w, t, ftt) && Expand(w, t, k, k + 2 * m + 1, j, ftt) == Ok(w)
  {
    hide WorkOk, ArmRows, RowsEndingAt, RowsStartingAt;
    QueueFits(w, t, ftt, j);
    var kq, p := k + 2 * m + 1, w.q[j];
    var g := w.tq[p - 1];
    NoEndingRows(t.rows, kq, |t.rows|, p, g, t.rows[k]);
    NoStartingRows(t.rows, kq, |t.rows|, p, g);
  }

  /** The path of a star seed is what its own rows make of it. */
  lemma GrowStar(w: Work, t: Table, k: nat, c: int, m: nat, ftt: int, w': Work)
    requires HasStar(t, k, c, m) && WorkOk(Fresh(w, t.rows[k]), t, ftt)
    requires SweptTo(Fresh(w, t.rows[k]), t, k, k + 2 * m + 1, ftt, w') && Halfway(w', t, k, k + 2 * m + 1, c, 3, ftt)
    ensures Grow(w, t, k, ftt) == Ok(w')
  {
    hide WorkOk, ArmRows, Halfway, SiftAll, Explore;
    SeedEndIs(t.rows, k, k + 1, k + 2 * m + 1);
    ExploreStar(w', t, k, c, m, 1, ftt);
  }
}
