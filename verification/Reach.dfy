/**
 * Which rows a path meets, and what becomes of each. Growing a path is sifting, breadth first, exactly the rows
 * that start at the seed, and those that end or start at a pair the path has queued; a row once met is in the
 * path if its two ends are paired with each other, and on file as an alternative if they are not.
 */
module Reach {
  import opened Consts
  import opened Seqs
  import opened Paths
  import opened PathFacts
  import opened Lookup

  /** Row `row` is met at the `j`-th queued pair, by its near end (`forward`) or its far end; at 0 it is the seed's. */
  datatype Meeting = Meeting(j: nat, forward: bool, row: nat)

  /** Breadth first: by queued pair, then rows ending there before rows starting there, then in table order. */
  predicate Precedes(a: Meeting, b: Meeting) {
    || a.j < b.j
    || (a.j == b.j && !a.forward && b.forward)
    || (a.j == b.j && a.forward == b.forward && a.row < b.row)
  }

  ghost predicate LogInOrder(log: seq<Meeting>) {
    forall a, b :: 0 <= a < b < |log| ==> Precedes(log[a], log[b])
  }

  ghost predicate LogOk(log: seq<Meeting>, t: Table) {
    forall i :: 0 <= i < |log| ==> log[i].row < |t.rows|
  }

  /** Sifts the rows of the log in its order. */
  function SiftLog(w: Work, t: Table, log: seq<Meeting>, ftt: int): (r: Outcome<Work>)
    requires WorkOk(w, t, ftt) && LogOk(log, t)
    ensures r.Ok? ==> WorkOk(r.value, t, ftt)
  {
    if log == [] then Ok(w) else
    var m := |log| - 1;
    match SiftLog(w, t, log[..m], ftt)
    case Overflow => Overflow
    case Ok(w1) =>
      SiftRowKeeps(w1, t, log[m].row, log[m].forward, ftt);
      SiftRow(w1, t, log[m].row, log[m].forward, ftt)
  }

  /** What a path that has come to `w` has met, its seed being row `k` and the seed's run ending before `kq`. */
  ghost predicate IsMet(m: Meeting, w: Work, t: Table, k: nat, kq: nat)
    requires k < |t.rows|
  {
    if m.j == 0 then m.forward && k <= m.row < kq
    else
      && m.j < |w.q| && 1 <= w.q[m.j] <= |w.tq| && kq <= m.row < |t.rows|
      && var p, r := w.q[m.j], t.rows[m.row];
         var g := w.tq[p - 1];
         if m.forward then r.pk == p && r.ga == g
         else r.pj == p && r.gb == g && r.pk != t.rows[k].pk && r.ga != t.rows[k].ga
  }

  // --- Sifting a list as a log ----------------------------------------------------------------

  function Meetings(j: nat, forward: bool, idx: seq<nat>): (r: seq<Meeting>)
    ensures |r| == |idx| && forall i :: 0 <= i < |r| ==> r[i] == Meeting(j, forward, idx[i])
  {
    seq(|idx|, i requires 0 <= i < |idx| => Meeting(j, forward, idx[i]))
  }

  lemma {:induction false} SiftAllIsLog(w: Work, t: Table, j: nat, forward: bool, idx: seq<nat>, ftt: int)
    requires WorkOk(w, t, ftt) && Indices(idx, |t.rows|)
    ensures LogOk(Meetings(j, forward, idx), t)
    ensures SiftLog(w, t, Meetings(j, forward, idx), ftt) == SiftAll(w, t, idx, forward, ftt)
  {
    hide WorkOk, SiftRow;
    if idx != [] {
      var m := |idx| - 1;
      SiftAllIsLog(w, t, j, forward, idx[..m], ftt);
      assert Meetings(j, forward, idx)[..m] == Meetings(j, forward, idx[..m]);
    }
  }

  lemma {:induction false} SiftLogConcat(w: Work, t: Table, a: seq<Meeting>, b: seq<Meeting>, ftt: int)
    requires WorkOk(w, t, ftt) && LogOk(a, t) && LogOk(b, t)
    ensures LogOk(a + b, t)
    ensures SiftLog(w, t, a + b, ftt) ==
      match SiftLog(w, t, a, ftt)
      case Overflow => Overflow
      case Ok(w1) => SiftLog(w1, t, b, ftt)
  {
    hide WorkOk, SiftRow;
    if b == [] {
      assert a + b == a;
    } else {
      var m := |b| - 1;
      SiftLogConcat(w, t, a, b[..m], ftt);
      assert (a + b)[..|a| + m] == a + b[..m];
    }
  }

  // --- The log of a path ----------------------------------------------------------------------

  /** The log lists what was met at queue entries `lo` up to `hi`. */
  ghost predicate Lists(log: seq<Meeting>, w: Work, t: Table, k: nat, kq: nat, lo: nat, hi: nat)
    requires k < |t.rows|
  {
    LogInOrder(log) && forall m :: m in log <==> lo <= m.j < hi && IsMet(m, w, t, k, kq)
  }

  lemma InMeetings(j: nat, forward: bool, idx: seq<nat>, m: Meeting)
    ensures m in Meetings(j, forward, idx) <==> m.j == j && m.forward == forward && m.row in idx
  {
    if m.j == j && m.forward == forward && m.row in idx {
      var i :| 0 <= i < |idx| && idx[i] == m.row;
      assert Meetings(j, forward, idx)[i] == m;
    }
  }

  lemma MeetingsInOrder(j: nat, forward: bool, idx: seq<nat>)
    requires Ascending(idx)
    ensures LogInOrder(Meetings(j, forward, idx))
  {
  }

  lemma ConcatInOrder(a: seq<Meeting>, b: seq<Meeting>)
    requires LogInOrder(a) && LogInOrder(b) && forall x, y :: x in a && y in b ==> Precedes(x, y)
    ensures LogInOrder(a + b)
  {
    hide Precedes;
    forall i, j | 0 <= i < j < |a + b| ensures Precedes((a + b)[i], (a + b)[j]) {
      if i < |a| <= j { assert a[i] in a && b[j - |a|] in b; }
    }
  }

  lemma ListsConcat(a: seq<Meeting>, b: seq<Meeting>, w: Work, t: Table, k: nat, kq: nat, lo: nat, mid: nat, hi: nat)
    requires k < |t.rows| && lo <= mid <= hi && Lists(a, w, t, k, kq, lo, mid) && Lists(b, w, t, k, kq, mid, hi)
    ensures Lists(a + b, w, t, k, kq, lo, hi)
  {
    hide IsMet;
    ConcatInOrder(a, b);
  }

  /** What one queue entry contributes. */
  lemma ExpandIsLog(w: Work, t: Table, k: nat, kq: nat, j: nat, ftt: int, w': Work) returns (log: seq<Meeting>)
    requires WorkOk(w, t, ftt) && k < |t.rows| && 1 <= j < |w.q| && Expand(w, t, k, kq, j, ftt) == Ok(w')
    ensures LogOk(log, t) && SiftLog(w, t, log, ftt) == Ok(w') && Grown(w, w')
    ensures Lists(log, w, t, k, kq, j, j + 1)
  {
    hide WorkOk, SiftAll, RowsEndingAt, RowsStartingAt, SiftLog, Grown, LogInOrder, LogOk, Indices;
    QueueFits(w, t, ftt, j);
    var p, n := w.q[j], |t.rows|;
    var g := w.tq[p - 1];
    var ending := RowsEndingAt(t.rows, kq, n, p, g, t.rows[k]);
    var starting := RowsStartingAt(t.rows, kq, n, p, g);
    SiftAllGrows(w, t, ending, false, ftt);
    SiftAllIsLog(w, t, j, false, ending, ftt);
    var w1 := SiftAll(w, t, ending, false, ftt).value;
    SiftAllGrows(w1, t, starting, true, ftt);
    SiftAllIsLog(w1, t, j, true, starting, ftt);
    GrownTransitive(w, w1, w');
    var a, b := Meetings(j, false, ending), Meetings(j, true, starting);
    SiftLogConcat(w, t, a, b, ftt);
    log := a + b;
    EntryLists(w, t, k, kq, j, ending, starting);
  }

  lemma EntryLists(w: Work, t: Table, k: nat, kq: nat, j: nat, ending: seq<nat>, starting: seq<nat>)
    requires k < |t.rows| && 1 <= j < |w.q| && 1 <= w.q[j] <= |w.tq|
    requires var p := w.q[j];
      && ending == RowsEndingAt(t.rows, kq, |t.rows|, p, w.tq[p - 1], t.rows[k])
      && starting == RowsStartingAt(t.rows, kq, |t.rows|, p, w.tq[p - 1])
    ensures Lists(Meetings(j, false, ending) + Meetings(j, true, starting), w, t, k, kq, j, j + 1)
  {
    hide RowsEndingAt, RowsStartingAt, LogInOrder, Meetings;
    var p, n := w.q[j], |t.rows|;
    var g := w.tq[p - 1];
    EndingRowsAreExact(t.rows, kq, n, p, g, t.rows[k]);
    StartingRowsAreExact(t.rows, kq, n, p, g);
    var a, b := Meetings(j, false, ending), Meetings(j, true, starting);
    MeetingsInOrder(j, false, ending);
    MeetingsInOrder(j, true, starting);
    forall m ensures m in a <==> m.j == j && !m.forward && IsMet(m, w, t, k, kq) {
      InMeetings(j, false, ending, m);
    }
    forall m ensures m in b <==> m.j == j && m.forward && IsMet(m, w, t, k, kq) {
      InMeetings(j, true, starting, m);
    }
    hide IsMet;
    ConcatInOrder(a, b);
  }

  /** What an entry met stays met as the path grows. */
  lemma ListsLater(log: seq<Meeting>, w: Work, w': Work, t: Table, k: nat, kq: nat, lo: nat, hi: nat, ftt: int)
    requires k < |t.rows| && WorkOk(w, t, ftt) && Grown(w, w') && hi <= |w.q| && Lists(log, w, t, k, kq, lo, hi)
    ensures Lists(log, w', t, k, kq, lo, hi)
  {
    hide LogInOrder, WorkOk;
    forall m: Meeting | m.j < hi ensures IsMet(m, w, t, k, kq) <==> IsMet(m, w', t, k, kq) {
      if m.j > 0 { QueueFits(w, t, ftt, m.j); }
    }
  }

  lemma {:induction false} ExploreIsLog(w: Work, t: Table, k: nat, kq: nat, j: nat, ftt: int, w': Work)
    returns (log: seq<Meeting>)
    requires WorkOk(w, t, ftt) && k < |t.rows| && 1 <= j && Explore(w, t, k, kq, j, ftt) == Ok(w')
    ensures LogOk(log, t) && SiftLog(w, t, log, ftt) == Ok(w') && Grown(w, w')
    ensures Lists(log, w', t, k, kq, j, if j < |w'.q| then |w'.q| else j)
    decreases QQ_SIZE - j
  {
    hide WorkOk, Expand, SiftLog, Grown, Lists, LogOk;
    if j >= |w.q| {
      log := NothingMet(w, t, k, kq, j, ftt);
    } else {
      QueueWithin(w, t, ftt);
      var w1 := Expand(w, t, k, kq, j, ftt).value;
      var here := ExpandIsLog(w, t, k, kq, j, ftt, w1);
      var later := ExploreIsLog(w1, t, k, kq, j + 1, ftt, w');
      QueueOnlyGrows(w, w1);
      QueueOnlyGrows(w1, w');
      GrownTransitive(w, w1, w');
      ListsLater(here, w, w', t, k, kq, j, j + 1, ftt);
      ListsConcat(here, later, w', t, k, kq, j, j + 1, |w'.q|);
      SiftLogConcat(w, t, here, later, ftt);
      log := here + later;
    }
  }

  lemma NothingMet(w: Work, t: Table, k: nat, kq: nat, j: nat, ftt: int) returns (log: seq<Meeting>)
    requires WorkOk(w, t, ftt) && k < |t.rows| && j >= |w.q|
    ensures LogOk(log, t) && SiftLog(w, t, log, ftt) == Ok(w) && Grown(w, w) && Lists(log, w, t, k, kq, j, j)
  {
    hide WorkOk, IsMet;
    log := [];
    GrownReflexive(w);
  }

  lemma QueueOnlyGrows(w: Work, w': Work)
    requires Grown(w, w')
    ensures |w.q| <= |w'.q|
  {
  }

  lemma QueueWithin(w: Work, t: Table, ftt: int)
    requires WorkOk(w, t, ftt)
    ensures 1 <= |w.q| <= QQ_SIZE
  {
  }

  lemma SeedLists(w: Work, t: Table, k: nat, kq: nat)
    requires k < |t.rows|
    ensures Lists(Meetings(0, true, RowRange(k, kq)), w, t, k, kq, 0, 1)
  {
    hide Meetings, LogInOrder;
    var idx := RowRange(k, kq);
    MeetingsInOrder(0, true, idx);
    forall m: Meeting ensures m in Meetings(0, true, idx) <==> 0 <= m.j < 1 && IsMet(m, w, t, k, kq) {
      InMeetings(0, true, idx, m);
      if k <= m.row < kq { assert idx[m.row - k] == m.row; }
      if m.row in idx { var i :| 0 <= i < |idx| && idx[i] == m.row; }
    }
  }

  /**
   * Growing a path is sifting in breadth-first order exactly the rows it meets: the run of rows that start like
   * the seed; then, for each pair queued, the later rows that end there away from both seed endpoints, and those
   * that start there.
   */
  lemma GrowIsBreadthFirst(w: Work, t: Table, k: nat, ftt: int, w': Work) returns (kq: nat, log: seq<Meeting>)
    requires k < |t.rows| && WorkOk(Fresh(w, t.rows[k]), t, ftt) && Grow(w, t, k, ftt) == Ok(w')
    ensures k < kq <= |t.rows|
    ensures forall x :: k <= x < kq ==> t.rows[x].pk == t.rows[k].pk && t.rows[x].ga == t.rows[k].ga
    ensures kq < |t.rows| ==> t.rows[kq].pk != t.rows[k].pk || t.rows[kq].ga != t.rows[k].ga
    ensures LogInOrder(log) && (forall m :: m in log <==> IsMet(m, w', t, k, kq))
    ensures LogOk(log, t) && SiftLog(Fresh(w, t.rows[k]), t, log, ftt) == Ok(w')
  {
    hide WorkOk, SiftLog, Grown, LogInOrder, IsMet, Lists, LogOk, Explore, SiftAll, RowRange, Meetings, SeedEnd,
      Indices;
    kq := SeedEnd(t.rows, k, k + 1);
    var w0 := Fresh(w, t.rows[k]);
    SeedRunFits(k, kq, t);
    SiftAllIsLog(w0, t, 0, true, RowRange(k, kq), ftt);
    var w1 := SiftAll(w0, t, RowRange(k, kq), true, ftt).value;
    SeedLists(w', t, k, kq);
    var later := ExploreIsLog(w1, t, k, kq, 1, ftt, w');
    QueueWithin(w', t, ftt);
    var here := Meetings(0, true, RowRange(k, kq));
    var hi := if 1 < |w'.q| then |w'.q| else 1;
    ListsConcat(here, later, w', t, k, kq, 0, 1, hi);
    SiftLogConcat(w0, t, here, later, ftt);
    log := here + later;
    AllListed(log, w', t, k, kq, hi);
  }

  lemma SeedRunFits(k: nat, kq: nat, t: Table)
    requires kq <= |t.rows|
    ensures Indices(RowRange(k, kq), |t.rows|)
  {
  }

  lemma AllListed(log: seq<Meeting>, w: Work, t: Table, k: nat, kq: nat, hi: nat)
    requires k < |t.rows| && Lists(log, w, t, k, kq, 0, hi) && |w.q| <= hi && 1 <= hi
    ensures LogInOrder(log) && forall m :: m in log <==> IsMet(m, w, t, k, kq)
  {
    hide LogInOrder;
  }

  // --- What becomes of a row that is met ------------------------------------------------------

  /** Each edge the path has gained was stamped, its earlier stamp kept beside; nothing else changed its stamp. */
  ghost predicate Restamped(w: Work, w': Work, ftt: int) {
    && |w'.sc| == |w.sc| && |w'.rk| == |w.rk| == |w.sc|
    && forall y :: 0 <= y < |w.sc| ==>
         || (w'.sc[y] == w.sc[y] && w'.rk[y] == w.rk[y] && (y + 1 in w'.path <==> y + 1 in w.path))
         || (y + 1 in w'.path && w.sc[y] != ftt && w'.sc[y] == ftt && w'.rk[y] == w.sc[y])
  }

  lemma StampedTransitive(a: Work, b: Work, c: Work, ftt: int)
    requires Restamped(a, b, ftt) && Restamped(b, c, ftt)
    ensures Restamped(a, c, ftt)
  {
  }

  lemma TakeStamps(w: Work, kx: int, ftt: int)
    requires 1 <= kx <= |w.sc| && |w.rk| == |w.sc|
    ensures Restamped(w, Take(w, kx, ftt), ftt) && Take(w, kx, ftt).sc[kx - 1] == ftt
  {
  }

  /** `alt` is listed among the alternatives for endpoint `e`. */
  ghost predicate OnFile(groups: seq<Group>, ofProbe: bool, e: int, alt: int) {
    exists b :: 0 <= b < |groups| && groups[b].ofProbe == ofProbe && groups[b].end == e && alt in groups[b].alts
  }

  /**
   * Row `x` has been dealt with, its ends being `e` and `o`: one of them is paired; if they are paired with each
   * other the row carries the path's stamp; and if not, one is on file as an alternative for the other, unless
   * ten groups are open.
   */
  ghost predicate Done(w: Work, x: nat, e: int, o: int, ftt: int)
    requires 1 <= e <= |w.tq| && 1 <= o <= |w.rq| && x < |w.sc|
  {
    && (w.tq[e - 1] != 0 || w.rq[o - 1] != 0)
    && (w.tq[e - 1] == o ==> w.sc[x] == ftt)
    && (w.tq[e - 1] != o && |w.groups| < 10 ==> OnFile(w.groups, true, e, o) || OnFile(w.groups, false, o, e))
  }

  lemma FiledStays(a: seq<Group>, b: seq<Group>, ofProbe: bool, e: int, alt: int)
    requires AllWidened(a, b) && OnFile(a, ofProbe, e, alt)
    ensures OnFile(b, ofProbe, e, alt)
  {
    var i :| 0 <= i < |a| && a[i].ofProbe == ofProbe && a[i].end == e && alt in a[i].alts;
    assert Widened(a[i], b[i]);
    assert alt in b[i].alts;
  }

  lemma NoteFiles(w: Work, ofProbe: bool, e: int, current: int, alt: int)
    requires 1 <= e <= |Book(w, ofProbe)| && 0 <= Book(w, ofProbe)[e - 1] <= |w.groups|
    requires Books(w.cp, w.groups, true) && Books(w.rp, w.groups, false)
    ensures OnFile(Note(w, ofProbe, e, current, alt).groups, ofProbe, e, alt)
  {
    var r := Note(w, ofProbe, e, current, alt).groups;
    var b := if Book(w, ofProbe)[e - 1] == 0 then |w.groups| else Book(w, ofProbe)[e - 1] - 1;
    assert r[b].ofProbe == ofProbe && r[b].end == e && alt in r[b].alts;
  }

  lemma PartnerHeld(tq: seq<int>, rq: seq<int>, tq': seq<int>, rq': seq<int>, nend: nat, o: int)
    requires Inverse(tq, rq, nend) && Inverse(tq', rq', nend) && Extends(tq, tq') && 1 <= o <= |rq|
    ensures o <= |rq'| && (rq[o - 1] != 0 ==> rq'[o - 1] == rq[o - 1])
  {
    if rq[o - 1] != 0 {
      var p := rq[o - 1];
      assert tq[p - 1] == o;
      assert tq'[p - 1] == o;
    }
  }

  /** Pairings that do not come about stay away: if neither end is free, they are never paired later. */
  lemma PairingHeld(tq: seq<int>, rq: seq<int>, tq': seq<int>, rq': seq<int>, nend: nat, e: int, o: int)
    requires Inverse(tq, rq, nend) && Inverse(tq', rq', nend) && Extends(tq, tq')
    requires 1 <= e <= |tq| && 1 <= o <= |rq| && (tq[e - 1] != 0 || rq[o - 1] != 0)
    ensures e <= |tq'| && o <= |rq'| && (tq'[e - 1] != 0 || rq'[o - 1] != 0)
    ensures tq'[e - 1] == o <==> tq[e - 1] == o
  {
    PartnerHeld(tq, rq, tq', rq', nend, o);
    if tq[e - 1] == 0 {
      assert tq[e - 1] != o && rq[o - 1] != e;
      assert rq'[o - 1] != e;
    }
  }

  lemma DoneStays(w: Work, w': Work, t: Table, x: nat, e: int, o: int, ftt: int)
    requires WorkOk(w, t, ftt) && WorkOk(w', t, ftt) && Grown(w, w') && Restamped(w, w', ftt)
    requires x < |w.sc| && IsEndpoint(e, t.nend) && IsEndpoint(o, t.nend)
    requires e <= |w.tq| && o <= |w.rq| && Done(w, x, e, o, ftt)
    ensures e <= |w'.tq| && o <= |w'.rq| && Done(w', x, e, o, ftt)
  {
    hide GroupsOk, QueueOk, PathOk, TableOk, Inverse, OnFile, AllWidened;
    PairingHeld(w.tq, w.rq, w'.tq, w'.rq, t.nend, e, o);
    GroupsOnlyGrow(w.groups, w'.groups);
    if w.tq[e - 1] != o && |w.groups| < 10 {
      if OnFile(w.groups, true, e, o) {
        FiledStays(w.groups, w'.groups, true, e, o);
      } else {
        FiledStays(w.groups, w'.groups, false, o, e);
      }
    }
  }

  lemma GroupsOnlyGrow(a: seq<Group>, b: seq<Group>)
    requires AllWidened(a, b)
    ensures |a| <= |b|
  {
  }

  lemma AcceptDoes(w: Work, t: Table, kz: int, l: int, kx: int, ftt: int)
    requires WorkOk(w, t, ftt) && IsEndpoint(kz, t.nend) && IsEndpoint(l, t.nend) && 1 <= kx <= |t.rows|
    requires w.tq[kz - 1] == 0 && w.rq[l - 1] == 0 && Accept(w, kz, l, kx, ftt).Ok?
    ensures var w' := Accept(w, kz, l, kx, ftt).value;
      Restamped(w, w', ftt) && kz <= |w'.tq| && l <= |w'.rq| && kx <= |w'.sc| && Done(w', kx - 1, kz, l, ftt)
  {
    hide GroupsOk, QueueOk, PathOk, TableOk, Inverse, OnFile;
    InverseFits(w.tq, w.rq, t.nend);
    TakeStamps(w, kx, ftt);
    hide Take, Restamped;
    var w1 := Take(w, kx, ftt);
    SameStamps(w, w1, Accept(w, kz, l, kx, ftt).value, ftt);
    TakeKeepsSizes(w, kx, ftt);
  }

  lemma TakeKeepsSizes(w: Work, kx: int, ftt: int)
    requires 1 <= kx <= |w.sc| && |w.rk| == |w.sc|
    ensures var r := Take(w, kx, ftt);
      r == w.(path := r.path, rk := r.rk, sc := r.sc) && |r.sc| == |r.rk| == |w.sc|
  {
  }

  lemma SameStamps(w: Work, w1: Work, w2: Work, ftt: int)
    requires Restamped(w, w1, ftt) && w2.sc == w1.sc && w2.rk == w1.rk && w2.path == w1.path
    ensures Restamped(w, w2, ftt)
  {
  }

  lemma ReacceptDoes(w: Work, t: Table, kz: int, l: int, kx: int, ftt: int)
    requires WorkOk(w, t, ftt) && IsEndpoint(kz, t.nend) && IsEndpoint(l, t.nend) && 1 <= kx <= |t.rows|
    requires w.tq[kz - 1] == l && Reaccept(w, kz, kx, ftt).Ok?
    ensures var w' := Reaccept(w, kz, kx, ftt).value;
      Restamped(w, w', ftt) && kz <= |w'.tq| && l <= |w'.rq| && kx <= |w'.sc| && Done(w', kx - 1, kz, l, ftt)
  {
    hide GroupsOk, QueueOk, PathOk, TableOk, Inverse, OnFile;
    InverseFits(w.tq, w.rq, t.nend);
    TakeStamps(w, kx, ftt);
    TakeStamps(Enqueue(w, kz), kx, ftt);
    SameStamps(w, w, Enqueue(w, kz), ftt) by { NothingStamped(w, ftt); }
    hide Take, Restamped;
    TakeKeepsSizes(w, kx, ftt);
    TakeKeepsSizes(Enqueue(w, kz), kx, ftt);
    if w.sc[kx - 1] == ftt {
      NothingStamped(w, ftt);
    } else {
      StampedTransitive(w, Enqueue(w, kz), Take(Enqueue(w, kz), kx, ftt), ftt);
    }
  }

  lemma NothingStamped(w: Work, ftt: int)
    requires |w.rk| == |w.sc|
    ensures Restamped(w, w, ftt)
  {
  }

  lemma ConflictDoes(w: Work, t: Table, kz: int, l: int, kx: int, ftt: int)
    requires WorkOk(w, t, ftt) && IsEndpoint(kz, t.nend) && IsEndpoint(l, t.nend) && 1 <= kx <= |t.rows|
    requires w.tq[kz - 1] != l && (w.tq[kz - 1] != 0 || w.rq[l - 1] != 0)
    ensures var w' := Conflict(w, t, kz, l);
      Restamped(w, w', ftt) && kz <= |w'.tq| && l <= |w'.rq| && kx <= |w'.sc| && Done(w', kx - 1, kz, l, ftt)
  {
    hide QueueOk, PathOk, TableOk, Inverse, OnFile, Note, GroupOk, Restamped;
    InverseFits(w.tq, w.rq, t.nend);
    ConflictKeepsGroups(w, t, kz, l);
    NothingStamped(w, ftt);
    SameStamps(w, w, Conflict(w, t, kz, l), ftt);
    if |w.groups| < WWIM { ConflictFiles(w, t, kz, l); }
    hide Conflict, GroupsOk, AllWidened;
  }

  /** A conflict puts the row's pair on file for the ends that are paired elsewhere. */
  lemma ConflictFiles(w: Work, t: Table, kz: int, l: int)
    requires IsEndpoint(kz, t.nend) && IsEndpoint(l, t.nend) && |w.groups| < WWIM
    requires GroupsOk(w.cp, w.rp, w.groups, t.nend) && Inverse(w.tq, w.rq, t.nend)
    ensures var groups := Conflict(w, t, kz, l).groups;
      && (w.tq[kz - 1] != 0 ==> OnFile(groups, true, kz, l)) && (w.rq[l - 1] != 0 ==> OnFile(groups, false, l, kz))
  {
    hide Inverse, Note, AllWidened, OnFile;
    PartnersFit(w, t.nend, kz, l);
    BothFit(w, t.nend);
    var n, g := w.tq[kz - 1], w.rq[l - 1];
    var w1 := if n != 0 then Note(w, true, kz, n, l) else w;
    if n != 0 {
      NoteFiles(w, true, kz, n, l);
      NoteKeepsGroups(w, true, kz, n, l, t.nend);
    }
    if g != 0 {
      BothFit(w1, t.nend);
      NoteFiles(w1, false, l, g, kz);
      NoteKeepsGroups(w1, false, l, g, kz, t.nend);
      if n != 0 { FiledStays(w1.groups, Note(w1, false, l, g, kz).groups, true, kz, l); }
    }
  }

  /** The far end of a row, as seen from where it is met. */
  function FarEnd(r: ColpRow, forward: bool): (e: int) {
    if forward then r.pj else r.pk
  }

  function FarPartner(r: ColpRow, forward: bool): (o: int) {
    if forward then r.gb else r.ga
  }

  lemma SiftRowDoes(w: Work, t: Table, x: nat, forward: bool, ftt: int)
    requires WorkOk(w, t, ftt) && x < |t.rows| && SiftRow(w, t, x, forward, ftt).Ok?
    ensures var w', r := SiftRow(w, t, x, forward, ftt).value, t.rows[x];
      && WorkOk(w', t, ftt) && Grown(w, w') && Restamped(w, w', ftt)
      && IsEndpoint(FarEnd(r, forward), t.nend) && IsEndpoint(FarPartner(r, forward), t.nend)
      && t.nend <= |w'.tq| && t.nend <= |w'.rq| && x < |w'.sc|
      && Done(w', x, FarEnd(r, forward), FarPartner(r, forward), ftt)
  {
    hide Accept, Reaccept, Conflict, Restamped, Done, Grown;
    assert RowOk(t.rows[x], t.nend);
    SiftRowGrows(w, t, x, forward, ftt);
    var w' := SiftRow(w, t, x, forward, ftt).value;
    SizesFit(w', t, ftt);
    var kz, l := FarEnd(t.rows[x], forward), FarPartner(t.rows[x], forward);
    SizesFit(w, t, ftt);
    hide WorkOk;
    if w.tq[kz - 1] == 0 && w.rq[l - 1] == 0 {
      AcceptDoes(w, t, kz, l, x + 1, ftt);
    } else if w.tq[kz - 1] == l {
      ReacceptDoes(w, t, kz, l, x + 1, ftt);
    } else {
      ConflictDoes(w, t, kz, l, x + 1, ftt);
    }
  }

  lemma SizesFit(w: Work, t: Table, ftt: int)
    requires WorkOk(w, t, ftt)
    ensures t.nend <= |w.tq| && t.nend <= |w.rq| && |t.rows| < |w.sc| && |w.rk| == |w.sc|
  {
  }

  /** Every row of a log is dealt with in the end. */
  lemma {:induction false} SiftLogDoes(w: Work, t: Table, log: seq<Meeting>, ftt: int)
    requires WorkOk(w, t, ftt) && LogOk(log, t) && SiftLog(w, t, log, ftt).Ok?
    ensures var w' := SiftLog(w, t, log, ftt).value;
      && Grown(w, w') && Restamped(w, w', ftt) && TableOk(t)
      && t.nend <= |w'.tq| && t.nend <= |w'.rq| && |t.rows| < |w'.sc|
      && forall i :: 0 <= i < |log| ==> DoneFor(w', t, log[i], ftt)
  {
    hide WorkOk, SiftRow, Grown, Restamped, Done;
    if log == [] {
      GrownReflexive(w);
      SizesFit(w, t, ftt);
      NothingStamped(w, ftt);
      assert TableOk(t) by { WorkHasTable(w, t, ftt); }
    } else {
      var m := |log| - 1;
      var w1, w' := SiftLog(w, t, log[..m], ftt).value, SiftLog(w, t, log, ftt).value;
      SiftLogDoes(w, t, log[..m], ftt);
      SiftRowDoes(w1, t, log[m].row, log[m].forward, ftt);
      GrownTransitive(w, w1, w');
      StampedTransitive(w, w1, w', ftt);
      SizesFit(w', t, ftt);
      SizesFit(w1, t, ftt);
      WorkHasTable(w, t, ftt);
      forall i | 0 <= i < |log| ensures DoneFor(w', t, log[i], ftt) {
        if i < m {
          assert log[..m][i] == log[i];
          DoneForStays(w1, w', t, log[i], ftt);
        } else {
          LastIsDone(w', t, log[m], ftt);
        }
      }
    }
  }

  lemma LastIsDone(w: Work, t: Table, m: Meeting, ftt: int)
    requires TableOk(t) && t.nend <= |w.tq| && t.nend <= |w.rq| && |t.rows| < |w.sc| && m.row < |t.rows|
    requires var r := t.rows[m.row];
      && 1 <= FarEnd(r, m.forward) <= |w.tq| && 1 <= FarPartner(r, m.forward) <= |w.rq|
      && Done(w, m.row, FarEnd(r, m.forward), FarPartner(r, m.forward), ftt)
    ensures DoneFor(w, t, m, ftt)
  {
    hide Done;
  }

  lemma WorkHasTable(w: Work, t: Table, ftt: int)
    requires WorkOk(w, t, ftt)
    ensures TableOk(t)
  {
  }

  ghost predicate DoneFor(w: Work, t: Table, m: Meeting, ftt: int)
    requires TableOk(t) && t.nend <= |w.tq| && t.nend <= |w.rq| && |t.rows| < |w.sc|
  {
    m.row < |t.rows| && Done(w, m.row, FarEnd(t.rows[m.row], m.forward), FarPartner(t.rows[m.row], m.forward), ftt)
  }

  lemma DoneForStays(w: Work, w': Work, t: Table, m: Meeting, ftt: int)
    requires WorkOk(w, t, ftt) && WorkOk(w', t, ftt) && Grown(w, w') && Restamped(w, w', ftt) && TableOk(t)
    requires t.nend <= |w.tq| && t.nend <= |w.rq| && |t.rows| < |w.sc| && DoneFor(w, t, m, ftt)
    ensures t.nend <= |w'.tq| && t.nend <= |w'.rq| && |t.rows| < |w'.sc| && DoneFor(w', t, m, ftt)
  {
    hide WorkOk, Done, Grown, Restamped;
    SizesFit(w', t, ftt);
    var r := t.rows[m.row];
    assert RowOk(r, t.nend);
    DoneStays(w, w', t, m.row, FarEnd(r, m.forward), FarPartner(r, m.forward), ftt);
  }

  /**
   * Sifting queues a row's far end when it newly pairs it, and again when the pair is met by a row not yet taken
   * whose own number marks no queued endpoint; beyond 4000 entries that is an overflow. With ten groups open a
   * row that contradicts the pairing changes nothing.
   */
  lemma SiftQueuesWhen(w: Work, t: Table, kz: int, l: int, kx: int, ftt: int)
    requires WorkOk(w, t, ftt) && IsEndpoint(kz, t.nend) && IsEndpoint(l, t.nend) && 1 <= kx <= |t.rows|
    ensures var r := Sift(w, t, kz, l, kx, ftt);
      var both := w.tq[kz - 1] == 0 && w.rq[l - 1] == 0;
      var again := w.tq[kz - 1] == l && w.sc[kx - 1] != ftt && w.zz[kx - 1] == 1000;
      && (r.Overflow? <==> (both || again) && |w.q| >= 4000)
      && (r.Ok? ==> r.value.q == w.q + if both || again then [kz] else [])
      && (r.Ok? ==> r.value.zz == if both || again then w.zz[kz - 1 := |w.q|] else w.zz)
      && (r.Ok? && !both && w.tq[kz - 1] != l && |w.groups| >= 10 ==> r.value == w)
      && (r.Ok? && w.tq[kz - 1] == l ==> r.value.groups == w.groups && r.value.tq == w.tq && r.value.rq == w.rq)
  {
    assert w.q + [] == w.q;
    hide Inverse, GroupsOk, QueueOk, PathOk, TableOk, Note;
    InverseFits(w.tq, w.rq, t.nend);
    if w.tq[kz - 1] != l && !(w.tq[kz - 1] == 0 && w.rq[l - 1] == 0) { ConflictKeepsGroups(w, t, kz, l); }
  }

  // --- The path, exactly ----------------------------------------------------------------------

  /** The row met by `m` is in the pairing at its far end too. */
  ghost predicate Closed(m: Meeting, w: Work, t: Table)
    requires m.row < |t.rows|
  {
    var e := FarEnd(t.rows[m.row], m.forward);
    1 <= e <= |w.tq| && w.tq[e - 1] == FarPartner(t.rows[m.row], m.forward)
  }

  /** Some entry of the log met row `x` and closed it. */
  ghost predicate ClosedIn(log: seq<Meeting>, x: int, w: Work, t: Table)
    requires LogOk(log, t)
  {
    exists i :: 0 <= i < |log| && log[i].row == x && Closed(log[i], w, t)
  }

  lemma ClosedStays(m: Meeting, w: Work, w': Work, t: Table)
    requires TableOk(t) && m.row < |t.rows| && Grown(w, w') && Closed(m, w, t)
    ensures Closed(m, w', t)
  {
    assert RowOk(t.rows[m.row], t.nend);
  }

  /** Edges get into the path from the log only, and only when their far ends are paired. */
  lemma {:induction false} SiftLogTakes(w: Work, t: Table, log: seq<Meeting>, ftt: int, y: int)
    requires WorkOk(w, t, ftt) && LogOk(log, t) && SiftLog(w, t, log, ftt).Ok?
    requires y in SiftLog(w, t, log, ftt).value.path
    ensures y in w.path || ClosedIn(log, y - 1, SiftLog(w, t, log, ftt).value, t)
  {
    hide WorkOk, SiftRow, Grown, Closed;
    if log != [] {
      var m := |log| - 1;
      var w1, w' := SiftLog(w, t, log[..m], ftt).value, SiftLog(w, t, log, ftt).value;
      WorkHasTable(w, t, ftt);
      SiftRowGrows(w1, t, log[m].row, log[m].forward, ftt);
      RowTakes(w1, t, log[m], ftt);
      if y in w1.path {
        SiftLogTakes(w, t, log[..m], ftt, y);
        if y !in w.path {
          var i :| 0 <= i < m && log[..m][i].row == y - 1 && Closed(log[..m][i], w1, t);
          ClosedStays(log[i], w1, w', t);
          assert log[i].row == y - 1 && Closed(log[i], w', t);
        }
      } else {
        assert y == log[m].row + 1;
        assert log[m].row == y - 1 && Closed(log[m], w', t);
      }
    }
  }

  lemma RowTakes(w: Work, t: Table, m: Meeting, ftt: int)
    requires WorkOk(w, t, ftt) && m.row < |t.rows| && SiftRow(w, t, m.row, m.forward, ftt).Ok?
    ensures var w' := SiftRow(w, t, m.row, m.forward, ftt).value;
      w'.path == w.path || (w'.path == w.path + [m.row + 1] && Closed(m, w', t))
  {
    hide Sift, AllWidened, NewlyQueued, Inverse, GroupsOk, QueueOk, PathOk;
    var r := t.rows[m.row];
    assert RowOk(r, t.nend);
    SizesFit(w, t, ftt);
    SiftRowGrows(w, t, m.row, m.forward, ftt);
    SiftAppends(w, t, FarEnd(r, m.forward), FarPartner(r, m.forward), m.row + 1, ftt);
  }

  /**
   * What growing a path leaves of each row it met, wherever it met it: an end paired; the path's stamp, if the
   * ends are paired with each other; and the pair on file as an alternative, if they are not and fewer than ten
   * groups are open. Nothing but the path's edges has changed its stamp.
   */
  lemma MetRowsAreDone(w: Work, t: Table, k: nat, ftt: int, w': Work, m: Meeting)
    requires k < |t.rows| && WorkOk(Fresh(w, t.rows[k]), t, ftt) && Grow(w, t, k, ftt) == Ok(w')
    requires IsMet(m, w', t, k, SeedEnd(t.rows, k, k + 1))
    ensures m.row < |t.rows| < |w'.sc| && Restamped(Fresh(w, t.rows[k]), w', ftt)
    ensures var e, o := FarEnd(t.rows[m.row], m.forward), FarPartner(t.rows[m.row], m.forward);
      1 <= e <= |w'.tq| && 1 <= o <= |w'.rq| && Done(w', m.row, e, o, ftt)
  {
    hide WorkOk, SiftLog, IsMet, Grow, Done, Restamped, LogInOrder, SeedEnd, Fresh;
    var kq, log := GrowIsBreadthFirst(w, t, k, ftt, w');
    assert kq == SeedEnd(t.rows, k, k + 1) by { SeedEndIs(t.rows, k, k + 1, kq); }
    SiftLogDoes(Fresh(w, t.rows[k]), t, log, ftt);
    assert m in log;
    var i :| 0 <= i < |log| && log[i] == m;
    assert DoneFor(w', t, log[i], ftt);
    assert RowOk(t.rows[m.row], t.nend);
  }

  /**
   * If no row had the path's stamp before, the path is exactly the rows that were met and whose two ends have
   * come to be paired with each other.
   */
  lemma PathIsMetAndClosed(w: Work, t: Table, k: nat, ftt: int, w': Work, x: nat)
    requires k < |t.rows| && WorkOk(Fresh(w, t.rows[k]), t, ftt) && Grow(w, t, k, ftt) == Ok(w')
    requires x < |t.rows| && forall y :: 0 <= y < |w.sc| ==> w.sc[y] != ftt
    ensures x + 1 in w'.path <==>
      exists m: Meeting :: m.row == x && IsMet(m, w', t, k, SeedEnd(t.rows, k, k + 1)) && Closed(m, w', t)
  {
    hide WorkOk, SiftLog, IsMet, Grow, Closed, LogInOrder, SeedEnd, Restamped, Done;
    var w0 := Fresh(w, t.rows[k]);
    var kq, log := GrowIsBreadthFirst(w, t, k, ftt, w');
    assert kq == SeedEnd(t.rows, k, k + 1) by { SeedEndIs(t.rows, k, k + 1, kq); }
    if x + 1 in w'.path {
      SiftLogTakes(w0, t, log, ftt, x + 1);
      var i :| 0 <= i < |log| && log[i].row == x && Closed(log[i], w', t);
      assert log[i] in log;
    }
    if m: Meeting :| m.row == x && IsMet(m, w', t, k, kq) && Closed(m, w', t) {
      MetRowsAreDone(w, t, k, ftt, w', m);
      StampedFits(w0, w', ftt);
      ClosedIsStamped(w0, w', t, m, ftt);
    }
  }

  lemma StampedFits(w: Work, w': Work, ftt: int)
    requires Restamped(w, w', ftt)
    ensures |w.sc| == |w'.sc|
  {
  }

  lemma ClosedIsStamped(w: Work, w': Work, t: Table, m: Meeting, ftt: int)
    requires m.row < |t.rows| < |w'.sc| && Restamped(w, w', ftt) && w.sc[m.row] != ftt && Closed(m, w', t)
    requires var e, o := FarEnd(t.rows[m.row], m.forward), FarPartner(t.rows[m.row], m.forward);
      1 <= e <= |w'.tq| && 1 <= o <= |w'.rq| && Done(w', m.row, e, o, ftt)
    ensures m.row + 1 in w'.path
  {
    hide OnFile;
  }
}
