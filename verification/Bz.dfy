/**
 * The matcher's work arrays and the methods that run the search in place on them. Each method is tied
 * to a function on values: growing a path, settling it, tearing it down, turning the odometer, and the
 * sweep over the seeds; the last loop is tied to the clique problem itself.
 */
module Matcher {
  import opened Seqs
  import opened Cliques
  import opened CliqueSearch
  import opened CliqueOverrun
  import opened Consts
  import opened Paths
  import opened PathFacts
  import opened Lookup
  import opened Odometer
  import opened OdometerFacts
  import opened Rotation
  import opened Clusters
  import opened ScoreFacts
  import opened ClusterTables
  import opened Seeds
  import opened SeedSteps

  /** How a match can end. The last case is the final loop reading or writing past its work arrays. */
  datatype Verdict = Scored(score: int) | QueueOverflowed | OutOfRange

  method Filled(n: nat, v: int) returns (a: array<int>)
    ensures fresh(a) && a.Length == n && forall i :: 0 <= i < n ==> a[i] == v
  {
    a := new int[n](_ => v);
  }

  /** Four arrays at once, all zero. */
  method FourZeroed(n: nat) returns (a: array<int>, b: array<int>, c: array<int>, d: array<int>)
    ensures fresh({a, b, c, d}) && a !in {b, c, d} && b !in {c, d} && c != d
    ensures a.Length == b.Length == c.Length == d.Length == n
    ensures forall i :: 0 <= i < n ==> a[i] == 0 && b[i] == 0 && c[i] == 0 && d[i] == 0
  {
    a := Filled(n, 0);
    b := Filled(n, 0);
    c := Filled(n, 0);
    d := Filled(n, 0);
  }

  /**
   * The work arrays. Entry `e - 1` of an endpoint array belongs to endpoint `e`, entry `x - 1` of an edge
   * array to table row `x`; group arrays are indexed by group number, cluster tables by cluster number.
   */
  class Bz {
    const nend: nat
    const sc: array<int>
    const cp: array<int>
    const rp: array<int>
    const tq: array<int>
    const rq: array<int>
    const zz: array<int>
    const rk: array<int>
    const y: array<int>
    const qq: array<int>
    const rx: array<int>
    const mm: array<int>
    const nn: array<int>
    const rr: array<int>
    const cf: array2<int>
    const rf: array2<int>
    var avv: seq<Average>
    var ct: seq<int>
    var gct: seq<int>
    var ctt: seq<int>
    var ctp: seq<seq<int>>
    var yy: seq<(seq<int>, seq<int>)>
    /** The clusters that the tables above describe. */
    ghost var clusters: seq<Cluster>

    /** The work arrays are distinct objects. */
    ghost predicate Apart() {
      && sc !in {cp, rp, tq, rq, zz, rk, y, qq, rx, mm, nn, rr}
      && cp !in {rp, tq, rq, zz, rk, y, qq, rx, mm, nn, rr}
      && rp !in {tq, rq, zz, rk, y, qq, rx, mm, nn, rr}
      && tq !in {rq, zz, rk, y, qq, rx, mm, nn, rr}
      && rq !in {zz, rk, y, qq, rx, mm, nn, rr}
      && zz !in {rk, y, qq, rx, mm, nn, rr}
      && rk !in {y, qq, rx, mm, nn, rr}
      && y !in {qq, rx, mm, nn, rr}
      && qq !in {rx, mm, nn, rr}
      && rx !in {mm, nn, rr} && mm !in {nn, rr} && nn != rr
      && cf != rf
    }

    /** And have the sizes their constructor gives them. */
    ghost predicate Sized() {
      && sc.Length == cp.Length == rp.Length == tq.Length == rq.Length == zz.Length == rk.Length == y.Length
      && nend + 2 <= sc.Length && qq.Length == QQ_SIZE + 2
      && rx.Length == mm.Length == nn.Length == rr.Length == cf.Length0 == rf.Length0 == 64
      && cf.Length1 == rf.Length1 == nend + 2
    }

    // --- The work arrays as values --------------------------------------------------------------

    static ghost function RowOf(a: array2<int>, b: nat, n: nat): (r: seq<int>)
      requires b < a.Length0 && n <= a.Length1
      reads a
      ensures |r| == n && forall i :: 0 <= i < n ==> r[i] == a[b, i]
    {
      seq(n, i requires 0 <= i < n reads a => a[b, i])
    }

    /** Group `b`: its endpoint in `rx` (negative on the gallery side), its alternatives, its selection. */
    ghost predicate GroupShaped(b: nat)
      reads rx, mm
      requires Sized()
    {
      b < 64 && rx[b] != 0 && 0 <= mm[b] <= nend + 2
    }

    ghost function GroupAt(b: nat): (g: Group)
      requires Sized() && GroupShaped(b)
      reads rx, mm, nn, cf, rf
    {
      if rx[b] > 0 then Group(true, rx[b], RowOf(cf, b, mm[b]), nn[b])
      else Group(false, -rx[b], RowOf(rf, b, mm[b]), nn[b])
    }

    ghost predicate InUse(ww: int, qh: int, tot: int)
      reads rx, mm
      requires Sized()
    {
      0 <= ww <= 64 && 0 <= qh <= qq.Length && 0 <= tot <= y.Length && forall b :: 0 <= b < ww ==> GroupShaped(b)
    }

    ghost function Groups(ww: nat): (r: seq<Group>)
      requires Sized() && ww <= 64 && forall b :: 0 <= b < ww ==> GroupShaped(b)
      reads rx, mm, nn, cf, rf
      ensures |r| == ww && forall b :: 0 <= b < ww ==> r[b] == GroupAt(b)
    {
      if ww == 0 then [] else Groups(ww - 1) + [GroupAt(ww - 1)]
    }

    /** What the arrays stand for: `ww` groups, `qh` queued endpoints, a path of `tot` edges. */
    ghost function State(ww: int, qh: int, tot: int): (w: Work)
      requires Sized() && InUse(ww, qh, tot)
      reads sc, cp, rp, tq, rq, zz, rk, y, qq, rx, mm, nn, cf, rf
    {
      Work(tq[..], rq[..], cp[..], rp[..], zz[..], sc[..], rk[..], qq[..qh], y[..tot], Groups(ww))
    }

    // --- Sifting one edge -----------------------------------------------------------------------

    /** Takes edge `kx` into the path. */
    method TakeEdge(kx: int, ftt: int, tot: int, ghost ww: int, ghost qh: int) returns (tot': int)
      requires Sized() && Apart() && InUse(ww, qh, tot) && 1 <= kx <= sc.Length && tot < y.Length
      requires sc[kx - 1] != ftt
      modifies y, rk, sc
      ensures tot' == tot + 1 && InUse(ww, qh, tot')
      ensures State(ww, qh, tot') == Take(old(State(ww, qh, tot)), kx, ftt)
    {
      ghost var w := State(ww, qh, tot);
      y[tot] := kx;
      tot' := tot + 1;
      rk[kx - 1] := sc[kx - 1];
      sc[kx - 1] := ftt;
      assert Groups(ww) == w.groups;
    }

    method QueueEndpoint(kz: int, qh: int, ghost ww: int, ghost tot: int) returns (qh': int)
      requires Sized() && Apart() && InUse(ww, qh, tot) && 1 <= kz <= zz.Length && qh < QQ_SIZE
      modifies qq, zz
      ensures qh' == qh + 1 && InUse(ww, qh', tot)
      ensures State(ww, qh', tot) == Enqueue(old(State(ww, qh, tot)), kz)
    {
      ghost var w := State(ww, qh, tot);
      qq[qh] := kz;
      zz[kz - 1] := qh;
      qh' := qh + 1;
      assert Groups(ww) == w.groups;
    }

    /** Both ends free. */
    method AcceptEdge(kz: int, qh: int, l: int, kx: int, ftt: int, tot: int, ghost ww: int)
      returns (overflow: bool, qh': int, tot': int)
      requires Sized() && Apart() && InUse(ww, qh, tot) && tot < y.Length
      requires 1 <= kz <= zz.Length && 1 <= l <= rq.Length && 1 <= kx <= sc.Length
      modifies y, rk, sc, qq, zz, tq, rq
      ensures var r := Accept(old(State(ww, qh, tot)), kz, l, kx, ftt);
        && overflow == r.Overflow?
        && (!overflow ==> InUse(ww, qh', tot') && State(ww, qh', tot') == r.value)
    {
      qh', tot' := qh, tot;
      if sc[kx - 1] != ftt {
        tot' := TakeEdge(kx, ftt, tot, ww, qh);
      }
      if qh >= QQ_SIZE {
        return true, qh', tot';
      }
      qh' := QueueEndpoint(kz, qh, ww, tot');
      ghost var w := State(ww, qh', tot');
      tq[kz - 1] := l;
      rq[l - 1] := kz;
      assert Groups(ww) == w.groups;
      overflow := false;
    }

    /** Already paired with each other. The queueing test reads `zz` at the edge's number. */
    method ReacceptEdge(kz: int, qh: int, kx: int, ftt: int, tot: int, ghost ww: int)
      returns (overflow: bool, qh': int, tot': int)
      requires Sized() && Apart() && InUse(ww, qh, tot) && tot < y.Length
      requires 1 <= kz <= zz.Length && 1 <= kx <= sc.Length
      modifies y, rk, sc, qq, zz
      ensures var r := Reaccept(old(State(ww, qh, tot)), kz, kx, ftt);
        && overflow == r.Overflow?
        && (!overflow ==> InUse(ww, qh', tot') && State(ww, qh', tot') == r.value)
    {
      overflow, qh', tot' := false, qh, tot;
      if sc[kx - 1] != ftt {
        if zz[kx - 1] == 1000 {
          if qh >= QQ_SIZE {
            return true, qh', tot';
          }
          qh' := QueueEndpoint(kz, qh, ww, tot);
        }
        tot' := TakeEdge(kx, ftt, tot, ww, qh');
      }
    }

    /** Whether `x` is among the first `lim` alternatives of group `b`. */
    static method Listed(lists: array2<int>, b: nat, lim: nat, x: int) returns (found: bool)
      requires b < lists.Length0 && lim <= lists.Length1
      ensures found == (x in RowOf(lists, b, lim))
    {
      found := false;
      for i := 0 to lim
        invariant found == (x in RowOf(lists, b, lim)[..i])
      {
        if lists[b, i] == x {
          assert RowOf(lists, b, lim)[i] == x;
          return true;
        }
      }
    }

    /** Group `b` reads the same when its entries are the same. */
    twostate lemma GroupKept(b: nat)
      requires Sized() && old(GroupShaped(b))
      requires rx[b] == old(rx[b]) && mm[b] == old(mm[b]) && nn[b] == old(nn[b])
      requires forall i :: 0 <= i < nend + 2 ==> cf[b, i] == old(cf[b, i]) && rf[b, i] == old(rf[b, i])
      ensures GroupShaped(b) && GroupAt(b) == old(GroupAt(b))
    {
    }

    /** Writes the entries of a new group `ww + 1`. */
    method WriteGroup(ofProbe: bool, e: int, current: int, ww: int)
      requires Sized() && Apart() && 0 <= ww < 64 && 1 <= e && forall b :: 0 <= b < ww ==> GroupShaped(b)
      modifies cf, rf, mm, nn, rx
      ensures forall b :: 0 <= b < ww + 1 ==> GroupShaped(b)
      ensures Groups(ww + 1) == old(Groups(ww)) + [Group(ofProbe, e, [current], 1)]
    {
      if ofProbe {
        cf[ww, 0] := current;
        rx[ww] := e;
      } else {
        rf[ww, 0] := current;
        rx[ww] := -e;
      }
      mm[ww] := 1;
      nn[ww] := 1;
      forall b | 0 <= b < ww ensures GroupShaped(b) && GroupAt(b) == old(GroupAt(b)) {
        GroupKept(b);
      }
      assert GroupAt(ww) == Group(ofProbe, e, [current], 1);
    }

    /** Opens a group for endpoint `e`, whose current partner is its first alternative. */
    method OpenGroup(ofProbe: bool, e: int, current: int, ww: int, ghost qh: int, ghost tot: int)
      requires Sized() && Apart() && InUse(ww, qh, tot) && ww < 64 && 1 <= e <= cp.Length
      modifies cp, rp, cf, rf, mm, nn, rx
      ensures InUse(ww + 1, qh, tot)
      ensures var w := old(State(ww, qh, tot));
        State(ww + 1, qh, tot)
          == WithBook(w, ofProbe, Book(w, ofProbe)[e - 1 := ww + 1])
               .(groups := w.groups + [Group(ofProbe, e, [current], 1)])
    {
      hide GroupAt, GroupShaped;
      WriteGroup(ofProbe, e, current, ww);
      ghost var groups := Groups(ww + 1);
      if ofProbe {
        cp[e - 1] := ww + 1;
      } else {
        rp[e - 1] := ww + 1;
      }
      assert Groups(ww + 1) == groups;
    }

    /** Writes `alt` behind group `b`'s alternatives, and touches no other entry. */
    method WriteAlternative(ofProbe: bool, b: nat, alt: int)
      requires Sized() && Apart() && b < 64 && 0 <= mm[b] < nend + 2
      modifies cf, rf, mm
      ensures mm[b] == old(mm[b]) + 1 && forall c :: 0 <= c < 64 && c != b ==> mm[c] == old(mm[c])
      ensures forall c, i :: 0 <= c < 64 && 0 <= i < nend + 2 && (c != b || i < old(mm[b])) ==>
        cf[c, i] == old(cf[c, i]) && rf[c, i] == old(rf[c, i])
      ensures forall i :: 0 <= i < nend + 2 ==> if ofProbe then rf[b, i] == old(rf[b, i]) else cf[b, i] == old(cf[b, i])
      ensures ofProbe ==> cf[b, mm[b] - 1] == alt
      ensures !ofProbe ==> rf[b, mm[b] - 1] == alt
    {
      var lim := mm[b];
      if ofProbe {
        cf[b, lim] := alt;
      } else {
        rf[b, lim] := alt;
      }
      mm[b] := lim + 1;
    }

    method AppendAlternative(ofProbe: bool, b: nat, alt: int, ww: int)
      requires Sized() && Apart() && b < ww <= 64 && (forall c :: 0 <= c < ww ==> GroupShaped(c))
      requires GroupAt(b).ofProbe == ofProbe && mm[b] < nend + 2
      modifies cf, rf, mm
      ensures forall c :: 0 <= c < ww ==> GroupShaped(c)
      ensures var groups := old(Groups(ww));
        Groups(ww) == groups[b := groups[b].(alts := groups[b].alts + [alt])]
    {
      ghost var groups := Groups(ww);
      hide GroupShaped, GroupAt;
      ShapeOf(b);
      WriteAlternative(ofProbe, b, alt);
      GroupAppended(b);
      forall c | 0 <= c < ww && c != b ensures GroupShaped(c) && GroupAt(c) == old(GroupAt(c)) {
        GroupKept(c);
      }
      assert Groups(ww) == groups[b := groups[b].(alts := groups[b].alts + [alt])];
    }

    lemma ShapeOf(b: nat)
      requires Sized() && GroupShaped(b)
      ensures b < 64 && rx[b] != 0 && 0 <= mm[b] <= nend + 2 && (GroupAt(b).ofProbe <==> rx[b] > 0)
    {
    }

    /** Group `b` after an entry has been written behind its alternatives. */
    twostate lemma GroupAppended(b: nat)
      requires Sized() && old(GroupShaped(b)) && old(mm[b]) < nend + 2
      requires rx[b] == old(rx[b]) && mm[b] == old(mm[b]) + 1 && nn[b] == old(nn[b])
      requires forall i :: 0 <= i < old(mm[b]) ==> cf[b, i] == old(cf[b, i]) && rf[b, i] == old(rf[b, i])
      ensures GroupShaped(b)
      ensures GroupAt(b) == old(GroupAt(b))
        .(alts := old(GroupAt(b).alts) + [if rx[b] > 0 then cf[b, mm[b] - 1] else rf[b, mm[b] - 1]])
    {
      var lists := if rx[b] > 0 then cf else rf;
      assert RowOf(lists, b, mm[b]) == old(RowOf(lists, b, mm[b])) + [lists[b, mm[b] - 1]];
    }

    /** Appends `alt` to group `b` unless it is listed there. */
    method AddAlternative(ofProbe: bool, b: nat, alt: int, ww: int, ghost qh: int, ghost tot: int)
      requires Sized() && Apart() && InUse(ww, qh, tot) && b < ww && GroupAt(b).ofProbe == ofProbe
      requires mm[b] < nend + 2
      modifies cf, rf, mm
      ensures InUse(ww, qh, tot)
      ensures State(ww, qh, tot) == old(State(ww, qh, tot)).(groups := Widen(old(Groups(ww)), b, alt))
    {
      var found := Listed(if ofProbe then cf else rf, b, mm[b], alt);
      if !found {
        AppendAlternative(ofProbe, b, alt, ww);
      }
    }

    /** Notes `alt` as an alternative for endpoint `e`, opening a group for it if it has none. */
    method NoteAlternative(ofProbe: bool, e: int, current: int, alt: int, ww: int, ghost qh: int, ghost tot: int)
      returns (ww': int)
      requires Sized() && Apart() && InUse(ww, qh, tot) && ww < 64 && 1 <= e <= cp.Length
      requires var b := if ofProbe then cp[e - 1] else rp[e - 1];
        0 <= b <= ww && (b != 0 ==> GroupAt(b - 1).ofProbe == ofProbe && |GroupAt(b - 1).alts| <= nend)
      modifies cp, rp, cf, rf, mm, nn, rx
      ensures 0 <= ww' <= 64 && InUse(ww', qh, tot)
      ensures State(ww', qh, tot) == Note(old(State(ww, qh, tot)), ofProbe, e, current, alt)
    {
      ghost var w := State(ww, qh, tot);
      NoteInSteps(w, ofProbe, e, current, alt);
      ww' := ww;
      var b := if ofProbe then cp[e - 1] else rp[e - 1];
      if b == 0 {
        OpenGroup(ofProbe, e, current, ww, qh, tot);
        ww' := ww + 1;
        b := ww';
        FreshGroup(ww', qh, tot, Group(ofProbe, e, [current], 1));
      }
      hide Note, Widen;
      AddAlternative(ofProbe, b - 1, alt, ww', qh, tot);
    }

    lemma FreshGroup(ww: int, qh: int, tot: int, g: Group)
      requires Sized() && InUse(ww, qh, tot) && ww > 0 && State(ww, qh, tot).groups[ww - 1] == g && |g.alts| == 1
      ensures GroupAt(ww - 1) == g && mm[ww - 1] == 1
    {
      assert Groups(ww)[ww - 1] == GroupAt(ww - 1);
    }

    /** What `NoteAlternative` asks of the arrays, from the groups being in order. */
    lemma BookFits(ofProbe: bool, e: int, ww: int, qh: int, tot: int)
      requires Sized() && InUse(ww, qh, tot) && 1 <= e <= nend
      requires GroupsOk(cp[..], rp[..], Groups(ww), nend)
      ensures var b := if ofProbe then cp[e - 1] else rp[e - 1];
        0 <= b <= ww && (b != 0 ==> GroupAt(b - 1).ofProbe == ofProbe && |GroupAt(b - 1).alts| <= nend)
    {
      var book := if ofProbe then cp[..] else rp[..];
      var b := book[e - 1];
      assert 0 <= b <= |Groups(ww)|;
      if b != 0 {
        var g := Groups(ww)[b - 1];
        assert GroupOk(g, nend);
        DistinctWithinIsShort(g.alts, nend);
      }
    }

    /** Paired elsewhere: note the alternatives on both sides, unless there are groups enough. */
    method RecordConflict(kz: int, l: int, ww: int, ghost qh: int, ghost tot: int, ghost t: Table)
      returns (ww': int)
      requires Sized() && Apart() && InUse(ww, qh, tot) && t.nend == nend && ww <= WWIM + 1
      requires IsEndpoint(kz, nend) && IsEndpoint(l, nend)
      requires GroupsOk(cp[..], rp[..], Groups(ww), nend) && Inverse(tq[..], rq[..], nend)
      modifies cp, rp, cf, rf, mm, nn, rx
      ensures InUse(ww', qh, tot)
      ensures State(ww', qh, tot) == Conflict(old(State(ww, qh, tot)), t, kz, l)
    {
      hide Inverse, GroupsOk, Note;
      ghost var w := State(ww, qh, tot);
      PartnersFit(w, nend, kz, l);
      ww' := ww;
      if ww >= WWIM {
        return;
      }
      var n, g := tq[kz - 1], rq[l - 1];
      if n != 0 {
        BookFits(true, kz, ww, qh, tot);
        NoteKeepsGroups(w, true, kz, n, l, nend);
        ww' := NoteAlternative(true, kz, n, l, ww, qh, tot);
      }
      if g != 0 {
        BookFits(false, l, ww', qh, tot);
        ww' := NoteAlternative(false, l, g, kz, ww', qh, tot);
      }
    }

    /** The arrays hold a path in the making, over table `t`. */
    ghost predicate Live(ww: int, qh: int, tot: int, t: Table, ftt: int)
      reads sc, cp, rp, tq, rq, zz, rk, y, qq, rx, mm, nn, cf, rf
    {
      && Sized() && Apart() && t.nend == nend && InUse(ww, qh, tot) && WorkOk(State(ww, qh, tot), t, ftt)
    }

    lemma LiveBounds(ww: int, qh: int, tot: int, t: Table, ftt: int)
      requires Live(ww, qh, tot, t, ftt)
      ensures 0 <= ww <= WWIM + 1 && 1 <= qh <= QQ_SIZE && 0 <= tot <= |t.rows| < y.Length
      ensures GroupsOk(cp[..], rp[..], Groups(ww), nend) && Inverse(tq[..], rq[..], nend)
    {
      var w := State(ww, qh, tot);
      assert Distinct(w.path) && AllWithin(w.path, 1, |t.rows|);
      DistinctWithinIsShort(w.path, |t.rows|);
    }

    /** Links one edge into the path by its far end (kz, l), or records why it cannot. */
    method SiftEdge(ww: int, kz: int, qh: int, l: int, kx: int, ftt: int, tot: int, ghost t: Table)
      returns (overflow: bool, ww': int, qh': int, tot': int)
      requires Live(ww, qh, tot, t, ftt)
      requires IsEndpoint(kz, nend) && IsEndpoint(l, nend) && 1 <= kx <= |t.rows|
      modifies y, rk, sc, qq, zz, tq, rq, cp, rp, cf, rf, mm, nn, rx
      ensures var r := Sift(old(State(ww, qh, tot)), t, kz, l, kx, ftt);
        && overflow == r.Overflow?
        && (!overflow ==> Live(ww', qh', tot', t, ftt) && State(ww', qh', tot') == r.value)
    {
      LiveBounds(ww, qh, tot, t, ftt);
      SiftKeeps(State(ww, qh, tot), t, kz, l, kx, ftt);
      hide WorkOk, GroupsOk, Inverse, Accept, Reaccept, Conflict, Grown;
      var n, g := tq[kz - 1], rq[l - 1];
      overflow, ww', qh', tot' := false, ww, qh, tot;
      if n == 0 && g == 0 {
        overflow, qh', tot' := AcceptEdge(kz, qh, l, kx, ftt, tot, ww);
      } else if n == l {
        overflow, qh', tot' := ReacceptEdge(kz, qh, kx, ftt, tot, ww);
      } else {
        ww' := RecordConflict(kz, l, ww, qh, tot, t);
      }
    }

    // --- Growing a path -------------------------------------------------------------------------

    /** The table as the search reads it: its rows and the all-zero sentinel behind them. */
    ghost predicate Reads(colp: seq<ColpRow>, t: Table) {
      colp == t.rows + [SENTINEL] && Ordered(t.rows) && TableOk(t) && t.nend == nend
    }

    /** Sifts table row `i` by its far end. */
    method SiftOneRow(colp: seq<ColpRow>, i: nat, forward: bool, ww: int, qh: int, ftt: int, tot: int, ghost t: Table)
      returns (overflow: bool, ww': int, qh': int, tot': int)
      requires Reads(colp, t) && Live(ww, qh, tot, t, ftt) && i < |t.rows|
      modifies y, rk, sc, qq, zz, tq, rq, cp, rp, cf, rf, mm, nn, rx
      ensures var r := SiftRow(old(State(ww, qh, tot)), t, i, forward, ftt);
        && overflow == r.Overflow?
        && (!overflow ==> Live(ww', qh', tot', t, ftt) && State(ww', qh', tot') == r.value)
    {
      assert RowOk(t.rows[i], nend);
      var row := colp[i];
      var kz, l := if forward then row.pj else row.pk, if forward then row.gb else row.ga;
      hide WorkOk, Sift;
      overflow, ww', qh', tot' := SiftEdge(ww, kz, qh, l, i + 1, ftt, tot, t);
    }

    /** The arrays hold what sifting the rows `idx` in order makes of `w0`. */
    ghost predicate Sifted(w0: Work, idx: seq<nat>, forward: bool, ww: int, qh: int, tot: int, t: Table, ftt: int)
      reads sc, cp, rp, tq, rq, zz, rk, y, qq, rx, mm, nn, cf, rf
    {
      && Live(ww, qh, tot, t, ftt) && WorkOk(w0, t, ftt) && Indices(idx, |t.rows|)
      && SiftAll(w0, t, idx, forward, ftt) == Ok(State(ww, qh, tot))
    }

    /** How sifting the rows `idx` ends: with the queue full, or with the arrays holding the outcome. */
    ghost predicate SiftEnds(w0: Work, idx: seq<nat>, forward: bool, overflow: bool, ww: int, qh: int, tot: int,
            t: Table, ftt: int)
      reads sc, cp, rp, tq, rq, zz, rk, y, qq, rx, mm, nn, cf, rf
    {
      && WorkOk(w0, t, ftt) && Indices(idx, |t.rows|)
      && if overflow then SiftAll(w0, t, idx, forward, ftt).Overflow?
         else Sifted(w0, idx, forward, ww, qh, tot, t, ftt)
    }

    /** Sifts one row more. */
    method SiftNext(colp: seq<ColpRow>, i: nat, forward: bool, ww: int, qh: int, ftt: int, tot: int, ghost t: Table,
            ghost w0: Work, ghost idx: seq<nat>)
      returns (overflow: bool, ww': int, qh': int, tot': int)
      requires Reads(colp, t) && i < |t.rows| && Sifted(w0, idx, forward, ww, qh, tot, t, ftt)
      modifies y, rk, sc, qq, zz, tq, rq, cp, rp, cf, rf, mm, nn, rx
      ensures SiftEnds(w0, idx + [i], forward, overflow, ww', qh', tot', t, ftt)
    {
      SiftSnoc(w0, t, idx, i, forward, ftt);
      hide WorkOk, Live, State, Reads, SiftAll, SiftRow;
      overflow, ww', qh', tot' := SiftOneRow(colp, i, forward, ww, qh, ftt, tot, t);
    }

    /** An overflow part of the way through a list of rows is an overflow of the whole. */
    lemma OverflowEnds(w0: Work, done: seq<nat>, idx: seq<nat>, forward: bool, ww: int, qh: int, tot: int, t: Table,
            ftt: int)
      requires SiftEnds(w0, done, forward, true, ww, qh, tot, t, ftt)
      requires done <= idx && Indices(idx, |t.rows|)
      ensures SiftEnds(w0, idx, forward, true, ww, qh, tot, t, ftt)
    {
      assert idx[..|done|] == done;
      hide WorkOk, SiftAll;
      OverflowSticks(w0, t, idx, |done|, forward, ftt);
    }

    /** Sifts the run of rows from `first` on that start as row `first` does. */
    method SiftRun(colp: seq<ColpRow>, first: nat, ww: int, qh: int, ftt: int, tot: int, ghost t: Table, ghost w0: Work)
      returns (overflow: bool, ww': int, qh': int, tot': int, kx: nat)
      requires Reads(colp, t) && first < |t.rows| && Sifted(w0, [], true, ww, qh, tot, t, ftt)
      modifies y, rk, sc, qq, zz, tq, rq, cp, rp, cf, rf, mm, nn, rx
      ensures SiftEnds(w0, RowRange(first, SeedEnd(t.rows, first, first + 1)), true, overflow, ww', qh', tot', t, ftt)
      ensures !overflow ==> kx == SeedEnd(t.rows, first, first + 1)
    {
      hide SiftEnds, Sifted, Reads, SeedEnd;
      ghost var end := SeedEnd(t.rows, first, first + 1);
      ww', qh', tot', kx, overflow := ww, qh, tot, first, false;
      assert RowRange(first, first) == [];
      while true
        invariant first <= kx < end && Sifted(w0, RowRange(first, kx), true, ww', qh', tot', t, ftt)
        decreases end - kx
      {
        overflow, ww', qh', tot' := SiftNext(colp, kx, true, ww', qh', ftt, tot', t, w0, RowRange(first, kx));
        assert RowRange(first, kx + 1) == RowRange(first, kx) + [kx];
        kx := kx + 1;
        if overflow {
          RangePrefix(first, kx, end);
          OverflowEnds(w0, RowRange(first, kx), RowRange(first, end), true, ww', qh', tot', t, ftt);
          return;
        }
        SiftedEnds(w0, RowRange(first, kx), true, ww', qh', tot', t, ftt);
        RunGoesOn(colp, t, first, kx);
        if !(colp[kx].ga == colp[first].ga && colp[kx].pk == colp[first].pk) {
          break;
        }
      }
    }

    lemma SiftedEnds(w0: Work, idx: seq<nat>, forward: bool, ww: int, qh: int, tot: int, t: Table, ftt: int)
      ensures SiftEnds(w0, idx, forward, false, ww, qh, tot, t, ftt) <==> Sifted(w0, idx, forward, ww, qh, tot, t, ftt)
    {
    }

    /** The look-ahead at `kx` sees the run go on exactly when it has not reached its end. */
    lemma RunGoesOn(colp: seq<ColpRow>, t: Table, first: nat, kx: nat)
      requires Reads(colp, t) && first < |t.rows| && first < kx <= SeedEnd(t.rows, first, first + 1)
      ensures kx < |colp|
      ensures colp[kx].ga == colp[first].ga && colp[kx].pk == colp[first].pk
        <==> kx < SeedEnd(t.rows, first, first + 1)
    {
      assert RowOk(t.rows[first], nend);
    }

    /** However far sifting has come, the `j`-th queued endpoint and its partner are what they were. */
    lemma PartnerStays(w0: Work, idx: seq<nat>, forward: bool, j: nat, p: int, g: int, ww: int, qh: int, tot: int,
            t: Table, ftt: int)
      requires Sifted(w0, idx, forward, ww, qh, tot, t, ftt) && Queued(w0, j, p, g)
      ensures j < qh <= QQ_SIZE && j < qq.Length && qq[j] == p && 1 <= p <= tq.Length && tq[p - 1] == g
    {
      ghost var w := State(ww, qh, tot);
      QueuedIsPaired(w0, t, ftt, j, p, g);
      SiftAllGrows(w0, t, idx, forward, ftt);
      QueuedStays(w0, w, j, p, g);
      QueuedIsPaired(w, t, ftt, j, p, g);
      hide WorkOk, SiftAll, Grown;
    }

    /** Sifts row `i` if it ends at the pair of `qq[j]`, away from both seed endpoints. */
    method SiftIfEnding(colp: seq<ColpRow>, i: nat, k: nat, j: nat, ww: int, qh: int, ftt: int, tot: int,
            ghost p: int, ghost g: int, ghost t: Table, ghost w0: Work, ghost idx: seq<nat>, ghost idx': seq<nat>)
      returns (overflow: bool, ww': int, qh': int, tot': int)
      requires Reads(colp, t) && i < |t.rows| && k < |t.rows|
      requires Sifted(w0, idx, false, ww, qh, tot, t, ftt) && Queued(w0, j, p, g)
      requires idx' == if EndsAt(t.rows[i], p, g, t.rows[k]) then idx + [i] else idx
      modifies y, rk, sc, qq, zz, tq, rq, cp, rp, cf, rf, mm, nn, rx
      ensures SiftEnds(w0, idx', false, overflow, ww', qh', tot', t, ftt)
    {
      var ends := EndsAtQueued(colp, i, k, j, ww, qh, ftt, tot, p, g, t, w0, idx);
      overflow, ww', qh', tot' := false, ww, qh, tot;
      hide SiftEnds, Sifted, Reads, Queued, EndsAt;
      if ends {
        assert idx' == idx + [i];
        overflow, ww', qh', tot' := SiftNext(colp, i, false, ww, qh, ftt, tot, t, w0, idx);
      } else {
        SiftedEnds(w0, idx, false, ww, qh, tot, t, ftt);
      }
    }

    /** Whether row `i` ends at the pair of `qq[j]`, away from both seed endpoints. */
    method EndsAtQueued(colp: seq<ColpRow>, i: nat, k: nat, j: nat, ghost ww: int, ghost qh: int, ghost ftt: int,
            ghost tot: int, ghost p: int, ghost g: int, ghost t: Table, ghost w0: Work, ghost idx: seq<nat>)
      returns (ends: bool)
      requires Reads(colp, t) && i < |t.rows| && k < |t.rows|
      requires Sifted(w0, idx, false, ww, qh, tot, t, ftt) && Queued(w0, j, p, g)
      ensures ends == EndsAt(t.rows[i], p, g, t.rows[k])
    {
      PartnerStays(w0, idx, false, j, p, g, ww, qh, tot, t, ftt);
      assert |colp| == |t.rows| + 1 && colp[i] == t.rows[i] && colp[k] == t.rows[k];
      hide Sifted, Reads, Queued;
      var p1 := qq[j];
      ends := colp[i].pj == p1 && colp[i].gb == tq[p1 - 1] && colp[i].pk != colp[k].pk && colp[i].ga != colp[k].ga;
    }

    /** The linear scan: every row after the seed's run that ends at the pair of `qq[j]`. */
    method SiftEnding(colp: seq<ColpRow>, np: nat, k: nat, kq: nat, j: nat, ww: int, qh: int, ftt: int, tot: int,
            ghost p: int, ghost g: int, ghost t: Table, ghost w0: Work)
      returns (overflow: bool, ww': int, qh': int, tot': int)
      requires Reads(colp, t) && np == |t.rows| && k < np && kq <= np
      requires Sifted(w0, [], false, ww, qh, tot, t, ftt) && Queued(w0, j, p, g)
      modifies y, rk, sc, qq, zz, tq, rq, cp, rp, cf, rf, mm, nn, rx
      ensures SiftEnds(w0, RowsEndingAt(t.rows, kq, np, p, g, t.rows[k]), false, overflow, ww', qh', tot', t, ftt)
    {
      hide *;
      ghost var rows, seed, idx: seq<nat> := t.rows, t.rows[k], [];
      ww', qh', tot', overflow := ww, qh, tot, false;
      EndingNone(rows, kq, p, g, seed);
      for i := kq to np
        invariant idx == RowsEndingAt(rows, kq, i, p, g, seed)
        invariant Sifted(w0, idx, false, ww', qh', tot', t, ftt)
      {
        EndingStep(rows, kq, i, np, p, g, seed);
        ghost var idx' := RowsEndingAt(rows, kq, i + 1, p, g, seed);
        overflow, ww', qh', tot' := SiftIfEnding(colp, i, k, j, ww', qh', ftt, tot', p, g, t, w0, idx, idx');
        idx := idx';
        if overflow {
          OverflowEnds(w0, idx, RowsEndingAt(rows, kq, np, p, g, seed), false, ww', qh', tot', t, ftt);
          return;
        }
        SiftedEnds(w0, idx, false, ww', qh', tot', t, ftt);
      }
      SiftedEnds(w0, idx, false, ww', qh', tot', t, ftt);
    }

    /** The keyed look-up: every row after the seed's run that starts at the pair of `qq[j]`. */
    method SiftStarting(colp: seq<ColpRow>, np: nat, kq: nat, j: nat, ww: int, qh: int, ftt: int, tot: int,
            ghost p: int, ghost g: int, ghost t: Table, ghost w0: Work)
      returns (overflow: bool, ww': int, qh': int, tot': int)
      requires Reads(colp, t) && np == |t.rows| && AfterRun(t.rows, kq)
      requires Sifted(w0, [], true, ww, qh, tot, t, ftt) && Queued(w0, j, p, g)
      modifies y, rk, sc, qq, zz, tq, rq, cp, rp, cf, rf, mm, nn, rx
      ensures SiftEnds(w0, RowsStartingAt(t.rows, kq, np, p, g), true, overflow, ww', qh', tot', t, ftt)
    {
      PartnerStays(w0, [], true, j, p, g, ww, qh, tot, t, ftt);
      assert |colp| == np + 1 && colp[..np] == t.rows;
      SiftedEnds(w0, [], true, ww, qh, tot, t, ftt);
      overflow, ww', qh', tot' := false, ww, qh, tot;
      var found, head := FindStart(colp, np, kq, qq[j], tq[qq[j] - 1]);
      hide SiftEnds, Sifted, Reads, Queued;
      if found {
        RunFromHead(t.rows, kq, p, g, head);
        var kx;
        overflow, ww', qh', tot', kx := SiftRun(colp, head, ww, qh, ftt, tot, t, w0);
      } else {
        NoStartingRows(t.rows, kq, np, p, g);
      }
    }

    /** How growing the path ends: with the queue full, or with the arrays holding the outcome. */
    ghost predicate GrowEnds(r: Outcome<Work>, overflow: bool, ww: int, qh: int, tot: int, t: Table, ftt: int)
      reads sc, cp, rp, tq, rq, zz, rk, y, qq, rx, mm, nn, cf, rf
    {
      if overflow then r.Overflow? else Live(ww, qh, tot, t, ftt) && r == Ok(State(ww, qh, tot))
    }

    lemma EndingDone(w0: Work, idx: seq<nat>, j: nat, p: int, g: int, ww: int, qh: int, tot: int, t: Table, ftt: int)
      requires SiftEnds(w0, idx, false, false, ww, qh, tot, t, ftt) && Queued(w0, j, p, g)
      ensures Live(ww, qh, tot, t, ftt) && SiftAll(w0, t, idx, false, ftt) == Ok(State(ww, qh, tot))
      ensures Queued(State(ww, qh, tot), j, p, g) && Sifted(State(ww, qh, tot), [], true, ww, qh, tot, t, ftt)
    {
      PartnerStays(w0, idx, false, j, p, g, ww, qh, tot, t, ftt);
    }

    lemma SiftsAreGrown(w1: Work, idx: seq<nat>, overflow: bool, ww: int, qh: int, tot: int, t: Table, ftt: int)
      requires SiftEnds(w1, idx, true, overflow, ww, qh, tot, t, ftt)
      ensures WorkOk(w1, t, ftt) && Indices(idx, |t.rows|)
      ensures GrowEnds(SiftAll(w1, t, idx, true, ftt), overflow, ww, qh, tot, t, ftt)
    {
    }

    /** Expands the `j`-th queued endpoint. */
    method ExpandEndpoint(colp: seq<ColpRow>, np: nat, k: nat, kq: nat, j: nat, ww: int, qh: int, ftt: int, tot: int,
            ghost p: int, ghost g: int, ghost t: Table, ghost w0: Work)
      returns (overflow: bool, ww': int, qh': int, tot': int)
      requires Reads(colp, t) && np == |t.rows| && k < np && AfterRun(t.rows, kq)
      requires Sifted(w0, [], false, ww, qh, tot, t, ftt) && Queued(w0, j, p, g)
      modifies y, rk, sc, qq, zz, tq, rq, cp, rp, cf, rf, mm, nn, rx
      ensures WorkOk(w0, t, ftt) && j < |w0.q|
      ensures GrowEnds(Expand(w0, t, k, kq, j, ftt), overflow, ww', qh', tot', t, ftt)
    {
      assert WorkOk(w0, t, ftt) && 1 <= j < |w0.q|;
      ExpandInSteps(w0, t, k, kq, j, ftt, p, g);
      ghost var ending := RowsEndingAt(t.rows, kq, np, p, g, t.rows[k]);
      overflow, ww', qh', tot' := SiftEnding(colp, np, k, kq, j, ww, qh, ftt, tot, p, g, t, w0);
      hide Sifted, Live, State, WorkOk, Expand, SiftAll, RowsEndingAt, RowsStartingAt, Queued, Reads, AfterRun;
      if !overflow {
        hide SiftEnds;
        EndingDone(w0, ending, j, p, g, ww', qh', tot', t, ftt);
        ghost var w1 := State(ww', qh', tot');
        overflow, ww', qh', tot' := SiftStarting(colp, np, kq, j, ww', qh', ftt, tot', p, g, t, w1);
        SiftsAreGrown(w1, RowsStartingAt(t.rows, kq, np, p, g), overflow, ww', qh', tot', t, ftt);
      }
    }

    /** The pair of the `j`-th queued endpoint. */
    lemma QueuedPair(j: nat, ww: int, qh: int, tot: int, t: Table, ftt: int) returns (p: int, g: int)
      requires Live(ww, qh, tot, t, ftt) && 1 <= j < qh
      ensures Queued(State(ww, qh, tot), j, p, g) && Sifted(State(ww, qh, tot), [], false, ww, qh, tot, t, ftt)
    {
      var w := State(ww, qh, tot);
      p := w.q[j];
      g := w.tq[p - 1];
    }

    lemma Explored(w0: Work, k: nat, kq: nat, j: nat, ww: int, qh: int, tot: int, t: Table, ftt: int)
      requires WorkOk(w0, t, ftt) && k < |t.rows| && 1 <= j
      requires Live(ww, qh, tot, t, ftt)
      requires Explore(w0, t, k, kq, 1, ftt) == Explore(State(ww, qh, tot), t, k, kq, j, ftt)
      ensures j >= qh ==> GrowEnds(Explore(w0, t, k, kq, 1, ftt), false, ww, qh, tot, t, ftt)
      ensures j < qh ==>
        (Explore(w0, t, k, kq, 1, ftt) ==
         match Expand(State(ww, qh, tot), t, k, kq, j, ftt)
         case Overflow => Overflow
         case Ok(w1) => Explore(w1, t, k, kq, j + 1, ftt))
    {
    }

    /** Where the exploration of the queue has got to. */
    ghost predicate Exploring(w0: Work, k: nat, kq: nat, j: int, ww: int, qh: int, tot: int, t: Table, ftt: int)
      reads sc, cp, rp, tq, rq, zz, rk, y, qq, rx, mm, nn, cf, rf
    {
      && WorkOk(w0, t, ftt) && k < |t.rows| && 1 <= j && Live(ww, qh, tot, t, ftt)
      && Explore(w0, t, k, kq, 1, ftt) == Explore(State(ww, qh, tot), t, k, kq, j, ftt)
    }

    /** One more queued endpoint. */
    method ExploreNext(colp: seq<ColpRow>, np: nat, k: nat, kq: nat, j: nat, ww: int, qh: int, ftt: int, tot: int,
            ghost t: Table, ghost w0: Work)
      returns (overflow: bool, ww': int, qh': int, tot': int)
      requires Reads(colp, t) && np == |t.rows| && AfterRun(t.rows, kq)
      requires Exploring(w0, k, kq, j, ww, qh, tot, t, ftt) && j < qh
      modifies y, rk, sc, qq, zz, tq, rq, cp, rp, cf, rf, mm, nn, rx
      ensures WorkOk(w0, t, ftt) && k < |t.rows|
      ensures overflow ==> Explore(w0, t, k, kq, 1, ftt).Overflow?
      ensures !overflow ==> Exploring(w0, k, kq, j + 1, ww', qh', tot', t, ftt)
    {
      assert WorkOk(w0, t, ftt);
      Explored(w0, k, kq, j, ww, qh, tot, t, ftt);
      ghost var p, g := QueuedPair(j, ww, qh, tot, t, ftt);
      hide Sifted, Live, State, WorkOk, Expand, Explore, Queued, Reads, AfterRun;
      overflow, ww', qh', tot' := ExpandEndpoint(colp, np, k, kq, j, ww, qh, ftt, tot, p, g, t, State(ww, qh, tot));
    }

    lemma ExploringBounds(w0: Work, k: nat, kq: nat, j: int, ww: int, qh: int, tot: int, t: Table, ftt: int)
      requires Exploring(w0, k, kq, j, ww, qh, tot, t, ftt)
      ensures 1 <= j && qh <= QQ_SIZE
      ensures j >= qh ==> GrowEnds(Explore(w0, t, k, kq, 1, ftt), false, ww, qh, tot, t, ftt)
    {
      Explored(w0, k, kq, j, ww, qh, tot, t, ftt);
    }

    /** Expands the queue until nothing new is queued. The queue never outgrows its bound. */
    method ExploreQueue(colp: seq<ColpRow>, np: nat, k: nat, kq: nat, ww: int, qh: int, ftt: int, tot: int,
            ghost t: Table, ghost w0: Work)
      returns (overflow: bool, ww': int, qh': int, tot': int)
      requires Reads(colp, t) && np == |t.rows| && AfterRun(t.rows, kq)
      requires Exploring(w0, k, kq, 1, ww, qh, tot, t, ftt)
      modifies y, rk, sc, qq, zz, tq, rq, cp, rp, cf, rf, mm, nn, rx
      ensures WorkOk(w0, t, ftt) && k < |t.rows|
      ensures GrowEnds(Explore(w0, t, k, kq, 1, ftt), overflow, ww', qh', tot', t, ftt)
    {
      assert WorkOk(w0, t, ftt) && k < |t.rows|;
      overflow, ww', qh', tot' := false, ww, qh, tot;
      var j := 1;
      ExploringBounds(w0, k, kq, j, ww, qh, tot, t, ftt);
      hide Exploring, Explore, WorkOk, Live, Reads, AfterRun;
      while j < qh'
        invariant 1 <= j && Exploring(w0, k, kq, j, ww', qh', tot', t, ftt)
        invariant qh' <= QQ_SIZE
        invariant j >= qh' ==> GrowEnds(Explore(w0, t, k, kq, 1, ftt), false, ww', qh', tot', t, ftt)
        decreases QQ_SIZE - j
      {
        overflow, ww', qh', tot' := ExploreNext(colp, np, k, kq, j, ww', qh', ftt, tot', t, w0);
        j := j + 1;
        if overflow {
          return;
        }
        ExploringBounds(w0, k, kq, j, ww', qh', tot', t, ftt);
      }
    }

    /** A path about to be grown from row `k`: only the seed is queued and no edge is taken. */
    ghost predicate Starting(k: nat, ww: int, t: Table, ftt: int)
      reads sc, cp, rp, tq, rq, zz, rk, y, qq, rx, mm, nn, cf, rf
    {
      Live(ww, 1, 0, t, ftt) && k < |t.rows| && qq[0] == t.rows[k].pk
    }

    lemma StartingIsFresh(k: nat, ww: int, t: Table, ftt: int)
      requires Starting(k, ww, t, ftt)
      ensures Live(ww, 1, 0, t, ftt) && Fresh(State(ww, 1, 0), t.rows[k]) == State(ww, 1, 0)
      ensures Sifted(State(ww, 1, 0), [], true, ww, 1, 0, t, ftt)
    {
    }

    lemma SeedRunDone(w0: Work, k: nat, overflow: bool, ww: int, qh: int, tot: int, t: Table, ftt: int)
      requires k < |t.rows| && Fresh(w0, t.rows[k]) == w0
      requires SiftEnds(w0, RowRange(k, SeedEnd(t.rows, k, k + 1)), true, overflow, ww, qh, tot, t, ftt)
      ensures WorkOk(w0, t, ftt) && AfterRun(t.rows, SeedEnd(t.rows, k, k + 1))
      ensures overflow ==> Grow(w0, t, k, ftt).Overflow?
      ensures !overflow ==> Sized() && InUse(ww, qh, tot)
      ensures !overflow ==> Exploring(State(ww, qh, tot), k, SeedEnd(t.rows, k, k + 1), 1, ww, qh, tot, t, ftt)
      ensures !overflow ==> WorkOk(State(ww, qh, tot), t, ftt)
      ensures !overflow ==> Grow(w0, t, k, ftt) == Explore(State(ww, qh, tot), t, k, SeedEnd(t.rows, k, k + 1), 1, ftt)
    {
      assert WorkOk(w0, t, ftt);
      GrowInSteps(w0, t, k, ftt);
      hide Grow, SiftAll, Explore, WorkOk, SeedEnd, RowRange, Fresh, State;
    }

    /** The whole path of seed row `k`. */
    method GrowPath(colp: seq<ColpRow>, np: nat, k: nat, ww: int, ftt: int, ghost t: Table, ghost w0: Work)
      returns (overflow: bool, ww': int, qh': int, tot': int)
      requires Reads(colp, t) && np == |t.rows| && Starting(k, ww, t, ftt) && w0 == State(ww, 1, 0)
      modifies y, rk, sc, qq, zz, tq, rq, cp, rp, cf, rf, mm, nn, rx
      ensures WorkOk(w0, t, ftt) && Fresh(w0, t.rows[k]) == w0
      ensures GrowEnds(Grow(w0, t, k, ftt), overflow, ww', qh', tot', t, ftt)
    {
      StartingIsFresh(k, ww, t, ftt);
      var kq;
      assert TableOk(t) && Ordered(t.rows);
      overflow, ww', qh', tot', kq := SiftRun(colp, k, ww, 1, ftt, 0, t, w0);
      SeedRunDone(w0, k, overflow, ww', qh', tot', t, ftt);
      hide Exploring, Explore, WorkOk, Live, Reads, AfterRun, SiftEnds, Grow, SeedEnd, State, Fresh, Sifted;
      if !overflow {
        ghost var w1 := State(ww', qh', tot');
        overflow, ww', qh', tot' := ExploreQueue(colp, np, k, kq, ww', qh', ftt, tot', t, w1);
      }
    }

    // --- Settling a path ------------------------------------------------------------------------

    /** `angles` are the rotations of the edges `path`, as the table has them. */
    static ghost predicate Angles(colp: seq<ColpRow>, path: seq<int>, angles: seq<int>) {
      |angles| == |path| && forall i :: 0 <= i < |path| ==> 1 <= path[i] <= |colp| && colp[path[i] - 1].rot == angles[i]
    }

    /** The sums and counts of the path's negative and other rotations. */
    method SumRotations(colp: seq<ColpRow>, tot: nat, ghost angles: seq<int>) returns (s: Split)
      requires tot <= y.Length && Angles(colp, y[..tot], angles)
      ensures s == SplitSum(angles)
    {
      ghost var path := y[..tot];
      var jj, kk, n: nat, l: nat := 0, 0, 0, 0;
      for i := 0 to tot
        invariant Split(kk, jj, n, l) == SplitSum(angles[..i])
      {
        SplitSnoc(angles, i);
        assert y[i] == path[i];
        var v := colp[y[i] - 1].rot;
        if v < 0 {
          kk, n := kk + v, n + 1;
        } else {
          jj, l := jj + v, l + 1;
        }
      }
      assert angles[..tot] == angles;
      s := Split(kk, jj, n, l);
    }

    /** Drops the edges out of band with the mean, moving the others down in place. */
    method PruneEdges(colp: seq<ColpRow>, tot: nat, mean: int, ghost angles: seq<int>) returns (tot': nat)
      requires tot <= y.Length && Angles(colp, y[..tot], angles)
      modifies y
      ensures tot' <= tot && y[..tot'] == Kept(old(y[..tot]), angles, mean)
    {
      hide Kept, OutOfBand;
      ghost var path := y[..tot];
      NothingKept(mean);
      var kk := 0;
      for i := 0 to tot
        invariant 0 <= kk <= i && y[..i - kk] == Kept(path[..i], angles[..i], mean)
        invariant y[i..tot] == path[i..]
      {
        kk := PruneEdge(colp, i, kk, tot, mean, path, angles);
      }
      assert path[..tot] == path && angles[..tot] == angles;
      tot' := tot - kk;
    }

    /** Keeps edge `i` by moving it down over the `kk` edges dropped so far, or drops it too. */
    method PruneEdge(colp: seq<ColpRow>, i: nat, kk: nat, tot: nat, mean: int, ghost path: seq<int>,
            ghost angles: seq<int>)
      returns (kk': nat)
      requires kk <= i < tot == |path| <= y.Length && Angles(colp, path, angles)
      requires y[..i - kk] == Kept(path[..i], angles[..i], mean) && y[i..tot] == path[i..]
      modifies y
      ensures kk' <= i + 1 && y[..i + 1 - kk'] == Kept(path[..i + 1], angles[..i + 1], mean)
      ensures y[i + 1..tot] == path[i + 1..]
    {
      hide Kept, OutOfBand;
      KeptSnoc(path, angles, mean, i);
      assert y[i] == y[i..tot][0] == path[i];
      assert path[i + 1..] == path[i..][1..];
      kk' := kk;
      var diff := colp[y[i] - 1].rot - mean;
      if OutOfBand(diff) {
        kk' := kk + 1;
      } else {
        y[i - kk] := y[i];
      }
    }

    /** Puts the stamps of the path's edges back. */
    method RollBack(tot: nat)
      requires Sized() && Apart() && tot <= y.Length && AllWithin(y[..tot], 1, sc.Length)
      modifies sc
      ensures sc[..] == RolledBack(old(sc[..]), rk[..], y[..tot])
    {
      ghost var path := y[..tot];
      var i := tot;
      while i > 0
        invariant 0 <= i <= tot
        invariant forall p :: 0 <= p < sc.Length ==>
          sc[p] == if p + 1 in path[i..] then (if rk[p] == 0 then -1 else rk[p]) else old(sc[p])
      {
        i := i - 1;
        assert path[i..] == [path[i]] + path[i + 1..];
        var idx := y[i] - 1;
        sc[idx] := if rk[idx] == 0 then -1 else rk[idx];
      }
      assert path[0..] == path;
    }

    // --- Forming a cluster ----------------------------------------------------------------------

    /** Whether two ascending lists share an element, by walking both. */
    static method SortedSetsIntersect(a: seq<int>, b: seq<int>) returns (found: bool)
      requires Ascending(a) && Ascending(b)
      ensures found == Meets(a, b)
    {
      var i, j := 0, 0;
      while i < |a| && j < |b|
        invariant i <= |a| && j <= |b|
        invariant forall x :: 0 <= x < i ==> a[x] !in b
        invariant forall x, z :: i <= x < |a| && 0 <= z < j ==> a[x] != b[z]
      {
        if a[i] < b[j] {
          assert forall z :: 0 <= z < |b| ==> a[i] != b[z];
          i := i + 1;
        } else if a[i] > b[j] {
          j := j + 1;
        } else {
          return true;
        }
      }
      return false;
    }

    lemma EdgeOfPath(colp: seq<ColpRow>, path: seq<int>, t: Table, i: nat)
      requires Reads(colp, t) && AllWithin(path, 1, |t.rows|) && i < |path|
      ensures 1 <= path[i] <= |t.rows| && path[i] <= |colp| && colp[path[i] - 1] == t.rows[path[i] - 1]
    {
    }

    /** One pass over the path's edges: rotations, coordinate sums and sorted endpoint sets. */
    method GatherPath(colp: seq<ColpRow>, tot: nat, pr: Prints, ghost t: Table) returns (g: Gathered)
      requires Reads(colp, t) && PrintsFit(t, pr) && tot <= y.Length && AllWithin(y[..tot], 1, |t.rows|)
      ensures g == Gather(y[..tot], t, pr)
    {
      hide Gather, GatherEdge, Reads, PrintsFit, AllWithin;
      ghost var path := y[..tot];
      g := Gathered(Split(0, 0, 0, 0), 0, 0, 0, 0, [], []);
      GatherNothing(path, t, pr);
      for i := 0 to tot
        invariant AllWithin(path[..i], 1, |t.rows|) && g == Gather(path[..i], t, pr)
      {
        GatherSnoc(path, t, pr, i);
        assert y[i] == path[i];
        EdgeOfPath(colp, path, t, i);
        NearEndsFit(t, pr, path[i]);
        g := GatherEdge(g, colp[y[i] - 1], pr);
      }
      assert path[..tot] == path;
    }

    ghost function Tab(): (r: Tables)
      reads this
    {
      Tables(avv, ct, gct, ctt, ctp, yy)
    }

    /** The tables describe the clusters, and `score` is the heaviest chain. */
    ghost predicate Tabulated(angle: (int, int) -> int, done: nat, score: int)
      reads this
    {
      Describes(Tab(), clusters, angle, done) && IsBest(gct, score)
    }

    /** Enters a new cluster into the tables, its chain just itself. */
    method PushCluster(tp: nat, c: Cluster, angle: (int, int) -> int, score: int) returns (score': int)
      requires Tabulated(angle, |clusters|, score) && tp == |clusters| && 0 < |c.edges|
      requires Ascending(c.probeEnds) && Ascending(c.galleryEnds)
      modifies this
      ensures clusters == old(clusters) + [c] && Tabulated(angle, 0, score')
    {
      var tot := |c.edges|;
      PushDescribes(Tab(), clusters, c, angle);
      AppendKeepsBest(gct, score, tot);
      ghost var tab, cs := Push(Tab(), c), clusters + [c];
      assert |ctp| == tp;
      hide Describes, IsBest;
      avv := avv + [c.avg];
      ct := ct + [tot];
      gct := gct + [tot];
      score' := if tot > score then tot else score;
      ctt := ctt + [0];
      ctp := ctp + [[tp]];
      yy := yy + [(c.probeEnds, c.galleryEnds)];
      clusters := clusters + [c];
      assert Tab() == tab && clusters == cs;
    }

    /** The gates and the endpoint-disjointness test between clusters `ii` and `tp`. */
    method Passes(ii: nat, tp: nat, angle: (int, int) -> int) returns (passes: bool)
      requires ii < tp < |clusters| == |avv| == |yy| == |ctt| == |ctp|
      requires FactsAt(Tab(), clusters, ii) && FactsAt(Tab(), clusters, tp)
      ensures passes == Compatible(clusters[ii], clusters[tp], angle)
    {
      if !GatesPass(avv[ii], avv[tp], angle) {
        return false;
      }
      hide GatesPass;
      var found := SortedSetsIntersect(yy[ii].0, yy[tp].0);
      if !found {
        found := SortedSetsIntersect(yy[ii].1, yy[tp].1);
      }
      passes := !found;
    }

    /** Cross-checks the last cluster against cluster `ii`, and merges the totals if they are compatible. */
    method MergeInto(ii: nat, tp: nat, angle: (int, int) -> int, score: int) returns (score': int)
      requires Tabulated(angle, ii, score) && ii < tp == |clusters| - 1 && 0 < |clusters[tp].edges|
      modifies this
      ensures clusters == old(clusters) && Tabulated(angle, ii + 1, score')
    {
      hide Describes, IsBest, Compatible, FactsAt;
      MergeDescribes(Tab(), clusters, angle, ii);
      FactsOf(angle, ii, score, ii);
      FactsOf(angle, ii, score, tp);
      score' := score;
      var passes := Passes(ii, tp, angle);
      if passes {
        RaiseKeepsBest(gct, score, ii, gct[ii] + ct[tp]);
        score' := MergeTotals(ii, tp, score);
      }
    }

    lemma FactsOf(angle: (int, int) -> int, done: nat, score: int, i: nat)
      requires Tabulated(angle, done, score) && i < |clusters|
      ensures |avv| == |yy| == |ct| == |gct| == |ctt| == |ctp| == |clusters|
      ensures FactsAt(Tab(), clusters, i) && ct[i] == |clusters[i].edges|
    {
    }

    method MergeTotals(ii: nat, tp: nat, score: int) returns (score': int)
      requires ii < tp == |gct| - 1 && |gct| == |ct| == |ctt| == |ctp|
      modifies this
      ensures Tab() == Merge(old(Tab()), ii, old(ct[tp])) && clusters == old(clusters)
      ensures var total := old(gct[ii] + ct[tp]); score' == if total > score then total else score
    {
      gct := gct[ii := gct[ii] + ct[tp]];
      score' := score;
      if gct[ii] > score {
        score' := gct[ii];
      }
      ctt := ctt[ii := ctt[ii] + 1];
      ctp := ctp[ii := ctp[ii] + [tp]];
    }

    /** The path's mean rotation, centroids and endpoint sets. */
    method FormCluster(colp: seq<ColpRow>, tot: nat, pr: Prints, ghost t: Table) returns (c: Cluster)
      requires Reads(colp, t) && PrintsFit(t, pr) && 0 < tot <= y.Length && AllWithin(y[..tot], 1, |t.rows|)
      ensures c == ClusterOf(y[..tot], t, pr) && c.edges == y[..tot]
      ensures Ascending(c.probeEnds) && Ascending(c.galleryEnds)
    {
      var g := GatherPath(colp, tot, pr, t);
      GatheredIsCluster(y[..tot], t, pr);
      hide Gather, ClusterOf, Reads, PrintsFit;
      var avg := Average(FoldMean(RawMean(g.angles)), TruncDiv(g.px, tot), TruncDiv(g.py, tot),
                         TruncDiv(g.gx, tot), TruncDiv(g.gy, tot));
      c := Cluster(y[..tot], avg, g.probeEnds, g.galleryEnds);
    }

    /** Enters cluster `c` and cross-checks it against every earlier one. */
    method BuildCluster(tp: nat, c: Cluster, angle: (int, int) -> int, score: int) returns (score': int)
      requires Tabulated(angle, |clusters|, score) && tp == |clusters| && 0 < |c.edges|
      requires Ascending(c.probeEnds) && Ascending(c.galleryEnds)
      modifies this
      ensures clusters == old(clusters) + [c] && Tabulated(angle, |clusters|, score')
    {
      hide Tabulated;
      score' := PushCluster(tp, c, angle, score);
      for ii := 0 to tp
        invariant clusters == old(clusters) + [c] && Tabulated(angle, ii, score')
      {
        score' := MergeInto(ii, tp, angle, score');
      }
      TabulatedWhole(tp, angle, score');
    }

    lemma TabulatedWhole(tp: nat, angle: (int, int) -> int, score: int)
      requires Tabulated(angle, tp, score) && |clusters| == tp + 1
      ensures Tabulated(angle, |clusters|, score)
    {
      MergedDescribes(Tab(), clusters, angle, tp);
    }

    /** The edges of a long enough path that agree with its mean rotation. */
    method PrunePath(colp: seq<ColpRow>, tot: nat, ghost t: Table) returns (tot': nat)
      requires Reads(colp, t) && tot <= y.Length && AllWithin(y[..tot], 1, |t.rows|)
      modifies y
      ensures tot' <= tot && y[..tot'] == Pruned(old(y[..tot]), t.rows)
    {
      tot' := tot;
      if tot >= MSTR {
        ghost var path := y[..tot];
        ghost var angles := Along(path, t.rows, Rot);
        PathAngles(colp, path, t);
        hide Reads, Kept, Along;
        var s := SumRotations(colp, tot, angles);
        var mean := FoldMean(RawMean(s));
        tot' := PruneEdges(colp, tot, mean, angles);
      }
    }

    lemma PathAngles(colp: seq<ColpRow>, path: seq<int>, t: Table)
      requires Reads(colp, t) && AllWithin(path, 1, |t.rows|)
      ensures Angles(colp, path, Along(path, t.rows, Rot))
    {
    }

    /** The search's state as a value, with the clusters formed so far. */
    ghost function SearchState(ww: int, qh: int, tot: int, ftt: int, applied: seq<int>): (s: Search)
      requires Sized() && InUse(ww, qh, tot)
      reads this, sc, cp, rp, tq, rq, zz, rk, y, qq, rx, mm, nn, cf, rf
    {
      Search(State(ww, qh, tot), ftt, clusters, applied)
    }

    /** Too short: give the stamps and the path number back. */
    method Discard(tot: nat, ftt: int, ghost ww: int, ghost qh: int) returns (ftt': int)
      requires Sized() && Apart() && InUse(ww, qh, 0) && tot <= y.Length && AllWithin(y[..tot], 1, sc.Length)
      modifies sc
      ensures ftt' == ftt - 1
      ensures State(ww, qh, 0) == old(State(ww, qh, 0)).(sc := RolledBack(old(sc[..]), rk[..], y[..tot]))
    {
      ghost var groups := Groups(ww);
      RollBack(tot);
      ftt' := ftt - 1;
      assert Groups(ww) == groups;
    }

    /** Rolls the pruned path back, or makes a cluster of it. */
    method SettleKept(colp: seq<ColpRow>, tp: nat, kept: nat, ftt: int, pr: Prints, score: int, ghost ww: int,
            ghost qh: int, ghost t: Table)
      returns (tp': nat, ftt': int, score': int)
      requires Sized() && Apart() && InUse(ww, qh, 0) && Reads(colp, t) && PrintsFit(t, pr)
      requires kept <= y.Length && AllWithin(y[..kept], 1, |t.rows|) && |t.rows| <= sc.Length
      requires Tabulated(pr.angle, |clusters|, score) && tp == |clusters|
      modifies this, sc
      ensures State(ww, qh, 0) == if kept < MSTR
        then old(State(ww, qh, 0)).(sc := RolledBack(old(sc[..]), rk[..], y[..kept])) else old(State(ww, qh, 0))
      ensures clusters == if kept < MSTR then old(clusters) else old(clusters) + [ClusterOf(y[..kept], t, pr)]
      ensures ftt' == if kept < MSTR then ftt - 1 else ftt
      ensures Tabulated(pr.angle, |clusters|, score') && tp' == |clusters|
    {
      hide Reads, PrintsFit, Tabulated, ClusterOf, AllWithin, GroupShaped, GroupAt;
      tp', ftt', score' := tp, ftt, score;
      ghost var w := State(ww, qh, 0);
      KeptFits(kept, t);
      if kept < MSTR {
        ftt' := Discard(kept, ftt, ww, qh);
      } else {
        tp', score' := AddCluster(colp, tp, kept, pr, score, t);
        assert Groups(ww) == w.groups;
      }
    }

    lemma KeptFits(kept: nat, t: Table)
      requires kept <= y.Length && AllWithin(y[..kept], 1, |t.rows|) && |t.rows| <= sc.Length
      ensures AllWithin(y[..kept], 1, sc.Length)
    {
    }

    method AddCluster(colp: seq<ColpRow>, tp: nat, kept: nat, pr: Prints, score: int, ghost t: Table)
      returns (tp': nat, score': int)
      requires Reads(colp, t) && PrintsFit(t, pr) && 0 < kept <= y.Length && AllWithin(y[..kept], 1, |t.rows|)
      requires Tabulated(pr.angle, |clusters|, score) && tp == |clusters|
      modifies this
      ensures clusters == old(clusters) + [ClusterOf(y[..kept], t, pr)]
      ensures Tabulated(pr.angle, |clusters|, score') && tp' == |clusters|
    {
      var c := FormCluster(colp, kept, pr, t);
      hide Reads, PrintsFit, Tabulated, ClusterOf;
      score' := BuildCluster(tp, c, pr.angle, score);
      tp' := tp + 1;
    }

    /** The state without its path does not see `y`. */
    method PruneOnly(colp: seq<ColpRow>, ww: int, qh: int, tot: int, ftt: int, ghost t: Table) returns (kept: nat)
      requires Reads(colp, t) && Live(ww, qh, tot, t, ftt)
      modifies y
      ensures Sized() && Apart() && InUse(ww, qh, 0) && kept <= y.Length && |t.rows| <= sc.Length
      ensures State(ww, qh, 0) == old(State(ww, qh, tot)).(path := [])
      ensures AllWithin(old(y[..tot]), 1, |t.rows|) && Distinct(old(y[..tot]))
      ensures y[..kept] == Pruned(old(y[..tot]), t.rows) && AllWithin(y[..kept], 1, |t.rows|)
    {
      LiveBounds(ww, qh, tot, t, ftt);
      ghost var path, w := y[..tot], State(ww, qh, tot);
      assert AllWithin(path, 1, |t.rows|) && Distinct(path);
      PrunedKeeps(path, t.rows);
      hide Pruned, WorkOk;
      kept := PrunePath(colp, tot, t);
      assert Groups(ww) == w.groups;
    }

    /** Prunes the grown path and either rolls it back or makes a cluster of it. */
    method SettlePath(colp: seq<ColpRow>, tp: nat, ww: int, qh: int, tot: int, ftt: int, pr: Prints, score: int,
            ghost t: Table, ghost applied: seq<int>)
      returns (tp': nat, ftt': int, score': int)
      requires Reads(colp, t) && PrintsFit(t, pr) && Live(ww, qh, tot, t, ftt)
      requires Tabulated(pr.angle, |clusters|, score) && tp == |clusters|
      modifies this, y, sc
      ensures AllWithin(old(y[..tot]), 1, |t.rows|) && Distinct(old(y[..tot]))
      ensures InUse(ww, qh, 0)
      ensures SearchState(ww, qh, 0, ftt', applied) == Settle(old(SearchState(ww, qh, tot, ftt, applied)), t, pr)
      ensures Tabulated(pr.angle, |clusters|, score') && tp' == |clusters|
    {
      hide Pruned, Live, Reads, PrintsFit, Tabulated, ClusterOf, RolledBack, Distinct, AllWithin;
      LiveBounds(ww, qh, tot, t, ftt);
      var kept := PruneOnly(colp, ww, qh, tot, ftt, t);
      tp', ftt', score' := SettleKept(colp, tp, kept, ftt, pr, score, ww, qh, t);
    }

    // --- Teardown -------------------------------------------------------------------------------

    /** The pairing `tq0`, `rq0` without the pairs of the endpoints `ps`. */
    ghost predicate Unpaired(tq0: seq<int>, rq0: seq<int>, ps: seq<int>)
      reads tq, rq
    {
      tq[..] == UnpairProbes(tq0, ps) && rq[..] == UnpairGallery(rq0, ps)
    }

    /** Breaks the pair of probe endpoint `e`, if it has one. */
    method Unpair(e: int, ghost tq0: seq<int>, ghost rq0: seq<int>, ghost ps: seq<int>) returns (broke: bool)
      requires tq != rq && Inverse(tq0, rq0, nend) && IsEndpoint(e, nend) && Unpaired(tq0, rq0, ps)
      modifies tq, rq
      ensures broke == old(tq[e - 1] != 0) && Unpaired(tq0, rq0, [e] + ps)
    {
      UnpairStep(tq0, rq0, nend, ps, e);
      assert 1 <= e <= tq.Length;
      hide Inverse;
      var n := e - 1;
      broke := false;
      if tq[n] != 0 {
        rq[tq[n] - 1] := 0;
        tq[n] := 0;
        broke := true;
      }
    }

    /** Unpairs everything the path queued, and clears its marks. */
    method UnpairQueued(qh: int, ghost tq0: seq<int>, ghost rq0: seq<int>, ghost zz0: seq<int>, ghost q: seq<int>)
      requires Sized() && Apart() && 1 <= qh <= qq.Length && q == qq[..qh] && AllWithin(q, 1, nend)
      requires tq0 == tq[..] && rq0 == rq[..] && zz0 == zz[..] && Inverse(tq0, rq0, nend)
      requires forall j :: 1 <= j < qh ==> tq0[q[j] - 1] != 0
      modifies tq, rq, zz
      ensures Unpaired(tq0, rq0, q[1..]) && zz[..] == Unmarked(zz0, q[1..])
    {
      var i := qh;
      assert q[qh..] == [];
      UnpairNothing(tq0, rq0);
      assert Unmarked(zz0, []) == zz0;
      hide Inverse;
      while i > 1
        invariant 1 <= i <= qh && Unpaired(tq0, rq0, q[i..]) && zz[..] == Unmarked(zz0, q[i..])
      {
        i := i - 1;
        assert q[i..] == [q[i]] + q[i + 1..] && qq[i] == q[i];
        MarkCleared(zz0, q[i + 1..], q[i], nend);
        WasPaired(tq0, rq0, q[i + 1..], q[i]);
        var broke := Unpair(qq[i], tq0, rq0, q[i + 1..]);
        if broke {
          zz[qq[i] - 1] := 1000;
        }
      }
    }

    /** An endpoint that was paired and no longer is has been unpaired already. */
    lemma WasPaired(tq0: seq<int>, rq0: seq<int>, ps: seq<int>, e: int)
      requires Unpaired(tq0, rq0, ps) && 1 <= e <= |tq0| && tq0[e - 1] != 0
      ensures e <= tq.Length && (tq[e - 1] == 0 ==> e in ps)
    {
      assert tq[e - 1] == tq[..][e - 1];
    }

    /** Unpairs what the odometer had applied. */
    method UnpairApplied(dw: int, ghost tq0: seq<int>, ghost rq0: seq<int>, ghost ps: seq<int>)
      requires Sized() && Apart() && 0 <= dw <= rr.Length && AllWithin(rr[..dw], 1, nend)
      requires Inverse(tq0, rq0, nend) && Unpaired(tq0, rq0, ps)
      modifies tq, rq
      ensures Unpaired(tq0, rq0, rr[..dw] + ps)
    {
      ghost var applied := rr[..dw];
      var i := dw;
      assert applied[dw..] + ps == ps;
      hide Inverse;
      while i > 0
        invariant 0 <= i <= dw && Unpaired(tq0, rq0, applied[i..] + ps)
      {
        i := i - 1;
        assert applied[i..] + ps == [applied[i]] + (applied[i + 1..] + ps) && rr[i] == applied[i];
        var broke := Unpair(rr[i], tq0, rq0, applied[i + 1..] + ps);
      }
      assert applied[0..] == applied;
    }

    /** Tears the pairing of a settled path down. */
    method TearDown(ww: int, qh: int, dw: int, ghost t: Table)
      requires Live(ww, qh, 0, t, 0) && 0 <= dw <= rr.Length && AllWithin(rr[..dw], 1, nend)
      modifies tq, rq, zz
      ensures InUse(ww, 1, 0) && State(ww, 1, 0) == Teardown(old(State(ww, qh, 0)), rr[..dw])
    {
      LiveBounds(ww, qh, 0, t, 0);
      hide Inverse, Distinct, GroupAt;
      ghost var w := State(ww, qh, 0);
      ghost var tq0, rq0, q := w.tq, w.rq, w.q;
      UnpairQueued(qh, tq0, rq0, w.zz, q);
      UnpairApplied(dw, tq0, rq0, q[1..]);
      UnpairSame(tq0, rq0, rr[..dw] + q[1..], q[1..] + rr[..dw]);
      assert Groups(ww) == w.groups;
      assert qq[..1] == q[..1];
    }

    // --- The odometer ---------------------------------------------------------------------------

    /** The arrays hold the pairing `tq0`, `rq0` and the groups `gs`, each with a valid selection. */
    ghost predicate Paired(tq0: seq<int>, rq0: seq<int>, gs: seq<Group>)
      reads tq, rq, rx, mm, nn, cf, rf
    {
      && Sized() && Apart() && |gs| <= 64 && (forall b :: 0 <= b < |gs| ==> GroupShaped(b))
      && tq[..] == tq0 && rq[..] == rq0 && Groups(|gs|) == gs && AllOk(gs, nend)
    }

    lemma PairedFits(tq0: seq<int>, rq0: seq<int>, gs: seq<Group>)
      requires Paired(tq0, rq0, gs)
      ensures Sized() && Apart() && |gs| <= 64 && AllOk(gs, nend) && nend <= |tq0| == tq.Length
      ensures nend <= |rq0| == rq.Length
      ensures tq[..] == tq0 && rq[..] == rq0
    {
    }

    lemma WheelAt(tq0: seq<int>, rq0: seq<int>, gs: seq<Group>, j: nat)
      requires Paired(tq0, rq0, gs) && j < |gs|
      ensures Sized() && GroupShaped(j) && gs[j] == GroupAt(j) && GroupOk(gs[j], nend)
    {
    }

    /** Selects alternative `v` of group `j`. */
    method WriteSelection(j: nat, v: int, ghost tq0: seq<int>, ghost rq0: seq<int>, ghost gs: seq<Group>)
      requires Paired(tq0, rq0, gs) && j < |gs| && 1 <= v <= |gs[j].alts|
      modifies nn
      ensures Paired(tq0, rq0, Pick(gs, j, v))
    {
      WheelAt(tq0, rq0, gs, j);
      PickIsOk(gs, j, v, nend);
      hide AllOk, GroupOk;
      nn[j] := v;
      forall c | 0 <= c < |gs| && c != j ensures GroupShaped(c) && GroupAt(c) == old(GroupAt(c)) {
        GroupKept(c);
      }
      assert GroupShaped(j);
      assert Groups(|gs|) == Pick(gs, j, v);
    }

    /** Pairs probe endpoint `p` with gallery endpoint `g` for group `i`, unless that contradicts the pairing. */
    method JoinPair(p: int, g: int, i: nat) returns (joined: bool)
      requires Sized() && Apart() && 1 <= p <= tq.Length && 1 <= g <= rq.Length && i < rr.Length
      modifies tq, rq, rr
      ensures joined == !Clash(old(tq[..]), old(rq[..]), p, g)
      ensures tq[..] == (if joined then old(tq[..])[p - 1 := g] else old(tq[..]))
      ensures rq[..] == (if joined then old(rq[..])[g - 1 := p] else old(rq[..]))
      ensures rr[..] == (if joined then old(rr[..])[i := p] else old(rr[..]))
    {
      joined := false;
      if (tq[p - 1] != g && tq[p - 1] != 0) || (rq[g - 1] != p && rq[g - 1] != 0) {
        return;
      }
      tq[p - 1] := g;
      rq[g - 1] := p;
      rr[i] := p;
      joined := true;
    }

    /** Adds the selection of group `i` to the pairing unless it contradicts it. */
    method ApplyOne(i: nat, ghost tq0: seq<int>, ghost rq0: seq<int>, ghost gs: seq<Group>)
      returns (joined: bool, ghost tq1: seq<int>, ghost rq1: seq<int>)
      requires Paired(tq0, rq0, gs) && i < |gs| <= rr.Length
      modifies tq, rq, rr
      ensures Paired(tq1, rq1, gs) && nend <= |tq0| && nend <= |rq0| && GroupOk(gs[i], nend)
      ensures joined == !Clash(tq0, rq0, Probe(gs[i]), Gallery(gs[i]))
      ensures joined ==>
        tq1 == tq0[Probe(gs[i]) - 1 := Gallery(gs[i])] && rq1 == rq0[Gallery(gs[i]) - 1 := Probe(gs[i])]
      ensures joined ==> rr[..] == old(rr[..])[i := Probe(gs[i])]
      ensures !joined ==> tq1 == tq0 && rq1 == rq0 && rr[..] == old(rr[..])
    {
      WheelAt(tq0, rq0, gs, i);
      hide AllOk, Clash;
      var rt := rx[i];
      if rt < 0 {
        var z := rf[i, nn[i] - 1];
        assert gs[i].alts[nn[i] - 1] == z;
        joined := JoinPair(z, -rt, i);
      } else {
        var z := cf[i, nn[i] - 1];
        assert gs[i].alts[nn[i] - 1] == z;
        joined := JoinPair(rt, z, i);
      }
      tq1, rq1 := tq[..], rq[..];
    }

    /** Adding the selections comes to `a`; those after `stop` are in. */
    ghost predicate Applying(a: Attempt, tq1: seq<int>, rq1: seq<int>, gs: seq<Group>, stop: int)
      reads tq, rq, rr, rx, mm, nn, cf, rf
    {
      && Paired(tq1, rq1, gs) && -1 <= stop < |gs| && nend <= |tq1| && nend <= |rq1|
      && a == Apply(tq1, rq1, gs, nend, stop) && rr[stop + 1..|gs|] == SelectedProbes(gs, nend, stop + 1)
    }

    /** Adds one selection more, or finds that it clashes. */
    method ApplyNext(stop: nat, ghost a: Attempt, ghost tq0: seq<int>, ghost rq0: seq<int>, ghost gs: seq<Group>)
      returns (joined: bool, ghost tq1: seq<int>, ghost rq1: seq<int>)
      requires Applying(a, tq0, rq0, gs, stop)
      modifies tq, rq, rr
      ensures Applying(a, tq1, rq1, gs, if joined then stop - 1 else stop)
      ensures !joined ==> a == Attempt(tq1, rq1, stop)
    {
      hide Paired, AllOk, Apply, SelectedProbes, GroupOk, Clash, Apart;
      PairedFits(tq0, rq0, gs);
      ApplyUnfolds(tq0, rq0, gs, nend, stop);
      ghost var rest := rr[stop + 1..|gs|];
      joined, tq1, rq1 := ApplyOne(stop, tq0, rq0, gs);
      assert joined ==> rr[..][stop..|gs|] == [rr[stop]] + rest;
    }

    /** Adds the selections from the last group down until one contradicts the pairing. */
    method ApplyDown(ww: int, ghost a: Attempt, ghost tq0: seq<int>, ghost rq0: seq<int>, ghost gs: seq<Group>)
      returns (stop: int, ghost tq1: seq<int>, ghost rq1: seq<int>)
      requires Applying(a, tq0, rq0, gs, ww - 1)
      modifies tq, rq, rr
      ensures Applying(a, tq1, rq1, gs, stop) && a == Attempt(tq1, rq1, stop)
    {
      hide Applying;
      stop, tq1, rq1 := ww - 1, tq0, rq0;
      while stop >= 0
        invariant Applying(a, tq1, rq1, gs, stop)
      {
        var joined;
        joined, tq1, rq1 := ApplyNext(stop, a, tq1, rq1, gs);
        if !joined {
          return;
        }
        stop := stop - 1;
      }
      AppliedAll(a, tq1, rq1, gs, stop);
    }

    method ApplySelections(ww: int, ghost tq0: seq<int>, ghost rq0: seq<int>, ghost gs: seq<Group>)
      returns (stop: int, ghost a: Attempt)
      requires Paired(tq0, rq0, gs) && ww == |gs| <= rr.Length
      modifies tq, rq, rr
      ensures -1 <= stop < ww && AllOk(gs, nend) && nend <= |tq0| && nend <= |rq0|
      ensures a == Apply(tq0, rq0, gs, nend, ww - 1) && stop == a.stop && Paired(a.tq, a.rq, gs)
      ensures rr[stop + 1..ww] == SelectedProbes(gs, nend, stop + 1)
    {
      hide Paired, AllOk, Apply, SelectedProbes, Apart;
      PairedFits(tq0, rq0, gs);
      a := Apply(tq0, rq0, gs, nend, ww - 1);
      ghost var tq1, rq1;
      stop, tq1, rq1 := ApplyDown(ww, a, tq0, rq0, gs);
    }

    lemma AppliedAll(a: Attempt, tq1: seq<int>, rq1: seq<int>, gs: seq<Group>, stop: int)
      requires Applying(a, tq1, rq1, gs, stop) && stop < 0
      ensures a == Attempt(tq1, rq1, stop)
    {
    }

    /** Breaks the pairs of the selections just added. */
    method UndoSelections(stop: int, ww: int, ghost tq0: seq<int>, ghost rq0: seq<int>, ghost gs: seq<Group>)
      requires Paired(tq0, rq0, gs) && -1 <= stop < ww <= rr.Length && AllWithin(rr[stop + 1..ww], 1, nend)
      requires Inverse(tq0, rq0, nend)
      modifies tq, rq
      ensures Paired(UnpairProbes(tq0, rr[stop + 1..ww]), UnpairGallery(rq0, rr[stop + 1..ww]), gs)
    {
      ghost var list, ps: seq<int> := rr[stop + 1..ww], [];
      UnpairNothing(tq0, rq0);
      hide Inverse, AllOk;
      for z := stop + 1 to ww
        invariant Unpaired(tq0, rq0, ps) && forall e :: e in ps <==> e in list[..z - (stop + 1)]
      {
        assert list[z - (stop + 1)] == rr[z];
        var broke := Unpair(rr[z], tq0, rq0, ps);
        ps := [rr[z]] + ps;
      }
      assert list[..ww - (stop + 1)] == list;
      UnpairSame(tq0, rq0, ps, list);
      assert Groups(|gs|) == gs;
    }

    /** Where a turn that comes to `turn` has got to: at digit `j`, or with a combination that fits (`i < 0`). */
    ghost predicate Turning(turn: Turned, start: seq<Group>, tq1: seq<int>, rq1: seq<int>, gs: seq<Group>, i: int,
            j: int)
      reads tq, rq, rr, rx, mm, nn, cf, rf
    {
      && Paired(tq1, rq1, gs) && AllOk(start, nend) && |start| == |gs| && Inverse(tq1, rq1, nend) && -1 <= j < |gs|
      && if i >= 0 then Carried(start, gs, j) && turn == TurnFrom(tq1, rq1, gs, nend, j)
         else j >= 0 && turn == Turned(tq1, rq1, gs, true) && rr[..|gs|] == SelectedProbes(gs, nend, 0)
    }

    lemma TurningFacts(turn: Turned, start: seq<Group>, tq1: seq<int>, rq1: seq<int>, gs: seq<Group>, i: int, j: int)
      requires Turning(turn, start, tq1, rq1, gs, i, j)
      ensures -1 <= j < |gs| <= 64 && Sized() && Paired(tq1, rq1, gs) && AllOk(gs, nend) && AllOk(start, nend)
      ensures nend <= |tq1| && nend <= |rq1| && Inverse(tq1, rq1, nend) && |start| == |gs|
      ensures i >= 0 ==> Carried(start, gs, j) && turn == TurnFrom(tq1, rq1, gs, nend, j)
      ensures i < 0 ==> turn == Turned(tq1, rq1, gs, true) && rr[..|gs|] == SelectedProbes(gs, nend, 0)
      ensures i >= 0 && j < 0 ==> turn == Turned(tq1, rq1, gs, false)
      ensures i >= 0 && j >= 0 ==> GroupShaped(j) && 1 <= gs[j].pick == nn[j] <= |gs[j].alts| == mm[j]
    {
      if j >= 0 { WheelAt(tq1, rq1, gs, j); }
    }

    /** An exhausted digit goes back to 1. */
    method CarryDigit(j: nat, ghost turn: Turned, ghost start: seq<Group>, ghost tq1: seq<int>, ghost rq1: seq<int>,
            ghost gs: seq<Group>)
      requires Turning(turn, start, tq1, rq1, gs, 0, j) && gs[j].pick >= |gs[j].alts|
      modifies nn
      ensures Turning(turn, start, tq1, rq1, Pick(gs, j, 1), 0, j - 1)
    {
      TurningFacts(turn, start, tq1, rq1, gs, 0, j);
      DigitSteps(tq1, rq1, gs, nend, j);
      CarryOn(start, gs, nend, j);
      hide AllOk, Inverse, TurnFrom, GroupOk, Paired, Carried;
      WriteSelection(j, 1, tq1, rq1, gs);
    }

    /** `next` is a combination to try, later in the count than `start`, with `turn` as what is left to do. */
    ghost predicate Trying(turn: Turned, start: seq<Group>, tq1: seq<int>, rq1: seq<int>, next: seq<Group>) {
      && |next| == |start| && AllOk(start, nend) && AllOk(next, nend) && TurnsLeft(next, nend) < TurnsLeft(start, nend)
      && nend <= |tq1| && nend <= |rq1| && Inverse(tq1, rq1, nend) && turn == Try(tq1, rq1, next, nend)
    }

    lemma BumpPlan(j: nat, turn: Turned, start: seq<Group>, tq1: seq<int>, rq1: seq<int>, gs: seq<Group>)
      requires Turning(turn, start, tq1, rq1, gs, 0, j) && gs[j].pick < |gs[j].alts|
      ensures Trying(turn, start, tq1, rq1, Pick(gs, j, gs[j].pick + 1))
    {
      TurningFacts(turn, start, tq1, rq1, gs, 0, j);
      hide AllOk, Inverse, Try, TurnFrom, TurnsLeft, Carried, Paired, Turning;
      DigitSteps(tq1, rq1, gs, nend, j);
      BumpRanks(start, gs, j, nend);
    }

    /** The next selection of digit `j` makes a new combination, later in the count. */
    method BumpDigit(j: nat, ghost turn: Turned, ghost start: seq<Group>, ghost tq1: seq<int>, ghost rq1: seq<int>,
            ghost gs: seq<Group>)
      requires Turning(turn, start, tq1, rq1, gs, 0, j) && gs[j].pick < |gs[j].alts|
      modifies nn
      ensures Paired(tq1, rq1, Pick(gs, j, gs[j].pick + 1))
      ensures Trying(turn, start, tq1, rq1, Pick(gs, j, gs[j].pick + 1))
    {
      hide AllOk, Inverse, Paired, Turning, Apart, Trying, Carried, TurnFrom;
      TurningFacts(turn, start, tq1, rq1, gs, 0, j);
      BumpPlan(j, turn, start, tq1, rq1, gs);
      WriteSelection(j, nn[j] + 1, tq1, rq1, gs);
    }

    /** A combination that does not fit starts the count again from the pairing left by undoing it. */
    lemma TurnsAgain(turn: Turned, tq0: seq<int>, rq0: seq<int>, gs: seq<Group>, a: Attempt, ps: seq<int>)
      requires 0 < |gs| && AllOk(gs, nend) && nend <= |tq0| && nend <= |rq0| && Inverse(tq0, rq0, nend)
      requires turn == Try(tq0, rq0, gs, nend) && a == Apply(tq0, rq0, gs, nend, |gs| - 1) && a.stop >= 0
      requires ps == SelectedProbes(gs, nend, a.stop + 1)
      requires Paired(UnpairProbes(a.tq, ps), UnpairGallery(a.rq, ps), gs)
      ensures Turning(turn, gs, UnpairProbes(a.tq, ps), UnpairGallery(a.rq, ps), gs, a.stop, |gs| - 1)
    {
      ApplyKeepsInverse(tq0, rq0, gs, nend, |gs| - 1);
      SelectedWithin(gs, nend, a.stop + 1);
      UnpairKeepsInverse(a.tq, a.rq, nend, ps);
      TryAgain(tq0, rq0, gs, nend, a, ps);
      hide AllOk, Inverse, Apply, Try, TurnFrom, Paired;
    }

    lemma TurnLands(turn: Turned, tq0: seq<int>, rq0: seq<int>, gs: seq<Group>, a: Attempt)
      requires 0 < |gs| && AllOk(gs, nend) && nend <= |tq0| && nend <= |rq0| && Inverse(tq0, rq0, nend)
      requires turn == Try(tq0, rq0, gs, nend) && a == Apply(tq0, rq0, gs, nend, |gs| - 1) && a.stop < 0
      requires Paired(a.tq, a.rq, gs) && |gs| <= rr.Length && rr[..|gs|] == SelectedProbes(gs, nend, 0)
      ensures Turning(turn, gs, a.tq, a.rq, gs, a.stop, |gs| - 1)
    {
      ApplyKeepsInverse(tq0, rq0, gs, nend, |gs| - 1);
      hide AllOk, Inverse, Apply, Paired, TurnFrom;
    }

    /** Adds the new combination to the pairing; if it does not fit, all of it is undone. */
    method TryCombination(ww: int, ghost turn: Turned, ghost start: seq<Group>, ghost tq0: seq<int>,
            ghost rq0: seq<int>, ghost gs: seq<Group>)
      returns (i: int, ghost tq1: seq<int>, ghost rq1: seq<int>)
      requires Paired(tq0, rq0, gs) && 0 < ww == |gs| <= rr.Length && Trying(turn, start, tq0, rq0, gs)
      modifies tq, rq, rr
      ensures Turning(turn, gs, tq1, rq1, gs, i, ww - 1)
    {
      hide AllOk, Inverse, Apply, TurnFrom, Paired, Try, Turning, TurnsLeft, SelectedProbes, UnpairProbes,
        UnpairGallery, Apart, GroupShaped, GroupAt;
      ghost var a;
      PairedFits(tq0, rq0, gs);
      ApplyKeepsInverse(tq0, rq0, gs, nend, ww - 1);
      i, a := ApplySelections(ww, tq0, rq0, gs);
      tq1, rq1 := a.tq, a.rq;
      if i >= 0 {
        ghost var ps := SelectedProbes(gs, nend, i + 1);
        SelectedWithin(gs, nend, i + 1);
        UndoSelections(i, ww, a.tq, a.rq, gs);
        TurnsAgain(turn, tq0, rq0, gs, a, ps);
        tq1, rq1 := UnpairProbes(a.tq, ps), UnpairGallery(a.rq, ps);
      } else {
        assert rr[..ww] == rr[0..ww];
        TurnLands(turn, tq0, rq0, gs, a);
      }
    }

    /** One step of the count: the next selection of digit `j`, or a carry. */
    method TurnStep(ww: int, j: nat, ghost turn: Turned, ghost start: seq<Group>, ghost tq0: seq<int>,
            ghost rq0: seq<int>, ghost gs0: seq<Group>)
      returns (i: int, j': int, ghost start': seq<Group>, ghost tq1: seq<int>, ghost rq1: seq<int>,
          ghost gs: seq<Group>)
      requires Turning(turn, start, tq0, rq0, gs0, 0, j) && ww == |gs0| && AllOk(start, nend)
      modifies tq, rq, rr, nn
      ensures Turning(turn, start', tq1, rq1, gs, i, j') && ww == |gs| && -1 <= j' < ww && AllOk(start', nend)
      ensures TurnsLeft(start', nend) < TurnsLeft(start, nend) || (start' == start && j' < j)
    {
      TurningFacts(turn, start, tq0, rq0, gs0, 0, j);
      hide AllOk, Inverse, Turning, Paired, TurnsLeft, Carried, TurnFrom;
      i, start', tq1, rq1 := 0, start, tq0, rq0;
      if nn[j] < mm[j] {
        BumpDigit(j, turn, start, tq0, rq0, gs0);
        gs := Pick(gs0, j, gs0[j].pick + 1);
        i, tq1, rq1 := TryCombination(ww, turn, start, tq0, rq0, gs);
        start' := gs;
        j' := ww - 1;
      } else {
        CarryDigit(j, turn, start, tq0, rq0, gs0);
        gs := Pick(gs0, j, 1);
        j' := j - 1;
      }
    }

    /** Advances the odometer to the next combination that fits; false when there is none. */
    method TurnOdometer(ww: int, ghost tq0: seq<int>, ghost rq0: seq<int>, ghost gs0: seq<Group>)
      returns (more: bool, ghost r: Turned)
      requires Paired(tq0, rq0, gs0) && ww == |gs0| && Inverse(tq0, rq0, nend)
      modifies tq, rq, rr, nn
      ensures AllOk(gs0, nend) && r == Turn(tq0, rq0, gs0, nend) && more == r.more && |r.groups| == ww <= rr.Length
      ensures Paired(r.tq, r.rq, r.groups) && AllOk(r.groups, nend)
      ensures more ==> rr[..ww] == SelectedProbes(r.groups, nend, 0)
    {
      PairedFits(tq0, rq0, gs0);
      ghost var start, tq1, rq1, gs := gs0, tq0, rq0, gs0;
      r := Turn(tq0, rq0, gs0, nend);
      TurnIsTurnFrom(tq0, rq0, gs0, nend);
      var i, j := 0, ww - 1;
      assert Turning(r, start, tq1, rq1, gs, i, j);
      hide AllOk, Inverse, Turn, TurnsLeft, Turning, Paired;
      while i >= 0 && j >= 0
        invariant |gs| == ww && AllOk(start, nend) && Turning(r, start, tq1, rq1, gs, i, j) && -1 <= j < ww
        decreases TurnsLeft(start, nend), j + 1
      {
        TurningAt(r, start, tq1, rq1, gs, i, j);
        i, j, start, tq1, rq1, gs := TurnStep(ww, j, r, start, tq1, rq1, gs);
      }
      TurningFacts(r, start, tq1, rq1, gs, i, j);
      more := j >= 0;
    }

    lemma TurningAt(turn: Turned, start: seq<Group>, tq1: seq<int>, rq1: seq<int>, gs: seq<Group>, i: int, j: int)
      requires Turning(turn, start, tq1, rq1, gs, i, j) && i >= 0
      ensures Turning(turn, start, tq1, rq1, gs, 0, j)
    {
    }

    // --- One seed -------------------------------------------------------------------------------

    /** Forgets the groups after the first `ww` groups have served a seed, and unpairs the seed. */
    method CleanUp(ww: int, ghost t: Table, ghost w: Work)
      requires Sized() && Apart() && InUse(ww, 1, 0) && State(ww, 1, 0) == w && w.q == [qq[0]]
      requires Inverse(w.tq, w.rq, nend) && GroupsOk(w.cp, w.rp, w.groups, nend) && IsEndpoint(qq[0], nend)
      modifies tq, rq, cp, rp
      ensures InUse(0, 1, 0) && State(0, 1, 0) == Cleanup(w, qq[0])
    {
      UnpairNothing(w.tq, w.rq);
      assert Unpaired(w.tq, w.rq, []);
      assert Groups(ww) == w.groups && |w.cp| == cp.Length && |w.rp| == rp.Length;
      hide Inverse;
      var broke := Unpair(qq[0], w.tq, w.rq, []);
      assert [qq[0]] + [] == [qq[0]];
      EraseGroups(ww, w.cp, w.rp, w.groups);
      assert w.groups[0..] == w.groups;
      assert Groups(0) == [];
    }

    /** Clears the group numbers of the endpoints that have groups. */
    method EraseGroups(ww: int, ghost cp0: seq<int>, ghost rp0: seq<int>, ghost gs: seq<Group>)
      requires Sized() && Apart() && InUse(ww, 1, 0) && Groups(ww) == gs && cp[..] == cp0 && rp[..] == rp0
      requires GroupsOk(cp0, rp0, gs, nend)
      modifies cp, rp
      ensures cp[..] == Erased(cp0, gs, true) && rp[..] == Erased(rp0, gs, false)
    {
      hide GroupsOk;
      var i := ww;
      assert |gs| == ww && gs[ww..] == [] && Erased(cp0, [], true) == cp0 && Erased(rp0, [], false) == rp0;
      assert |cp0| == cp.Length && |rp0| == rp.Length;
      while i > 0
        invariant 0 <= i <= ww && cp[..] == Erased(cp0, gs[i..], true) && rp[..] == Erased(rp0, gs[i..], false)
      {
        i := i - 1;
        GroupEndFits(cp0, rp0, gs, nend, i);
        assert gs[i] == GroupAt(i);
        EraseStep(cp0, gs, i, true);
        EraseStep(rp0, gs, i, false);
        var n := rx[i];
        if n < 0 {
          rp[-n - 1] := 0;
        } else {
          cp[n - 1] := 0;
        }
      }
      assert gs[0..] == gs;
    }

    /** The arrays hold search state `s` between two rounds for seed row `k`. */
    ghost predicate Seeking(s: Search, ww: int, tp: int, score: int, k: nat, t: Table, pr: Prints)
      reads this, sc, cp, rp, tq, rq, zz, rk, y, qq, rx, mm, nn, cf, rf
    {
      && Sized() && Apart() && t.nend == nend && InUse(ww, 1, 0) && s == SearchState(ww, 1, 0, s.ftt, s.applied)
      && RoundOk(s, t, pr, k) && AllOk(s.w.groups, nend) && s.w.q == [t.rows[k].pk]
      && Tabulated(pr.angle, |clusters|, score) && tp == |clusters|
    }

    lemma SeekingStarts(s: Search, ww: int, tp: int, score: int, k: nat, t: Table, pr: Prints)
      requires Seeking(s, ww, tp, score, k, t, pr)
      ensures k < |t.rows| && Starting(k, ww, t, s.ftt + 1) && State(ww, 1, 0) == s.w && clusters == s.clusters
      ensures RoundOk(s, t, pr, k) && PrintsFit(t, pr) && Tabulated(pr.angle, |clusters|, score) && tp == |clusters|
    {
      assert RowOk(t.rows[k], t.nend);
      ReadyGrows(s.w, t, t.rows[k], s.ftt + 1);
      assert Fresh(s.w, t.rows[k]) == s.w;
      hide WorkOk, Ready;
    }

    /** How growing and settling a path ends: with the queue full, or with the arrays holding the outcome. */
    ghost predicate RoundEnds(r: Outcome<Search>, overflow: bool, ww: int, qh: int, ftt: int, tp: int, score: int,
            applied: seq<int>, t: Table, pr: Prints)
      reads this, sc, cp, rp, tq, rq, zz, rk, y, qq, rx, mm, nn, cf, rf
    {
      if overflow then r.Overflow?
      else Live(ww, qh, 0, t, 0) && r == Ok(SearchState(ww, qh, 0, ftt, applied))
           && Tabulated(pr.angle, |clusters|, score) && tp == |clusters|
    }

    /** A grown path, ready to be settled. */
    lemma GrownPath(s: Search, k: nat, ww: int, qh: int, tot: int, t: Table, ftt: int)
      requires k < |t.rows| && WorkOk(Fresh(s.w, t.rows[k]), t, ftt)
      requires GrowEnds(Grow(s.w, t, k, ftt), false, ww, qh, tot, t, ftt)
      ensures Live(ww, qh, tot, t, ftt) && Sized() && Apart() && t.nend == nend && InUse(ww, qh, tot)
      ensures Grow(s.w, t, k, ftt) == Ok(State(ww, qh, tot))
    {
    }

    lemma SettledPath(g: Search, ww: int, qh: int, ftt: int, tp: int, score: int, t: Table, pr: Prints)
      requires Sized() && Apart() && t.nend == nend && InUse(ww, qh, 0) && SearchState(ww, qh, 0, ftt, g.applied) == g
      requires WorkOk(g.w, t, 0) && Tabulated(pr.angle, |clusters|, score) && tp == |clusters|
      ensures RoundEnds(Ok(g), false, ww, qh, ftt, tp, score, g.applied, t, pr)
    {
    }

    /** Grows the next path from seed row `k` and settles it. */
    method GrowAndSettlePath(colp: seq<ColpRow>, np: nat, k: nat, ww: int, ftt: int, tp: nat, pr: Prints, score: int,
            ghost t: Table, ghost s: Search)
      returns (overflow: bool, ww': int, qh': int, ftt': int, tp': nat, score': int)
      requires Reads(colp, t) && np == |t.rows| && Seeking(s, ww, tp, score, k, t, pr) && ftt == s.ftt
      modifies this, y, rk, sc, qq, zz, tq, rq, cp, rp, cf, rf, mm, nn, rx
      ensures RoundOk(s, t, pr, k)
      ensures RoundEnds(GrowAndSettle(s, t, pr, k), overflow, ww', qh', ftt', tp', score', s.applied, t, pr)
    {
      hide *;
      SeekingStarts(s, ww, tp, score, k, t, pr);
      var tot';
      ftt', tp', score' := ftt + 1, tp, score;
      overflow, ww', qh', tot' := GrowPath(colp, np, k, ww, ftt', t, s.w);
      if overflow {
        OverflowSettles(s, k, ww', qh', tot', ftt', tp', score', t, pr);
        return;
      }
      GrownPath(s, k, ww', qh', tot', t, ftt');
      GrowSettleIs(s, State(ww', qh', tot'), t, pr, k);
      ghost var grown := SearchState(ww', qh', tot', ftt', s.applied);
      SearchStateIs(ww', qh', tot', ftt', s.applied);
      tp', ftt', score' := SettlePath(colp, tp, ww', qh', tot', ftt', pr, score, t, s.applied);
      SearchStateIs(ww', qh', 0, ftt', s.applied);
      SettledPath(Settle(grown, t, pr), ww', qh', ftt', tp', score', t, pr);
    }

    lemma SearchStateIs(ww: int, qh: int, tot: int, ftt: int, applied: seq<int>)
      requires Sized() && InUse(ww, qh, tot)
      ensures SearchState(ww, qh, tot, ftt, applied) == Search(State(ww, qh, tot), ftt, clusters, applied)
    {
    }

    lemma OverflowSettles(s: Search, k: nat, ww: int, qh: int, tot: int, ftt: int, tp: int, score: int, t: Table,
            pr: Prints)
      requires RoundOk(s, t, pr, k) && WorkOk(Fresh(s.w, t.rows[k]), t, s.ftt + 1) && ftt == s.ftt + 1
      requires GrowEnds(Grow(s.w, t, k, ftt), true, ww, qh, tot, t, ftt)
      ensures RoundEnds(GrowAndSettle(s, t, pr, k), true, ww, qh, ftt, tp, score, s.applied, t, pr)
    {
      GrowOverflows(s, t, pr, k);
    }

    /** A settled path about to be torn down: `g` is what the arrays hold, `rr` what the odometer had applied. */
    ghost predicate Tearing(g: Search, ww: int, qh: int, dw: int, t: Table)
      reads this, sc, cp, rp, tq, rq, zz, rk, y, qq, rx, mm, nn, cf, rf, rr
    {
      && Live(ww, qh, 0, t, 0) && g == SearchState(ww, qh, 0, g.ftt, g.applied)
      && 0 <= dw <= rr.Length && rr[..dw] == g.applied && AllWithin(g.applied, 1, nend)
    }

    lemma StateIsPaired(ww: int, w: Work)
      requires Sized() && Apart() && InUse(ww, 1, 0) && State(ww, 1, 0) == w && AllOk(w.groups, nend)
      ensures |w.groups| == ww && Paired(w.tq, w.rq, w.groups)
    {
    }

    /** The odometer changes the pairing and the selections, and nothing else. */
    method TurnState(ww: int, ghost w: Work) returns (more: bool, ghost turn: Turned)
      requires Sized() && Apart() && InUse(ww, 1, 0) && State(ww, 1, 0) == w && AllOk(w.groups, nend)
      requires Inverse(w.tq, w.rq, nend)
      modifies tq, rq, rr, nn
      ensures turn == Turn(w.tq, w.rq, w.groups, nend) && more == turn.more && AllOk(turn.groups, nend)
      ensures InUse(ww, 1, 0) && State(ww, 1, 0) == w.(tq := turn.tq, rq := turn.rq, groups := turn.groups)
      ensures ww <= rr.Length && (more ==> rr[..ww] == SelectedProbes(turn.groups, nend, 0))
    {
      hide Inverse, AllOk, Turn;
      StateIsPaired(ww, w);
      more, turn := TurnOdometer(ww, w.tq, w.rq, w.groups);
    }

    /** Tears the path down and turns the odometer. */
    method TearAndTurnPath(ww: int, qh: int, dw: int, ghost t: Table, ghost g: Search) returns (more: bool)
      requires Tearing(g, ww, qh, dw, t)
      modifies tq, rq, zz, rr, nn
      ensures WorkOk(g.w, t, 0) && g.w.q != [] && Inverse(g.w.tq, g.w.rq, t.nend) && AllOk(g.w.groups, t.nend)
      ensures AllWithin(g.w.q, 1, t.nend) && AllWithin(g.applied, 1, t.nend)
      ensures TearAndTurn(g, t).more == more && Sized() && InUse(ww, 1, 0)
      ensures var s := TearAndTurn(g, t).s;
        SearchState(ww, 1, 0, g.ftt, s.applied) == s && (more ==> ww <= rr.Length && rr[..ww] == s.applied)
    {
      TearIsSound(g, t);
      hide WorkOk, Inverse, AllOk, TearAndTurn, Turn, Teardown;
      ghost var w := Teardown(g.w, g.applied);
      TearDown(ww, qh, dw, t);
      ghost var turn;
      more, turn := TurnState(ww, w);
      TearAndTurnIs(g, t, turn);
    }

    lemma RoundToTear(s: Search, ww: int, qh: int, dw: int, ftt: int, tp: int, score: int, k: nat, t: Table, pr: Prints)
      requires RoundOk(s, t, pr, k)
      requires RoundEnds(GrowAndSettle(s, t, pr, k), false, ww, qh, ftt, tp, score, s.applied, t, pr)
      requires 0 <= dw <= rr.Length && rr[..dw] == s.applied
      ensures GrowAndSettle(s, t, pr, k).Ok? && Tearing(GrowAndSettle(s, t, pr, k).value, ww, qh, dw, t)
      ensures GrowAndSettle(s, t, pr, k).value.ftt == ftt && clusters == GrowAndSettle(s, t, pr, k).value.clusters
      ensures Tabulated(pr.angle, |clusters|, score) && tp == |clusters|
    {
      hide GrowAndSettle, Ready, ClustersOk, WorkOk;
    }

    lemma RoundSought(s: Search, ww: int, tp: int, score: int, k: nat, t: Table, pr: Prints)
      requires Sized() && Apart() && t.nend == nend && InUse(ww, 1, 0) && s == SearchState(ww, 1, 0, s.ftt, s.applied)
      requires RoundOk(s, t, pr, k) && AllOk(s.w.groups, nend) && s.w.q == [t.rows[k].pk]
      requires Tabulated(pr.angle, |clusters|, score) && tp == |clusters|
      ensures Seeking(s, ww, tp, score, k, t, pr)
    {
    }

    /** The second half of a round: tear the path down, turn the odometer. */
    method FinishRound(ww: int, qh: int, dw: int, tp: nat, score: int, ghost k: nat, ghost t: Table, ghost pr: Prints,
            ghost s: Search, ghost g: Search)
      returns (more: bool, ghost s': Search)
      requires RoundOk(s, t, pr, k) && GrowAndSettle(s, t, pr, k) == Ok(g) && Tearing(g, ww, qh, dw, t)
      requires Tabulated(pr.angle, |clusters|, score) && tp == |clusters|
      modifies tq, rq, zz, rr, nn
      ensures Seeking(s', ww, tp, score, k, t, pr) && s'.ftt == g.ftt && IsRound(g, t, s', more)
      ensures more ==> 0 <= ww <= rr.Length && rr[..ww] == s'.applied
    {
      hide Seeking, RoundOk, Tearing, IsRound, GrowAndSettle, TearAndTurn, Tabulated, AllOk, Inverse, Live, Sized,
        WorkOk, Apart;
      RoundGoesOn(s, t, pr, k, g);
      TearingFits(g, ww, qh, dw, t);
      more := TearAndTurnPath(ww, qh, dw, t, g);
      s' := TearAndTurn(g, t).s;
      IsRoundIs(g, t, s', more);
      RoundSought(s', ww, tp, score, k, t, pr);
    }

    /** One round: grow and settle a path, tear it down, turn the odometer. */
    method Round(colp: seq<ColpRow>, np: nat, k: nat, ww: int, dw: int, ftt: int, tp: nat, pr: Prints, score: int,
            ghost t: Table, ghost s: Search)
      returns (overflow: bool, more: bool, ww': int, ftt': int, tp': nat, score': int, ghost s': Search)
      requires Reads(colp, t) && np == |t.rows| && Seeking(s, ww, tp, score, k, t, pr) && ftt == s.ftt
      requires 0 <= dw <= rr.Length && rr[..dw] == s.applied
      modifies this, y, rk, sc, qq, zz, tq, rq, cp, rp, cf, rf, mm, nn, rx, rr
      ensures RoundOk(s, t, pr, k) && overflow == GrowAndSettle(s, t, pr, k).Overflow?
      ensures !overflow ==> Seeking(s', ww', tp', score', k, t, pr) && s'.ftt == ftt'
      ensures !overflow ==> IsRound(GrowAndSettle(s, t, pr, k).value, t, s', more)
      ensures !overflow && more ==> 0 <= ww' <= rr.Length && rr[..ww'] == s'.applied
    {
      hide Seeking, RoundOk, RoundEnds, Tearing, IsRound, GrowAndSettle, TearAndTurn, Tabulated, Reads, AllOk, Live,
        Sized;
      SeekingFits(s, ww, tp, score, k, t, pr);
      var qh';
      s', more := s, false;
      overflow, ww', qh', ftt', tp', score' := GrowAndSettlePath(colp, np, k, ww, ftt, tp, pr, score, t, s);
      if overflow {
        OverflowEndsRound(s, ww', qh', ftt', tp', score', k, t, pr);
      } else {
        RoundToTear(s, ww', qh', dw, ftt', tp', score', k, t, pr);
        more, s' := FinishRound(ww', qh', dw, tp', score', k, t, pr, s, GrowAndSettle(s, t, pr, k).value);
      }
    }

    lemma SeekingFits(s: Search, ww: int, tp: int, score: int, k: nat, t: Table, pr: Prints)
      requires Seeking(s, ww, tp, score, k, t, pr)
      ensures Sized() && Apart() && t.nend == nend && 0 <= ww <= 64 && k < |t.rows| && AllOk(s.w.groups, nend)
      ensures s == SearchState(ww, 1, 0, s.ftt, s.applied) && RoundOk(s, t, pr, k) && RowOk(t.rows[k], nend)
    {
    }

    lemma TearingFits(g: Search, ww: int, qh: int, dw: int, t: Table)
      requires Tearing(g, ww, qh, dw, t)
      ensures Sized() && Apart() && t.nend == nend && InUse(ww, qh, 0) && 0 <= ww <= 64
    {
    }

    lemma OverflowEndsRound(s: Search, ww: int, qh: int, ftt: int, tp: int, score: int, k: nat, t: Table, pr: Prints)
      requires RoundOk(s, t, pr, k)
      requires RoundEnds(GrowAndSettle(s, t, pr, k), true, ww, qh, ftt, tp, score, s.applied, t, pr)
      ensures GrowAndSettle(s, t, pr, k).Overflow?
    {
    }

    /** The arrays hold search state `s` between two seeds. */
    ghost predicate Idle(s: Search, tp: int, score: int, t: Table, pr: Prints)
      reads this, sc, cp, rp, tq, rq, zz, rk, y, qq, rx, mm, nn, cf, rf
    {
      && Sized() && Apart() && t.nend == nend && InUse(0, 1, 0) && s == SearchState(0, 1, 0, s.ftt, s.applied)
      && SweepOk(s, t, pr) && Tabulated(pr.angle, |clusters|, score) && tp == |clusters|
    }

    /** Where the rounds for seed row `k`, which come to `e`, have got to. */
    ghost predicate InSeed(e: Ending, s: Search, ww: int, dw: int, tp: int, score: int, k: nat, t: Table, pr: Prints)
      reads this, sc, cp, rp, tq, rq, zz, rk, y, qq, rx, mm, nn, cf, rf, rr
    {
      && Seeking(s, ww, tp, score, k, t, pr) && AllOk(s.w.groups, nend) && e == SeedLoop(s, t, pr, k)
      && 0 <= dw <= rr.Length && rr[..dw] == s.applied
    }

    lemma SeedIsPlanted(s: Search, tp: int, score: int, k: nat, t: Table, pr: Prints)
      requires Idle(s, tp, score, t, pr) && k < |t.rows|
      ensures 1 <= t.rows[k].pk <= |s.w.tq| && 1 <= t.rows[k].ga <= |s.w.rq| && t.nend == nend
      ensures AllOk(Plant(s, t.rows[k]).w.groups, nend) && RoundOk(Plant(s, t.rows[k]), t, pr, k)
      ensures SeedOf(SeedLoop(Plant(s, t.rows[k]), t, pr, k), s, t, pr, k)
    {
      assert RowOk(t.rows[k], t.nend);
      PlantIsReady(s, t, pr, k);
      hide RoundOk, Clean, ClustersOk, PrintsFit, Tabulated, Inverse, SeedLoop;
    }

    /** Pairs the seed's own endpoints. */
    method PlantSeed(colp: seq<ColpRow>, k: nat, tp: int, pr: Prints, score: int, ghost t: Table, ghost s: Search,
            ghost e: Ending)
      requires Reads(colp, t) && Idle(s, tp, score, t, pr) && SeedOf(e, s, t, pr, k)
      modifies qq, tq, rq
      ensures InSeed(e, Plant(s, t.rows[k]), 0, 0, tp, score, k, t, pr)
    {
      hide RoundOk, SweepOk, Tabulated, AllOk, SeedLoop, Apart;
      assert colp[k] == t.rows[k];
      WritePair(colp[k].pk, colp[k].ga, s.w);
    }

    method WritePair(p: int, g: int, ghost w: Work)
      requires Sized() && Apart() && InUse(0, 1, 0) && State(0, 1, 0) == w && 1 <= p <= tq.Length && 1 <= g <= rq.Length
      modifies qq, tq, rq
      ensures State(0, 1, 0) == w.(tq := w.tq[p - 1 := g], rq := w.rq[g - 1 := p], q := [p], path := [], groups := [])
    {
      assert Groups(0) == [];
      qq[0] := p;
      rq[g - 1] := p;
      tq[p - 1] := g;
    }

    /** After the last round: clean up for the next seed. */
    method FinishSeed(ww: int, tp: int, score: int, ghost k: nat, ghost t: Table, ghost pr: Prints, ghost s: Search)
      requires Seeking(s, ww, tp, score, k, t, pr) && k < |t.rows| && Accounted(s.w.tq, t.rows[k].pk, [])
      modifies tq, rq, cp, rp
      ensures Idle(s.(w := Cleanup(s.w, t.rows[k].pk)), tp, score, t, pr)
    {
      SeekingFits(s, ww, tp, score, k, t, pr);
      CleanupCleans(s.w, t, t.rows[k].pk);
      assert qq[..1] == [t.rows[k].pk];
      hide Clean, ClustersOk, PrintsFit, Tabulated, Inverse, GroupsOk, Cleanup, AllOk, Accounted;
      CleanUp(ww, t, s.w);
    }

    /** What the rounds for one seed come to, and what they leave in the arrays. */
    ghost predicate SeedEnds(e: Ending, overflow: bool, full: bool, ftt: int, tp: int, score: int, t: Table, pr: Prints)
      reads this, sc, cp, rp, tq, rq, zz, rk, y, qq, rx, mm, nn, cf, rf
    {
      && overflow == e.QueueFull? && full == e.ClustersFull?
      && (e.Finished? ==> Idle(e.s, tp, score, t, pr) && e.s.ftt == ftt)
      && (e.ClustersFull? ==> clusters == e.s.clusters && Tabulated(pr.angle, |clusters|, score) && tp == |clusters|)
    }

    /** One round more, or the end of the rounds. */
    method NextRound(colp: seq<ColpRow>, np: nat, k: nat, ww: int, dw: int, ftt: int, tp: nat, pr: Prints, score: int,
            ghost t: Table, ghost s: Search, ghost e: Ending)
      returns (overflow: bool, full: bool, more: bool, ww': int, dw': int, ftt': int, tp': nat, score': int,
          ghost s': Search)
      requires Reads(colp, t) && np == |t.rows| && k < np && ftt == s.ftt && InSeed(e, s, ww, dw, tp, score, k, t, pr)
      modifies this, y, rk, sc, qq, zz, tq, rq, cp, rp, cf, rf, mm, nn, rx, rr
      ensures overflow || full ==> SeedEnds(e, overflow, full, ftt', tp', score', t, pr)
      ensures AllOk(s.w.groups, nend)
      ensures !overflow && !full && more ==>
        InSeed(e, s', ww', dw', tp', score', k, t, pr) && s'.ftt == ftt' && AllOk(s'.w.groups, nend)
          && TurnsLeft(s'.w.groups, nend) < TurnsLeft(s.w.groups, nend)
      ensures !overflow && !full && !more ==>
        Seeking(s', ww', tp', score', k, t, pr) && s'.ftt == ftt' && Accounted(s'.w.tq, t.rows[k].pk, [])
          && e == Finished(s'.(w := Cleanup(s'.w, t.rows[k].pk)))
    {
      hide Seeking, RoundOk, IsRound, GrowAndSettle, Tabulated, Reads, AllOk, TurnsLeft, Accounted, Cleanup,
        SeedLoop, Idle, Sized;
      SeekingFits(s, ww, tp, score, k, t, pr);
      full, dw' := false, dw;
      overflow, more, ww', ftt', tp', score', s' := Round(colp, np, k, ww, dw, ftt, tp, pr, score, t, s);
      if overflow {
        SeedLoopOverflows(s, t, pr, k);
        return;
      }
      SeedLoopStep(s, t, pr, k, s', more);
      SeekingCounts(s', ww', tp', score', k, t, pr);
      if tp' > MAX_CLUSTERS {
        full := true;
        return;
      }
      dw' := ww';
    }

    lemma SeekingCounts(s: Search, ww: int, tp: int, score: int, k: nat, t: Table, pr: Prints)
      requires Seeking(s, ww, tp, score, k, t, pr)
      ensures clusters == s.clusters && Tabulated(pr.angle, |clusters|, score) && tp == |clusters|
    {
    }

    /** All rounds for seed row `k`. */
    method RunSeed(colp: seq<ColpRow>, np: nat, k: nat, ftt: int, tp: nat, pr: Prints, score: int, ghost t: Table,
            ghost s: Search)
      returns (overflow: bool, full: bool, ftt': int, tp': nat, score': int, ghost e: Ending)
      requires Reads(colp, t) && np == |t.rows| && k < np && Idle(s, tp, score, t, pr) && ftt == s.ftt
      modifies this, y, rk, sc, qq, zz, tq, rq, cp, rp, cf, rf, mm, nn, rx, rr
      ensures SeedOf(e, s, t, pr, k) && SeedEnds(e, overflow, full, ftt', tp', score', t, pr)
    {
      hide Seeking, Idle, Reads, AllOk, TurnsLeft, Accounted, SeedLoop, Cleanup, InSeed, SeedOf, Tabulated;
      SeedIsPlanted(s, tp, score, k, t, pr);
      ghost var cur := Plant(s, t.rows[k]);
      e := SeedLoop(cur, t, pr, k);
      PlantSeed(colp, k, tp, pr, score, t, s, e);
      var ww, dw, more := 0, 0, true;
      ftt', tp', score' := ftt, tp, score;
      while true
        invariant InSeed(e, cur, ww, dw, tp', score', k, t, pr) && ftt' == cur.ftt && AllOk(cur.w.groups, nend)
        decreases TurnsLeft(cur.w.groups, nend)
      {
        overflow, full, more, ww, dw, ftt', tp', score', cur :=
          NextRound(colp, np, k, ww, dw, ftt', tp', pr, score', t, cur, e);
        if overflow || full {
          return;
        }
        if !more {
          break;
        }
      }
      FinishSeed(ww, tp', score', k, t, pr, cur);
    }

    // --- The heaviest clique of clusters ---------------------------------------------------------

    /** The running totals describe one weighted graph: `ctp` its chains, `gct` their weights. */
    ghost predicate Tabled()
      reads this
    {
      && |ct| == |gct| == |ctt| == |ctp|
      && IsChains(ctp)
      && (forall i :: 0 <= i < |ct| ==> ct[i] >= 0)
      && forall i :: 0 <= i < |ct| ==> ctt[i] + 1 == |ctp[i]| && gct[i] == Weight(ct, ctp[i])
    }

    /** Column `d` of `sct` starts with `list`. */
    static ghost predicate Column(sct: array2<int>, d: nat, list: seq<int>)
      reads sct
    {
      |list| <= sct.Length0 && d < sct.Length1 && forall i :: 0 <= i < |list| ==> sct[i, d] == list[i]
    }

    static twostate predicate OnlyColumn(sct: array2<int>, d: nat)
      reads sct
    {
      forall i, e :: 0 <= i < sct.Length0 && 0 <= e < sct.Length1 && e != d ==> sct[i, e] == old(sct[i, e])
    }

    /** The run of equal elements at the two walk positions, copied to column `t + 1`. */
    method TakeEqual(sct: array2<int>, t: nat, jlen: nat, kk0: nat, jj0: nat, kout0: nat, ghost from: nat,
            ghost list: seq<int>, ghost other: seq<int>)
      returns (kk: nat, jj: nat, kout: nat)
      requires t + 1 < sct.Length1 && |list| < sct.Length0 && t < y.Length && y[t] == |list|
      requires jlen <= rp.Length && rp[..jlen] == other
      requires Merging(list, from, kk0, other, jj0)
      requires Column(sct, t, list)
      requires kout0 <= kk0 && Column(sct, t + 1, Common(list[from..kk0], other))
      requires kout0 == |Common(list[from..kk0], other)|
      modifies sct
      ensures Merging(list, from, kk, other, jj) && kk0 <= kk && jj0 <= jj
      ensures kk0 < |list| && jj0 < |other| && list[kk0] == other[jj0] ==> kk0 < kk
      ensures kk - kk0 == jj - jj0 && (kk0 < kk ==> list[kk - 1] == other[jj - 1])
      ensures kout <= kk && kout == |Common(list[from..kk], other)|
      ensures Column(sct, t + 1, Common(list[from..kk], other))
      ensures OnlyColumn(sct, t + 1)
    {
      hide Common, Ascending, Merging;
      kk, jj, kout := kk0, jj0, kout0;
      MergingFits(list, from, kk, other, jj);
      while kk < y[t] && jj < jlen && rp[jj] == sct[kk, t]
        invariant Merging(list, from, kk, other, jj) && kk0 <= kk && jj0 <= jj
        invariant from <= kk <= |list| && jj <= |other|
        invariant kk - kk0 == jj - jj0 && (kk0 < kk ==> list[kk - 1] == other[jj - 1])
        invariant kout <= kk && kout == |Common(list[from..kk], other)|
        invariant Column(sct, t + 1, Common(list[from..kk], other))
        invariant OnlyColumn(sct, t + 1)
      {
        assert other[jj] == rp[..jlen][jj];
        MergingTakes(list, from, kk, other, jj);
        sct[kout, t + 1] := sct[kk, t];
        kout, kk, jj := kout + 1, kk + 1, jj + 1;
      }
    }

    method SkipOther(sct: array2<int>, t: nat, jlen: nat, kk: nat, jj0: nat, ghost from: nat, ghost list: seq<int>,
            ghost other: seq<int>)
      returns (jj: nat)
      requires Column(sct, t, list) && kk < |list| && jlen <= rp.Length && rp[..jlen] == other
      requires Merging(list, from, kk, other, jj0)
      ensures Merging(list, from, kk, other, jj) && jj0 <= jj
      ensures jj < jlen ==> list[kk] <= other[jj]
    {
      jj := jj0;
      while jj < jlen && rp[jj] < sct[kk, t]
        invariant jj0 <= jj && Merging(list, from, kk, other, jj)
      {
        assert rp[..jlen][jj] == other[jj];
        jj := jj + 1;
      }
      assert jj < jlen ==> rp[..jlen][jj] == other[jj];
    }

    /** Once `jj` has reached `jlen` this still reads `rp[jlen]`, whatever it holds, if there is such an entry. */
    method SkipList(sct: array2<int>, t: nat, jlen: nat, kk0: nat, jj: nat, ghost from: nat, ghost list: seq<int>,
            ghost other: seq<int>)
      returns (past: bool, kk: nat)
      requires Column(sct, t, list) && jlen <= rp.Length && rp[..jlen] == other
      requires t < y.Length && y[t] == |list| && kk0 < |list|
      requires Merging(list, from, kk0, other, jj)
      ensures past <==> jj == rp.Length
      ensures Merging(list, from, kk, other, jj) && kk0 <= kk
      ensures Common(list[from..kk], other) == Common(list[from..kk0], other)
      ensures !past && kk < |list| && jj < jlen ==> other[jj] <= list[kk]
    {
      hide Common, Ascending, Merging;
      kk := kk0;
      MergingFits(list, from, kk, other, jj);
      while kk < y[t]
        invariant kk0 <= kk && Merging(list, from, kk, other, jj) && (kk0 < kk ==> jj < rp.Length)
        invariant from <= kk <= |list| && jj <= |other|
        invariant Common(list[from..kk], other) == Common(list[from..kk0], other)
      {
        if jj >= rp.Length {
          return true, kk;
        }
        assert jj < jlen ==> rp[..jlen][jj] == other[jj];
        if rp[jj] <= sct[kk, t] {
          break;
        }
        MergingSkips(list, from, kk, other, jj);
        kk := kk + 1;
      }
      past := false;
    }

    /** The sorted intersection of column `t` from its cursor on with `rp[..jlen]`, into column `t + 1`. */
    method Intersect(sct: array2<int>, t: nat, jlen: nat, ghost list: seq<int>, ghost other: seq<int>)
      returns (past: bool, kout: nat)
      requires t + 1 < sct.Length1 && |list| < sct.Length0
      requires t < y.Length && t < cp.Length && y[t] == |list| && 0 <= cp[t] < |list|
      requires 0 < jlen <= rp.Length && rp[..jlen] == other
      requires Ascending(list) && Ascending(other) && Column(sct, t, list)
      modifies sct
      ensures past <==> jlen == rp.Length && RunsOff(list, cp[t], other)
      ensures !past ==> kout == |Common(list[cp[t]..], other)| && Column(sct, t + 1, Common(list[cp[t]..], other))
      ensures OnlyColumn(sct, t + 1)
    {
      hide Common, Ascending, RunsOff;
      kout := 0;
      ghost var from: nat := cp[t];
      var kk: nat, jj: nat := cp[t], 0;
      CommonNothing(list[from..from], other);
      while true
        invariant kk < |list| && jj < jlen && Merging(list, from, kk, other, jj)
        invariant kout <= kk && kout == |Common(list[from..kk], other)|
        invariant Column(sct, t, list) && Column(sct, t + 1, Common(list[from..kk], other))
        invariant OnlyColumn(sct, t + 1)
        decreases |list| - kk + jlen - jj
      {
        ghost var kk0, jj0 := kk, jj;
        jj := SkipOther(sct, t, jlen, kk, jj, from, list, other);
        past, kk := SkipList(sct, t, jlen, kk, jj, from, list, other);
        if past {
          WalkRunsOff(list, from, kk0, other, jj0);
          return;
        }
        kk, jj, kout := TakeEqual(sct, t, jlen, kk, jj, kout, from, list, other);
        if !(kk < y[t] && jj < jlen) {
          break;
        }
      }
      CommonDone(list, from, kk, other);
      if jlen == rp.Length {
        WalkStaysOn(list, from, kk, other, jj);
      }
    }

    /** The work arrays hold the search stack `st`: lengths in `y`, cursors in `cp`, lists in columns. */
    ghost predicate Holds(sct: array2<int>, st: seq<Level>)
      reads sct, y, cp
    {
      && Shaped(st) && |st| <= y.Length && |st| <= cp.Length
      && forall d :: 0 <= d < |st| ==>
           y[d] == |st[d].list| && cp[d] == st[d].cursor && Column(sct, d, st[d].list)
    }

    method SumColumn(sct: array2<int>, t: nat, lo: nat, hi: nat, ghost list: seq<int>) returns (tot: int)
      requires Column(sct, t, list) && lo <= hi == |list| && AllWithin(list, 0, |ct| - 1)
      ensures tot == Weight(ct, list[lo..])
    {
      tot := 0;
      for i := lo to hi
        invariant tot == Weight(ct, list[lo..i])
      {
        WeightSlice(ct, list, lo, i);
        tot := tot + ct[sct[i, t]];
      }
      assert list[lo..hi] == list[lo..];
    }

    method SumHeads(sct: array2<int>, b: nat, ghost st: seq<Level>) returns (tot: int)
      requires Holds(sct, st) && b <= |st| && AllWithin(Heads(st), 0, |ct| - 1)
      ensures tot == Weight(ct, Heads(st)[..b])
    {
      ghost var heads := Heads(st);
      tot := 0;
      for i := 0 to b
        invariant tot == Weight(ct, heads[..i])
      {
        assert Column(sct, i, st[i].list);
        assert heads[..i + 1][..i] == heads[..i];
        tot := tot + ct[sct[0, i]];
      }
    }

    method Value(sct: array2<int>, t: nat, b: nat, n: nat, ghost st: seq<Level>) returns (tot: int)
      requires Holds(sct, st) && t == |st| - 1 && LeafView(st, b, n)
      requires AllWithin(Leaf(st), 0, |ct| - 1) && AllWithin(st[t].list, 0, |ct| - 1)
      ensures tot == Weight(ct, Leaf(st))
    {
      hide Holds, LeafView, Heads, Leaf, Weight;
      HeldAt(sct, st, t);
      LeafViewed(st, b, n);
      HeadsOfLeaf(st);
      tot := SumColumn(sct, t, n - 1, y[t], st[t].list);
      var above := SumHeads(sct, b, st);
      WeightConcat(ct, Heads(st)[..b], st[t].list[n - 1..]);
      tot := tot + above;
    }

    lemma HeadsOfLeaf(st: seq<Level>)
      requires Shaped(st) && AllWithin(Leaf(st), 0, |ct| - 1)
      ensures AllWithin(Heads(st), 0, |ct| - 1)
    {
      assert forall d :: 0 <= d < |st| ==> Leaf(st)[d] == Heads(st)[d];
    }

    /** Keeps the leaf as the best clique so far, at the front of `rk`. */
    method Record(sct: array2<int>, t: nat, b: nat, n: nat, ghost st: seq<Level>)
      requires Apart() && Holds(sct, st) && t == |st| - 1 && LeafView(st, b, n)
      requires |Leaf(st)| <= rk.Length
      modifies rk
      ensures rk[..|Leaf(st)|] == Leaf(st)
    {
      hide Holds, LeafView, Heads, Leaf;
      HeldAt(sct, st, t);
      LeafViewed(st, b, n);
      RecordHeads(sct, b, st);
      RecordTail(sct, t, b, n - 1, y[t], st[t].list);
    }

    lemma HeldAt(sct: array2<int>, st: seq<Level>, d: nat)
      requires Holds(sct, st) && d < |st|
      ensures Shaped(st) && d < y.Length && y[d] == |st[d].list| && 0 < |st[d].list| && Column(sct, d, st[d].list)
      ensures Heads(st)[d] == st[d].list[0]
    {
    }

    lemma HeldShape(sct: array2<int>, st: seq<Level>)
      requires Holds(sct, st)
      ensures Shaped(st)
    {
    }

    method RecordHeads(sct: array2<int>, b: nat, ghost st: seq<Level>)
      requires Apart() && Holds(sct, st) && b <= |st| && b <= rk.Length
      modifies rk
      ensures rk[..b] == Heads(st)[..b]
    {
      hide Holds, Heads;
      HeldShape(sct, st);
      ghost var heads := Heads(st);
      for i := 0 to b
        invariant rk[..i] == heads[..i]
      {
        HeldAt(sct, st, i);
        rk[i] := sct[0, i];
      }
    }

    method RecordTail(sct: array2<int>, t: nat, b: nat, lo: nat, hi: nat, ghost list: seq<int>)
      requires Column(sct, t, list) && lo <= hi == |list| && b + hi - lo <= rk.Length
      modifies rk
      ensures rk[..b + hi - lo] == old(rk[..b]) + list[lo..]
    {
      ghost var heads := rk[..b];
      var rkIndex, i := b, lo;
      while i < hi
        invariant lo <= i <= hi && rkIndex == b + i - lo && rk[..rkIndex] == heads + list[lo..i]
      {
        rk[rkIndex] := sct[i, t];
        assert rk[..rkIndex + 1] == heads + list[lo..i] + [list[i]];
        assert list[lo..i + 1] == list[lo..i] + [list[i]];
        rkIndex, i := rkIndex + 1, i + 1;
      }
      assert rk[..rkIndex] == heads + list[lo..];
    }

    /** `rk` starts with a clique of weight `best`. */
    ghost predicate Recorded(c: seq<int>, best: int)
      reads this, rk
      requires |ct| == |ctp|
    {
      IsClique(ctp, c) && Weight(ct, c) == best && |c| <= rk.Length && rk[..|c|] == c
    }

    /** No clique fills the work arrays. */
    ghost predicate CliquesFit()
      reads this
    {
      forall c :: IsClique(ctp, c) ==> |c| < y.Length
    }

    /** Room for the search below `root`: each level down loses at least one candidate. */
    ghost predicate Roomy(sct: array2<int>, st: seq<Level>, root: nat)
      reads this
    {
      && root < |ctp| && |ctp[root]| <= |ctp| < sct.Length0 && |ctp| < sct.Length1
      && CliquesFit() && y.Length == cp.Length == rp.Length == rk.Length
      && forall d :: 0 <= d < |st| ==> |st[d].list| + d <= |ctp[root]|
    }

    method CopyChain(k: nat) returns (past: bool, jlen: nat)
      requires Apart() && Tabled() && k < |ctp|
      modifies rp
      ensures jlen == |ctp[k]| && (past <==> jlen > rp.Length)
      ensures !past ==> rp[..jlen] == ctp[k]
    {
      jlen := ctt[k] + 1;
      for i := 0 to jlen
        invariant i <= rp.Length && rp[..i] == ctp[k][..i]
      {
        if i >= rp.Length {
          return true, jlen;
        }
        rp[i] := ctp[k][i];
      }
      past := false;
    }

    /** One step down: intersect, then enter the new level, unless that leaves the work arrays. */
    method Deepen(sct: array2<int>, t: nat, root: nat, ghost st: seq<Level>)
      returns (past: bool, ghost st': seq<Level>)
      requires Apart() && Tabled() && Roomy(sct, st, root) && StackOk(ctp, st) && Holds(sct, st) && t == |st| - 1
      requires Complete(ctp, st) && y[t] - cp[t] > 1
      modifies sct, rp, cp, y
      ensures past <==> Overruns(ctp, Heads(st) + [st[t].list[st[t].cursor]], rp.Length)
      ensures !past ==>
        && st' == Descend(ctp, st) && StackOk(ctp, st') && Holds(sct, st') && Roomy(sct, st', root)
        && |st'| == t + 2 && st'[t + 1].cursor == 1
    {
      hide IsChains, StackOk, IsClique, Under, LevelOk, Common, Ascending, Weight, Complete, Overruns, Heads,
        CliquesFit;
      Candidate(ctp, st);
      DescendIsOk(ctp, st);
      LevelRoom(st);
      CandidateOverruns(ctp, st, rp.Length);
      st' := Descend(ctp, st);
      ghost var list := st[t].list;
      assert Column(sct, t, list);
      var k := sct[cp[t], t];
      var jlen, kout;
      past, jlen := CopyChain(k);
      if past {
        return;
      }
      past, kout := Intersect(sct, t, jlen, list, ctp[k]);
      TailEnds(list, cp[t]);
      if past {
        return;
      }
      cp[t + 1] := 1;
      y[t + 1] := kout;
    }

    /** The vertices chosen are a clique, so one more level fits. */
    lemma LevelRoom(st: seq<Level>)
      requires StackOk(ctp, st) && CliquesFit()
      ensures |st| < y.Length
    {
      HeadsAreClique(ctp, st);
    }

    lemma LeafRoom(st: seq<Level>)
      requires CliquesFit() && Shaped(st) && IsClique(ctp, Leaf(st))
      ensures |Leaf(st)| < y.Length
    {
    }

    lemma LeafFacts(st: seq<Level>)
      requires Tabled() && StackOk(ctp, st) && |st[|st| - 1].list| - st[|st| - 1].cursor <= 1
      ensures Shaped(st) && IsClique(ctp, Leaf(st)) && AllWithin(Leaf(st), 0, |ct| - 1)
      ensures AllWithin(st[|st| - 1].list, 0, |ct| - 1)
    {
      LeafIsClique(ctp, st);
      assert LevelOk(ctp, st[|st| - 1]);
    }

    /** Values the leaf and keeps it when it is heavier than the best so far. */
    method Consider(sct: array2<int>, t: nat, b: nat, n: nat, score: int, ghost root: nat, ghost st: seq<Level>,
            ghost best: seq<int>)
      returns (score': int, ghost best': seq<int>)
      requires Apart() && Tabled() && StackOk(ctp, st) && Holds(sct, st) && t == |st| - 1 && LeafView(st, b, n)
      requires |st[t].list| - st[t].cursor <= 1 && Roomy(sct, st, root)
      requires Recorded(best, score)
      modifies rk
      ensures score <= score' && Recorded(best', score') && (best' == best || best' == Leaf(st))
      ensures IsClique(ctp, Leaf(st)) && Weight(ct, Leaf(st)) <= score'
    {
      hide IsChains, StackOk, Under, Holds, Weight, IsClique, LeafView, Shaped, Leaf, CliquesFit;
      LeafFacts(st);
      LeafRoom(st);
      var tot := Value(sct, t, b, n, st);
      score', best' := score, best;
      if tot > score {
        Record(sct, t, b, n, st);
        score', best' := tot, Leaf(st);
      }
    }

    /** One step up: the level above moves its cursor past the candidate just searched. */
    method Ascend(sct: array2<int>, t: nat, root: nat, ghost st: seq<Level>) returns (ghost st': seq<Level>)
      requires Apart() && StackOk(ctp, st) && Holds(sct, st) && Roomy(sct, st, root) && t + 1 == |st| - 1
      modifies cp
      ensures st' == Pop(st) && StackOk(ctp, st') && Holds(sct, st') && Roomy(sct, st', root)
      ensures |st'| == t + 1 && st'[t].cursor < |st'[t].list|
    {
      hide StackOk, CliquesFit;
      PopIsOk(ctp, st);
      st' := Pop(st);
      cp[t] := cp[t] + 1;
    }

    lemma NothingFits()
      requires CliquesFit()
      ensures 0 < y.Length
    {
      assert IsClique(ctp, []);
    }

    lemma StartIsWatched(root: nat)
      requires Tabled() && root < |ctp|
      ensures var st := [Level(ctp[root], 1)];
        StackOk(ctp, st) && Shaped(st) && Watched(st, root) && forall best :: Settled(ct, ctp, st, root, best)
    {
      hide IsClique, Under, LevelOk, Pending;
      StartIsOk(ctp, root);
      StartIsComplete(ctp, root);
      StartIsGuarded(ctp, root, rp.Length);
    }

    method EnterRoot(sct: array2<int>, root: nat)
      requires Apart() && Tabled() && root < |ctp| && Roomy(sct, [Level(ctp[root], 1)], root)
      modifies sct, cp, y
      ensures StackOk(ctp, [Level(ctp[root], 1)]) && Holds(sct, [Level(ctp[root], 1)])
      ensures forall best :: Settled(ct, ctp, [Level(ctp[root], 1)], root, best)
      ensures Watched([Level(ctp[root], 1)], root)
    {
      hide IsChains, IsClique, StackOk, Settled, Watched;
      StartIsWatched(root);
      assert 0 < y.Length by { NothingFits(); }
      var lim0 := ctt[root] + 1;
      for i := 0 to lim0
        invariant Column(sct, 0, ctp[root][..i])
      {
        sct[i, 0] := ctp[root][i];
      }
      assert ctp[root][..lim0] == ctp[root];
      y[0] := lim0;
      cp[0] := 1;
    }

    /** Every level is complete, and what would overrun the arrays below `root` is still ahead. */
    ghost predicate Watched(st: seq<Level>, root: nat)
      reads this
    {
      && IsChains(ctp) && StackOk(ctp, st) && Complete(ctp, st) && Guarded(ctp, st, root, rp.Length)
      && root < |ctp| && st[0].list == ctp[root]
    }

    /** The state between two steps of the search below `root`. */
    ghost predicate Searching(sct: array2<int>, root: nat, t: int, b: int, n: int, score: int, st: seq<Level>,
            best: seq<int>)
      reads this, sct, y, cp, rk
    {
      && Tabled() && StackOk(ctp, st) && Holds(sct, st) && Roomy(sct, st, root) && t == |st| - 1
      && Settled(ct, ctp, st, root, score) && Recorded(best, score)
      && Watched(st, root) && (best == [] || best[0] <= root)
      && (|| (b == t && n == 1 && st[t].cursor == 1)
          || (b == t + 1 && n == |st[t].list| && st[t].cursor < n))
    }

    /** Two or more candidates left: descend, unless that leaves the work arrays. */
    method StepDown(sct: array2<int>, root: nat, t: int, b: int, n: int, score: int, ghost st: seq<Level>,
            ghost best: seq<int>)
      returns (past: bool, ghost st': seq<Level>)
      requires Apart() && Searching(sct, root, t, b, n, score, st, best)
      requires y[t] - cp[t] > 1
      modifies sct, rp, cp, y
      ensures past ==> exists c :: Overruns(ctp, c, rp.Length) && c[0] == root
      ensures !past ==>
        Searching(sct, root, t + 1, t + 1, 1, score, st', best) && Remaining(ctp, st') < Remaining(ctp, st)
    {
      hide IsChains, StackOk, Under, LevelOk, IsClique, Weight, Settled, Remaining, Complete, Guarded, Overruns, Heads,
        CliquesFit;
      DescendShrinks(ctp, st);
      DescendKeepsSettled(ct, ctp, st, root, score);
      DescendIsOk(ctp, st);
      RootHeads(st, root);
      ghost var c := Heads(st) + [st[t].list[st[t].cursor]];
      assert c[0] == root;
      past, st' := Deepen(sct, t, root, st);
      if !past {
        DescendIsComplete(ctp, st);
        DescendKeepsGuard(ctp, st, root, rp.Length);
      }
    }

    lemma RootHeads(st: seq<Level>, root: nat)
      requires Watched(st, root)
      ensures Shaped(st) && |Heads(st)| > 0 && Heads(st)[0] == root
      ensures st[|st| - 1].cursor < |st[|st| - 1].list| || |Leaf(st)| == |st|
      ensures Leaf(st) != [] && Leaf(st)[0] == root
    {
    }

    /** At most one candidate left: value the leaf and go back up. */
    method StepUp(sct: array2<int>, root: nat, t: int, b: int, n: int, score: int, ghost st: seq<Level>,
            ghost best: seq<int>)
      returns (t': int, b': int, n': int, score': int, ghost st': seq<Level>, ghost best': seq<int>)
      requires Apart() && Searching(sct, root, t, b, n, score, st, best)
      requires y[t] - cp[t] <= 1
      modifies cp, rk
      ensures t' == t - 1 && score <= score' && Recorded(best', score') && (best' == [] || best'[0] <= root)
      ensures t' >= 0 ==>
        Searching(sct, root, t', b', n', score', st', best') && Remaining(ctp, st') < Remaining(ctp, st)
      ensures t' < 0 ==> RootDone(root, score')
    {
      hide IsChains, StackOk, Under, LevelOk, IsClique, Weight, Settled, Remaining, Complete, Guarded, Overruns, Heads,
        Leaf, CliquesFit;
      RootHeads(st, root);
      score', best' := Consider(sct, t, b, n, score, root, st, best);
      LeafSettles(ct, ctp, st, root, score, score');
      LeafKeepsGuard(ctp, st, root, rp.Length);
      b' := t;
      t' := t - 1;
      n', st' := n, st;
      if t' >= 0 {
        PopShrinks(ctp, st);
        PopIsComplete(ctp, st);
        st' := Ascend(sct, t', root, st);
        n' := y[t'];
      }
    }

    /** No clique of the root outweighs the score, and none of them takes the search out of the arrays. */
    ghost predicate RootDone(root: nat, score: int)
      reads this
      requires |ct| == |ctp| && IsChains(ctp)
    {
      && (forall c :: IsClique(ctp, c) && c != [] && c[0] == root ==> Weight(ct, c) <= score)
      && forall c :: Overruns(ctp, c, rp.Length) ==> c[0] != root
    }

    /** The search for one root: afterwards no clique rooted there outweighs the score. */
    method SearchRoot(sct: array2<int>, root: nat, score: int, ghost best: seq<int>)
      returns (past: bool, score': int, ghost best': seq<int>)
      requires Apart() && Tabled() && root < |ctp| && Roomy(sct, [Level(ctp[root], 1)], root)
      requires Recorded(best, score) && (best == [] || best[0] < root)
      modifies sct, rp, cp, y, rk
      ensures past <==> exists c :: Overruns(ctp, c, rp.Length) && c[0] == root
      ensures score <= score' && Recorded(best', score') && (best' == [] || best'[0] <= root)
      ensures !past ==> RootDone(root, score')
    {
      hide IsChains, StackOk, IsClique, Weight, Settled, Remaining, Watched, Overruns, CliquesFit;
      ghost var st := [Level(ctp[root], 1)];
      EnterRoot(sct, root);
      var t, b, n := 0, 0, 1;
      score', best' := score, best;
      assert Searching(sct, root, t, b, n, score', st, best');
      while true
        invariant Searching(sct, root, t, b, n, score', st, best') && score <= score'
        decreases Remaining(ctp, st)
      {
        if y[t] - cp[t] > 1 {
          past, st := StepDown(sct, root, t, b, n, score', st, best');
          if past {
            return;
          }
          t := t + 1;
          b, n := t, 1;
        } else {
          t, b, n, score', st, best' := StepUp(sct, root, t, b, n, score', st, best');
        }
        if t < 0 {
          break;
        }
      }
      past := false;
    }

    /** The roots before `done`: none outweighs the score, and none that was entered leaves the arrays. */
    ghost predicate RootsDone(done: nat, score: int, best: seq<int>)
      reads this
      requires |ct| == |ctp| && IsChains(ctp)
    {
      && (forall c :: IsClique(ctp, c) && c != [] && c[0] < done ==> Weight(ct, c) <= score)
      && (forall c :: Overruns(ctp, c, rp.Length) && c[0] < done ==> !Entered(ct, ctp, c[0]))
      && IsClique(ctp, best) && Weight(ct, best) == score && (best == [] || best[0] < done) && score >= 0
    }

    lemma NoRootsDone()
      requires Tabled()
      ensures RootsDone(0, 0, []) && Recorded([], 0)
    {
    }

    /** A root is entered exactly when its total beats the score. */
    lemma RootIsEntered(root: nat, score: int, best: seq<int>)
      requires Tabled() && root < |ct| && RootsDone(root, score, best)
      ensures Entered(ct, ctp, root) <==> score < gct[root]
    {
      hide IsChains, IsClique, Overruns;
      EnteredIffHeavier(ct, ctp, root, best, score);
    }

    lemma RootSkipped(root: nat, score: int, best: seq<int>)
      requires Tabled() && root < |ct| && RootsDone(root, score, best) && score >= gct[root]
      ensures RootsDone(root + 1, score, best)
    {
      hide Overruns, Entered;
      RootIsEntered(root, score, best);
      forall c | IsClique(ctp, c) && c != [] && c[0] == root ensures Weight(ct, c) <= score {
        ChainBoundsItsCliques(ct, ctp, c);
      }
    }

    lemma RootSearched(root: nat, score: int, best: seq<int>, score': int, best': seq<int>)
      requires Tabled() && root < |ctp| && RootsDone(root, score, best) && score <= score'
      requires IsClique(ctp, best') && Weight(ct, best') == score' && (best' == [] || best'[0] <= root)
      requires RootDone(root, score')
      ensures RootsDone(root + 1, score', best')
    {
      hide IsChains, Overruns, Entered;
    }

    lemma AllRootsDone(score: int, best: seq<int>)
      requires Tabled() && RootsDone(|ct|, score, best) && Recorded(best, score)
      ensures IsMaximumClique(ct, ctp, best, score) && best <= rk[..]
      ensures !Overrun(ct, ctp, rp.Length)
    {
      hide IsChains, Entered;
      assert best == rk[..|best|];
      forall c | IsClique(ctp, c) ensures Weight(ct, c) <= score {
        assert c != [] ==> c[0] < |ct|;
      }
    }

    lemma ChainFits(root: nat)
      requires Tabled() && root < |ctp|
      ensures |ctp[root]| <= |ctp|
    {
      AscendingIsShort(ctp[root], root, |ctp| - 1);
    }

    /** The search of an entered root has left the arrays. */
    lemma RootOverruns(root: nat, score: int, best: seq<int>)
      requires Tabled() && root < |ct| && RootsDone(root, score, best) && score < gct[root]
      requires exists c :: Overruns(ctp, c, rp.Length) && c[0] == root
      ensures Overrun(ct, ctp, rp.Length)
    {
      hide IsChains, Overruns, Entered;
      RootIsEntered(root, score, best);
    }

    /**
     * The heaviest set of pairwise compatible clusters, and its weight, unless the search leaves the work
     * arrays; it does so exactly when `Overrun` says so of the graph.
     */
    method FinalLoop(tp: nat) returns (past: bool, score: int, ghost best: seq<int>)
      requires Apart() && Tabled() && tp == |ct|
      requires y.Length == cp.Length == rp.Length == rk.Length && CliquesFit()
      modifies rp, cp, y, rk
      ensures past <==> Overrun(ct, ctp, rp.Length)
      ensures !past ==> IsMaximumClique(ct, ctp, best, score) && best <= rk[..]
    {
      hide IsClique, IsChains, Weight, IsMaximumClique, RootsDone, Overrun, Overruns, RootDone, CliquesFit;
      var cap := if tp + 2 > 2 then tp + 2 else 2;
      var sct := new int[cap, cap]((i, j) => 0);
      score, best := 0, [];
      NoRootsDone();
      for ii := 0 to tp
        invariant RootsDone(ii, score, best) && Recorded(best, score) && (best == [] || best[0] < ii)
      {
        if score >= gct[ii] {
          RootSkipped(ii, score, best);
          continue;
        }
        ghost var before, best0 := score, best;
        ChainFits(ii);
        past, score, best := SearchRoot(sct, ii, score, best);
        if past {
          RootOverruns(ii, before, best0);
          return;
        }
        RootSearched(ii, before, best0, score, best);
      }
      AllRootsDone(score, best);
      past := false;
    }

    // --- The whole run --------------------------------------------------------------------------

    /** Where the sweep over the seeds, which comes to `e`, has got to. */
    ghost predicate Sweeping(e: Ending, s: Search, tp: int, score: int, k: nat, t: Table, pr: Prints)
      reads this, sc, cp, rp, tq, rq, zz, rk, y, qq, rx, mm, nn, cf, rf
    {
      Idle(s, tp, score, t, pr) && SweepOk(s, t, pr) && e == Sweep(s, t, pr, k)
    }

    lemma IdleFits(s: Search, tp: int, score: int, t: Table, pr: Prints)
      requires Idle(s, tp, score, t, pr)
      ensures SweepOk(s, t, pr) && clusters == s.clusters && sc[..] == s.w.sc && |t.rows| < sc.Length
      ensures Tabulated(pr.angle, |clusters|, score) && tp == |clusters|
    {
    }

    /** What the sweep comes to, and what it leaves in the tables. */
    ghost predicate SweepEnds(e: Ending, overflow: bool, tp: int, score: int, pr: Prints)
      reads this
    {
      && overflow == e.QueueFull?
      && (!overflow ==> clusters == e.s.clusters && Tabulated(pr.angle, |clusters|, score) && tp == |clusters|)
    }

    /** Seeds every row that no path has used yet, all but the last row of the table. */
    method SweepSeeds(colp: seq<ColpRow>, np: nat, pr: Prints, ghost t: Table, ghost s0: Search)
      returns (overflow: bool, tp: nat, score: int, ghost e: Ending)
      requires Reads(colp, t) && np == |t.rows| && Idle(s0, 0, 0, t, pr) && s0.ftt == 0
      modifies this, y, rk, sc, qq, zz, tq, rq, cp, rp, cf, rf, mm, nn, rx, rr
      ensures SweepOk(s0, t, pr) && e == Sweep(s0, t, pr, 0) && SweepEnds(e, overflow, tp, score, pr)
    {
      hide Reads, Idle, SweepOk, Sweep, SeedOf, Tabulated, Seeking, Sized;
      IdleFits(s0, 0, 0, t, pr);
      ghost var s := s0;
      e := Sweep(s, t, pr, 0);
      var ftt;
      tp, score, ftt, overflow := 0, 0, 0, false;
      var k, full := 0, false;
      while k + 1 < np
        invariant !overflow && Sweeping(e, s, tp, score, k, t, pr) && ftt == s.ftt
      {
        IdleFits(s, tp, score, t, pr);
        assert sc[k] == s.w.sc[k];
        if sc[k] != 0 {
          SweepSkips(s, t, pr, k);
        } else {
          ghost var e1;
          overflow, full, ftt, tp, score, e1 := RunSeed(colp, np, k, ftt, tp, pr, score, t, s);
          SweepAfterSeed(e, e1, s, overflow, full, ftt, tp, score, k, t, pr);
          if overflow || full {
            return;
          }
          s := e1.s;
        }
        k := k + 1;
      }
      SweepDone(s, t, pr, k);
      IdleFits(s, tp, score, t, pr);
    }

    lemma SweepAfterSeed(e: Ending, e1: Ending, s: Search, overflow: bool, full: bool, ftt: int, tp: int, score: int,
            k: nat, t: Table, pr: Prints)
      requires SweepOk(s, t, pr) && k + 1 < |t.rows| && k < |s.w.sc| && s.w.sc[k] == 0 && e == Sweep(s, t, pr, k)
      requires SeedOf(e1, s, t, pr, k) && SeedEnds(e1, overflow, full, ftt, tp, score, t, pr)
      ensures overflow || full ==> SweepEnds(e, overflow, tp, score, pr)
      ensures !overflow && !full ==> e1.Finished? && Sweeping(e, e1.s, tp, score, k + 1, t, pr) && e1.s.ftt == ftt
    {
      hide SweepOk, SeedOf, Tabulated, Sized, Apart, InUse, SearchState, Sweep;
      if e1.Finished? {
        IdleFits(e1.s, tp, score, t, pr);
      }
      SweepPlants(s, t, pr, k, e1);
    }

    constructor (np: nat, n: nat)
      ensures Sized() && Apart() && nend == n && InUse(0, 1, 0)
      ensures fresh({sc, cp, rp, tq, rq, zz, rk, y, qq, rx, mm, nn, rr}) && fresh({cf, rf})
      ensures sc.Length == (if np > n then np else n) + 2
      ensures IsBlank() && IsEmptyTab()
    {
      var big := (if np > n then np else n) + 2;
      nend := n;
      var sc0, cp0, rp0, tq0 := FourZeroed(big);
      sc, cp, rp, tq := sc0, cp0, rp0, tq0;
      var rq0, rk0, y0, _ := FourZeroed(big);
      var zz1 := Filled(big, 1000);
      rq, rk, y, zz := rq0, rk0, y0, zz1;
      var rx0, mm0, nn0, rr0 := FourZeroed(64);
      rx, mm, nn, rr := rx0, mm0, nn0, rr0;
      var qq0 := Filled(QQ_SIZE + 2, 0);
      qq := qq0;
      cf := new int[64, n + 2];
      rf := new int[64, n + 2];
      avv, ct, gct, ctt, ctp, yy := [], [], [], [], [], [];
      clusters := [];
    }

    /** The work arrays as their constructor fills them. */
    ghost predicate IsBlank()
      reads sc, cp, rp, tq, rq, rk, zz, qq
    {
      && qq.Length > 0 && qq[0] == 0
      && (forall i :: 0 <= i < sc.Length ==> sc[i] == 0) && (forall i :: 0 <= i < rk.Length ==> rk[i] == 0)
      && (forall i :: 0 <= i < cp.Length ==> cp[i] == 0) && (forall i :: 0 <= i < rp.Length ==> rp[i] == 0)
      && (forall i :: 0 <= i < tq.Length ==> tq[i] == 0) && (forall i :: 0 <= i < rq.Length ==> rq[i] == 0)
      && (forall i :: 0 <= i < zz.Length ==> zz[i] == 1000)
    }

    lemma BlankIsInitial()
      requires Sized() && InUse(0, 1, 0) && IsBlank() && IsEmptyTab()
      ensures SearchState(0, 1, 0, 0, []) == Initial(sc.Length)
    {
      var zeros := seq(sc.Length, _ => 0);
      assert sc[..] == zeros && cp[..] == zeros && rp[..] == zeros;
      assert tq[..] == zeros && rq[..] == zeros && rk[..] == zeros;
      assert zz[..] == seq(sc.Length, _ => 1000) && qq[..1] == [0] && y[..0] == [];
    }

    ghost predicate IsEmptyTab()
      reads this
    {
      Tab() == Tables([], [], [], [], [], []) && clusters == []
    }

    lemma StartsIdle(t: Table, pr: Prints)
      requires Sized() && Apart() && InUse(0, 1, 0) && IsBlank() && IsEmptyTab()
      requires TableOk(t) && PrintsFit(t, pr) && t.nend == nend && |t.rows| < sc.Length
      ensures Idle(Initial(sc.Length), 0, 0, t, pr) && Initial(sc.Length).ftt == 0
    {
      BlankIsInitial();
      InitialIsOk(sc.Length, t, pr);
    }

    /** Whole tables are the chains and weights of the cluster graph. */
    lemma TabulatedIsTabled(angle: (int, int) -> int, score: int)
      requires Tabulated(angle, |clusters|, score)
      ensures Tabled() && ct == Counts(clusters) && ctp == Chains(clusters, angle) && score == BestChain(ct, ctp, |ct|)
    {
      hide Chain, Compatible, Weight, BestChain;
      forall i | 0 <= i < |clusters|
        ensures ctp[i] == Chain(clusters, angle, i, |clusters|) && gct[i] == Weight(ct, ctp[i])
      {
        assert ChainAt(Tab(), clusters, angle, |clusters|, i);
      }
      forall i | 0 <= i < |clusters| ensures ctt[i] + 1 == |ctp[i]| {
        assert FactsAt(Tab(), clusters, i);
      }
      ChainsAreChains(clusters, angle);
      assert ctp == Chains(clusters, angle);
      BestIsBestChain(ct, ctp, gct, score);
    }

    /** Below the threshold the heaviest chain is already the heaviest clique. */
    lemma EarlyScore(score: int, t: Table, angle: (int, int) -> int)
      requires Tabulated(angle, |clusters|, score) && ClustersOk(clusters, t) && score < MMSTR
      ensures IsScore(clusters, angle, score) && forall size: nat :: !LeavesArrays(clusters, angle, size)
    {
      hide Describes, IsBest, Chain, Compatible, IsMaximumClique, IsClique, IsScore, BestChain, Overrun;
      TabulatedIsTabled(angle, score);
      EnoughEdges(clusters, t);
      var c := EarlyExitIsExact(ct, ctp);
      MaximumIsScore(clusters, angle, c, score);
      forall size: nat ensures !Overrun(ct, ctp, size) {
        LightGraphsStayInside(ct, ctp, size);
      }
    }

    /** A clique of clusters is shorter than the work arrays: each cluster has three edges of its own. */
    lemma CliquesAreShort(t: Table, angle: (int, int) -> int)
      requires ct == Counts(clusters) && ctp == Chains(clusters, angle) && ClustersOk(clusters, t)
      requires |t.rows| < y.Length
      ensures CliquesFit()
    {
      EnoughEdges(clusters, t);
      hide IsClique, Chains, Counts, ClustersOk;
      forall c | IsClique(ctp, c) ensures |c| < y.Length {
        CliqueIsShort(clusters, t, angle, c);
      }
    }

    /** The score of the clusters formed, whichever way it is come by, unless the final loop leaves the arrays. */
    method ScoreClusters(tp: nat, score: int, ghost t: Table, ghost pr: Prints) returns (v: Verdict)
      requires Sized() && Apart() && Tabulated(pr.angle, |clusters|, score) && tp == |clusters|
      requires ClustersOk(clusters, t) && |t.rows| < sc.Length
      modifies rp, cp, y, rk
      ensures !v.QueueOverflowed? && (v.OutOfRange? <==> LeavesArrays(clusters, pr.angle, sc.Length))
      ensures v.Scored? ==> IsScore(clusters, pr.angle, v.score)
    {
      hide Chain, IsMaximumClique, IsScore, Tabulated, BestChain, Apart, Weight, IsChains, ClustersOk, CliquesFit,
        Overrun;
      TabulatedIsTabled(pr.angle, score);
      if score < MMSTR {
        EarlyScore(score, t, pr.angle);
        return Scored(score);
      }
      ghost var cs := clusters;
      CliquesAreShort(t, pr.angle);
      var past, total;
      ghost var best;
      past, total, best := FinalLoop(tp);
      if past {
        return OutOfRange;
      }
      MaximumIsScore(cs, pr.angle, best, total);
      v := Scored(total);
    }

    /** The match score of a sorted compatibility table. */
    method Run(colp: seq<ColpRow>, np: nat, pr: Prints, ghost t: Table) returns (v: Verdict, ghost e: Ending)
      requires Sized() && Apart() && InUse(0, 1, 0) && IsBlank() && IsEmptyTab()
      requires Reads(colp, t) && np == |t.rows| < sc.Length && PrintsFit(t, pr)
      modifies this, y, rk, sc, qq, zz, tq, rq, cp, rp, cf, rf, mm, nn, rx, rr
      ensures SweepOk(Initial(sc.Length), t, pr) && e == Sweep(Initial(sc.Length), t, pr, 0)
      ensures v.QueueOverflowed? <==> e.QueueFull?
      ensures v.OutOfRange? <==> !e.QueueFull? && LeavesArrays(e.s.clusters, pr.angle, sc.Length)
      ensures v.Scored? ==> IsScore(e.s.clusters, pr.angle, v.score)
    {
      hide Idle, SweepOk, Sweep, Tabulated, Initial, LeavesArrays, IsScore, PrintsFit, SearchState, IsEmptyTab, IsBlank,
        TableOk, Ordered;
      assert TableOk(t);
      StartsIdle(t, pr);
      IdleFits(Initial(sc.Length), 0, 0, t, pr);
      var overflow, tp, score;
      overflow, tp, score, e := SweepSeeds(colp, np, pr, t, Initial(sc.Length));
      if overflow {
        return QueueOverflowed, e;
      }
      SweepKeepsClusters(Initial(sc.Length), t, pr, 0);
      v := ScoreClusters(tp, score, t, pr);
    }
  }
  function Larger(a: nat, b: nat): (r: nat)
    ensures r >= a && r >= b && (r == a || r == b)
  {
    if a > b then a else b
  }

  /** The length of the work arrays for a table. */
  function ArraySize(t: Table): (r: nat) {
    Larger(|t.rows|, t.nend) + 2
  }

  /** What the search from every seed of the table comes to, starting with clean work arrays. */
  ghost function SearchOf(t: Table, pr: Prints): (e: Ending)
    requires TableOk(t) && PrintsFit(t, pr)
  {
    InitialIsOk(ArraySize(t), t, pr);
    Sweep(Initial(ArraySize(t)), t, pr, 0)
  }

  /** `v` is the answer to a search that ended with `e`, in work arrays of length `big`. */
  ghost predicate Answers(e: Ending, angle: (int, int) -> int, big: nat, v: Verdict) {
    match v
    case QueueOverflowed => e.QueueFull?
    case OutOfRange => !e.QueueFull? && LeavesArrays(e.s.clusters, angle, big)
    case Scored(n) =>
      !e.QueueFull? && !LeavesArrays(e.s.clusters, angle, big) && IsScore(e.s.clusters, angle, n)
  }

  ghost predicate Computable(pr: Prints) {
    |pr.probe.x| >= MIN_COMPUTABLE_BOZORTH_MINUTIAE && |pr.gallery.x| >= MIN_COMPUTABLE_BOZORTH_MINUTIAE
  }

  function TableOf(rows: seq<ColpRow>, pr: Prints): (t: Table) {
    Table(rows, Larger(|pr.probe.x|, |pr.gallery.x|))
  }

  /** The search alone: a new set of work arrays, every seed, and the heaviest clique. */
  method Match(rows: seq<ColpRow>, nend: nat, pr: Prints) returns (v: Verdict)
    requires var t := Table(rows, nend); Ordered(rows) && TableOk(t) && PrintsFit(t, pr)
    ensures var t := Table(rows, nend); Answers(SearchOf(t, pr), pr.angle, ArraySize(t), v)
  {
    ghost var t := Table(rows, nend);
    hide IsScore, LeavesArrays, Sweep, Initial, Ordered, TableOk, PrintsFit, Bz.Sized, Bz.Apart, Bz.InUse, Bz.IsBlank,
      Bz.IsEmptyTab, SweepOk;
    var bz := new Bz(|rows|, nend);
    ghost var e;
    v, e := bz.Run(rows + [SENTINEL], |rows|, pr, t);
  }

  /** The match score for a sorted compatibility table; prints too small to compare score zero. */
  method MatchScore(rows: seq<ColpRow>, pr: Prints) returns (v: Verdict)
    requires Ordered(rows) && TableOk(TableOf(rows, pr)) && PrintsFit(TableOf(rows, pr), pr)
    ensures !Computable(pr) ==> v == Scored(ZERO_MATCH_SCORE)
    ensures Computable(pr) ==> Answers(SearchOf(TableOf(rows, pr), pr), pr.angle, ArraySize(TableOf(rows, pr)), v)
    ensures v.Scored? ==> 0 <= v.score <= |rows|
  {
    if |pr.probe.x| < MIN_COMPUTABLE_BOZORTH_MINUTIAE || |pr.gallery.x| < MIN_COMPUTABLE_BOZORTH_MINUTIAE {
      return Scored(ZERO_MATCH_SCORE);
    }
    hide SearchOf, Answers, TableOk, PrintsFit, Ordered;
    v := Match(rows, Larger(|pr.probe.x|, |pr.gallery.x|), pr);
    AnswerIsBounded(TableOf(rows, pr), pr, v);
  }

  lemma SearchKeepsClusters(t: Table, pr: Prints)
    requires TableOk(t) && PrintsFit(t, pr)
    ensures var e := SearchOf(t, pr); !e.QueueFull? ==> ClustersOk(e.s.clusters, t)
  {
    InitialIsOk(ArraySize(t), t, pr);
    SweepKeepsClusters(Initial(ArraySize(t)), t, pr, 0);
  }

  /**
   * Work arrays longer than the number of clusters allowed are never left: those of every table of at least
   * 1998 rows, or of prints of so many minutiae.
   */
  lemma LongArraysAreKept(t: Table, pr: Prints)
    requires TableOk(t) && PrintsFit(t, pr) && ArraySize(t) > MAX_CLUSTERS
    ensures !Answers(SearchOf(t, pr), pr.angle, ArraySize(t), OutOfRange)
  {
    hide IsScore, TableOk, PrintsFit, LeavesArrays, Sweep;
    InitialIsOk(ArraySize(t), t, pr);
    SweepFormsFew(Initial(ArraySize(t)), t, pr, 0);
    var e := SearchOf(t, pr);
    if !e.QueueFull? { FewClustersStay(e.s.clusters, pr.angle, ArraySize(t)); }
  }

  /** No answer counts more edges than the table has. */
  lemma AnswerIsBounded(t: Table, pr: Prints, v: Verdict)
    requires TableOk(t) && PrintsFit(t, pr) && Answers(SearchOf(t, pr), pr.angle, ArraySize(t), v)
    ensures v.Scored? ==> 0 <= v.score <= |t.rows|
  {
    hide SearchOf, IsScore, TableOk, PrintsFit, LeavesArrays;
    SearchKeepsClusters(t, pr);
    if v.Scored? {
      ScoreIsBounded(SearchOf(t, pr).s.clusters, t, pr.angle, v.score);
    }
  }

  /** The table and the prints determine the answer: exactly one verdict is right. */
  lemma OneAnswer(e: Ending, angle: (int, int) -> int, big: nat, a: Verdict, b: Verdict)
    requires Answers(e, angle, big, a) && Answers(e, angle, big, b)
    ensures a == b
  {
    hide IsScore, LeavesArrays;
    if a.Scored? && b.Scored? {
      ScoreIsUnique(e.s.clusters, angle, a.score, b.score);
    }
  }
}
