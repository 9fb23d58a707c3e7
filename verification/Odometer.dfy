/**
 * The mixed-radix odometer over the conflict groups: it steps to the next combination of selected
 * alternatives that can be added to the pairing, undoing each attempt that cannot.
 */
module Odometer {
  import opened Consts
  import opened Seqs
  import opened Paths

  /** The (probe, gallery) pair a group's current selection stands for. */
  function Probe(g: Group): (p: int)
    requires 1 <= g.pick <= |g.alts|
  {
    if g.ofProbe then g.end else g.alts[g.pick - 1]
  }

  function Gallery(g: Group): (p: int)
    requires 1 <= g.pick <= |g.alts|
  {
    if g.ofProbe then g.alts[g.pick - 1] else g.end
  }

  ghost predicate AllOk(groups: seq<Group>, nend: nat) {
    |groups| <= WWIM + 1 && forall b :: 0 <= b < |groups| ==> GroupOk(groups[b], nend)
  }

  /** The pair (p, g) contradicts the pairing. */
  predicate Clash(tq: seq<int>, rq: seq<int>, p: int, g: int)
    requires 1 <= p <= |tq| && 1 <= g <= |rq|
  {
    (tq[p - 1] != g && tq[p - 1] != 0) || (rq[g - 1] != p && rq[g - 1] != 0)
  }

  /** The pairing reached, and the group whose selection clashed with it (-1 when none did). */
  datatype Attempt = Attempt(tq: seq<int>, rq: seq<int>, stop: int)

  /** Adds the selections of groups `i, i - 1, .., 0` until one clashes. */
  function Apply(tq: seq<int>, rq: seq<int>, groups: seq<Group>, nend: nat, i: int): (r: Attempt)
    requires AllOk(groups, nend) && nend <= |tq| && nend <= |rq| && -1 <= i < |groups|
    ensures -1 <= r.stop <= i && |r.tq| == |tq| && |r.rq| == |rq|
    decreases i + 1
  {
    if i < 0 then Attempt(tq, rq, -1) else
    assert GroupOk(groups[i], nend);
    var p, g := Probe(groups[i]), Gallery(groups[i]);
    if Clash(tq, rq, p, g) then Attempt(tq, rq, i) else
    Apply(tq[p - 1 := g], rq[g - 1 := p], groups, nend, i - 1)
  }

  /** Drops the pairs of the probe endpoints `ps`, on either side. */
  function UnpairProbes(tq: seq<int>, ps: seq<int>): (r: seq<int>)
    ensures |r| == |tq|
    ensures forall p :: 0 <= p < |r| ==> r[p] == if p + 1 in ps then 0 else tq[p]
  {
    seq(|tq|, p requires 0 <= p < |tq| => if p + 1 in ps then 0 else tq[p])
  }

  function UnpairGallery(rq: seq<int>, ps: seq<int>): (r: seq<int>)
    ensures |r| == |rq|
    ensures forall g :: 0 <= g < |r| ==> r[g] == if rq[g] in ps then 0 else rq[g]
  {
    seq(|rq|, g requires 0 <= g < |rq| => if rq[g] in ps then 0 else rq[g])
  }

  /** The probe endpoints selected by groups `lo..`. */
  function SelectedProbes(groups: seq<Group>, nend: nat, lo: nat): (r: seq<int>)
    requires AllOk(groups, nend) && lo <= |groups|
    ensures |r| == |groups| - lo
    ensures forall i :: 0 <= i < |r| ==> GroupOk(groups[lo + i], nend) && r[i] == Probe(groups[lo + i])
    decreases |groups| - lo
  {
    if lo == |groups| then [] else
    assert GroupOk(groups[lo], nend);
    [Probe(groups[lo])] + SelectedProbes(groups, nend, lo + 1)
  }

  function Pick(groups: seq<Group>, j: nat, pick: int): (r: seq<Group>)
    requires j < |groups|
  {
    groups[j := groups[j].(pick := pick)]
  }

  datatype Advanced = Advanced(groups: seq<Group>, more: bool)

  /** Counts up from digit `j`: exhausted digits go back to 1 and carry to the digit before. */
  function Advance(groups: seq<Group>, j: int): (r: Advanced)
    requires -1 <= j < |groups|
    ensures |r.groups| == |groups|
    decreases j + 1
  {
    if j < 0 then Advanced(groups, false)
    else if groups[j].pick < |groups[j].alts| then Advanced(Pick(groups, j, groups[j].pick + 1), true)
    else Advance(Pick(groups, j, 1), j - 1)
  }

  // --- The order of combinations --------------------------------------------------------------

  /** Same groups and alternatives; only the selections may differ. */
  ghost predicate SameWheels(a: seq<Group>, b: seq<Group>) {
    |a| == |b| && forall i :: 0 <= i < |a| ==> b[i] == a[i].(pick := b[i].pick)
  }

  /** `a`'s selections come before `b`'s, group 0 being the most significant digit. */
  ghost predicate Before(a: seq<Group>, b: seq<Group>) {
    |a| == |b| && exists i :: 0 <= i < |a| && BeforeAt(a, b, i)
  }

  ghost predicate BeforeAt(a: seq<Group>, b: seq<Group>, i: nat)
    requires i < |a| == |b|
  {
    a[i].pick < b[i].pick && forall k :: 0 <= k < i ==> a[k].pick == b[k].pick
  }

  /** How far digit `i` is from its bound; a digit no group has yet counts as 0. */
  function Room(groups: seq<Group>, nend: nat, i: nat): (r: int) {
    if i < |groups| then nend - groups[i].pick else nend
  }

  lemma RoomIsNat(groups: seq<Group>, nend: nat, i: nat)
    requires AllOk(groups, nend)
    ensures 0 <= Room(groups, nend, i) <= nend
  {
    if i < |groups| {
      assert GroupOk(groups[i], nend);
      DistinctWithinIsShort(groups[i].alts, nend);
    }
  }

  /** `cur` is `start` with the digits after `j`, all exhausted, reset to 1. */
  ghost predicate Carried(start: seq<Group>, cur: seq<Group>, j: int) {
    && SameWheels(start, cur) && -1 <= j < |start|
    && (forall i :: 0 <= i <= j ==> cur[i].pick == start[i].pick)
    && (forall i :: j < i < |start| ==> cur[i].pick == 1 && start[i].pick == |start[i].alts|)
  }

  lemma {:induction false} AdvanceKeeps(start: seq<Group>, cur: seq<Group>, j: int, nend: nat)
    requires Carried(start, cur, j) && AllOk(start, nend)
    ensures var r := Advance(cur, j); SameWheels(start, r.groups) && AllOk(r.groups, nend)
    ensures var r := Advance(cur, j);
      if r.more then exists i :: 0 <= i <= j && Stepped(start, r.groups, i)
      else Carried(start, r.groups, -1)
    decreases j + 1
  {
    if j >= 0 {
      assert GroupOk(start[j], nend);
      if cur[j].pick < |cur[j].alts| {
        assert Stepped(start, Pick(cur, j, cur[j].pick + 1), j);
      } else {
        AdvanceKeeps(start, Pick(cur, j, 1), j - 1, nend);
      }
    }
  }

  /** Digit `i` went up by one, those before it stayed, those after it went from exhausted to 1. */
  ghost predicate Stepped(start: seq<Group>, next: seq<Group>, i: nat)
    requires |next| == |start| && i < |start|
  {
    && next[i].pick == start[i].pick + 1
    && (forall k :: 0 <= k < i ==> next[k].pick == start[k].pick)
    && (forall k :: i < k < |start| ==> next[k].pick == 1 && start[k].pick == |start[k].alts|)
  }

  lemma CountingUp(groups: seq<Group>, nend: nat)
    requires AllOk(groups, nend)
    ensures var r := Advance(groups, |groups| - 1);
      && SameWheels(groups, r.groups) && AllOk(r.groups, nend)
      && if r.more then Before(groups, r.groups) && exists i :: 0 <= i < |groups| && Stepped(groups, r.groups, i)
         else Carried(groups, r.groups, -1)
  {
    AdvanceKeeps(groups, groups, |groups| - 1, nend);
    var r := Advance(groups, |groups| - 1);
    if r.more {
      var i :| 0 <= i < |groups| && Stepped(groups, r.groups, i);
      assert BeforeAt(groups, r.groups, i);
    }
  }

  /** `n + 1` to the power `k`. */
  ghost function Span(n: nat, k: nat): (r: nat)
    ensures r >= 1
  {
    if k == 0 then 1 else Span(n, k - 1) + n * Span(n, k - 1)
  }

  /** The rooms of digits `i..` read as one number in base `nend + 1`: an upper bound on the turns left. */
  ghost function Rank(groups: seq<Group>, nend: nat, i: nat): (r: nat)
    requires AllOk(groups, nend)
    decreases WWIM + 1 - i
  {
    if i > WWIM then 0 else
    RoomIsNat(groups, nend, i);
    ScaleUp(Span(nend, WWIM - i), 0, Room(groups, nend, i));
    Room(groups, nend, i) * Span(nend, WWIM - i) + Rank(groups, nend, i + 1)
  }

  /** A bound on how many more turns the odometer can make from these selections. */
  ghost function TurnsLeft(groups: seq<Group>, nend: nat): (r: nat)
    requires AllOk(groups, nend)
  {
    Rank(groups, nend, 0)
  }

  lemma {:induction false} RankIsBounded(groups: seq<Group>, nend: nat, i: nat)
    requires AllOk(groups, nend) && i <= WWIM + 1
    ensures Rank(groups, nend, i) < Span(nend, WWIM + 1 - i)
    decreases WWIM + 1 - i
  {
    if i <= WWIM {
      RankIsBounded(groups, nend, i + 1);
      RoomIsNat(groups, nend, i);
      ScaleUp(Span(nend, WWIM - i), Room(groups, nend, i), nend);
    }
  }

  /** A higher count has a lower rank: rooms shrink at the first digit that differs. */
  lemma {:induction false} RankGoesDown(a: seq<Group>, b: seq<Group>, nend: nat, j: nat, i: nat)
    requires AllOk(a, nend) && AllOk(b, nend) && i <= j <= WWIM
    requires Room(b, nend, j) < Room(a, nend, j)
    requires forall k :: 0 <= k < j ==> Room(b, nend, k) == Room(a, nend, k)
    ensures Rank(b, nend, i) < Rank(a, nend, i)
    decreases j - i
  {
    hide AllOk, Room, Span;
    if i < j {
      RankGoesDown(a, b, nend, j, i + 1);
    } else {
      RankIsBounded(b, nend, i + 1);
      DigitDecides(Room(a, nend, i), Room(b, nend, i), Span(nend, WWIM - i),
                   Rank(a, nend, i + 1), Rank(b, nend, i + 1));
    }
  }

  lemma DigitDecides(da: int, db: int, s: nat, ra: nat, rb: nat)
    requires db < da && rb < s
    ensures db * s + rb < da * s + ra
  {
    ScaleUp(s, db + 1, da);
  }

  lemma BeforeRanks(a: seq<Group>, b: seq<Group>, nend: nat)
    requires AllOk(a, nend) && AllOk(b, nend) && Before(a, b)
    ensures TurnsLeft(b, nend) < TurnsLeft(a, nend)
  {
    var i :| 0 <= i < |a| && BeforeAt(a, b, i);
    RankGoesDown(a, b, nend, i, 0);
  }

  // --- One turn of the odometer ---------------------------------------------------------------

  datatype Turned = Turned(tq: seq<int>, rq: seq<int>, groups: seq<Group>, more: bool)

  /** Advances until a combination fits the pairing; a combination that does not fit is undone. */
  function Turn(tq: seq<int>, rq: seq<int>, groups: seq<Group>, nend: nat): (r: Turned)
    requires AllOk(groups, nend) && nend <= |tq| && nend <= |rq|
    ensures |r.tq| == |tq| && |r.rq| == |rq|
    decreases TurnsLeft(groups, nend)
  {
    var next := Advance(groups, |groups| - 1);
    CountingUp(groups, nend);
    if !next.more then Turned(tq, rq, next.groups, false) else
    var a := Apply(tq, rq, next.groups, nend, |next.groups| - 1);
    if a.stop < 0 then Turned(a.tq, a.rq, next.groups, true) else
    var ps := SelectedProbes(next.groups, nend, a.stop + 1);
    BeforeRanks(groups, next.groups, nend);
    hide AllOk, SameWheels, Before, Stepped, TurnsLeft;
    Turn(UnpairProbes(a.tq, ps), UnpairGallery(a.rq, ps), next.groups, nend)
  }
}
