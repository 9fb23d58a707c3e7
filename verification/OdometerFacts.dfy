/** What a turn of the odometer keeps, where it lands, and what it may skip. */
module OdometerFacts {
  import opened Seqs
  import opened Paths
  import opened Odometer

  /** Every pair of `tq'` is a pair of `tq`. */
  ghost predicate Restricts(tq': seq<int>, tq: seq<int>) {
    |tq'| == |tq| && forall p :: 0 <= p < |tq| && tq'[p] != 0 ==> tq'[p] == tq[p]
  }

  lemma JoinKeepsInverse(tq: seq<int>, rq: seq<int>, nend: nat, p: int, g: int)
    requires Inverse(tq, rq, nend) && IsEndpoint(p, nend) && IsEndpoint(g, nend) && !Clash(tq, rq, p, g)
    ensures Inverse(tq[p - 1 := g], rq[g - 1 := p], nend) && Extends(tq, tq[p - 1 := g])
  {
    if tq[p - 1] == g {
      assert tq[p - 1 := g] == tq && rq[g - 1 := p] == rq;
    } else {
      assert tq[p - 1] == 0 && rq[g - 1] == 0;
      PairKeepsInverse(tq, rq, nend, p, g);
    }
  }

  /** The selections of the groups numbered `lo..hi` are all in the pairing. */
  ghost predicate Selected(tq: seq<int>, groups: seq<Group>, nend: nat, lo: int, hi: int)
    requires AllOk(groups, nend) && nend <= |tq|
  {
    forall k :: lo <= k < hi && 0 <= k < |groups| ==>
      GroupOk(groups[k], nend) && tq[Probe(groups[k]) - 1] == Gallery(groups[k])
  }

  /** A pair is in `tq'` only if it was in `tq` or its probe endpoint is selected by a group in `lo..hi`. */
  ghost predicate OnlySelected(tq: seq<int>, tq': seq<int>, groups: seq<Group>, nend: nat, lo: int, hi: int)
    requires AllOk(groups, nend) && |tq| == |tq'|
  {
    forall p :: 0 <= p < |tq| && tq'[p] != tq[p] ==>
      exists k :: lo <= k < hi && 0 <= k < |groups| && GroupOk(groups[k], nend) && Probe(groups[k]) == p + 1
  }

  lemma {:induction false} ApplyKeepsInverse(tq: seq<int>, rq: seq<int>, groups: seq<Group>, nend: nat, i: int)
    requires Inverse(tq, rq, nend) && AllOk(groups, nend) && -1 <= i < |groups|
    ensures var a := Apply(tq, rq, groups, nend, i); Inverse(a.tq, a.rq, nend) && Extends(tq, a.tq)
    decreases i + 1
  {
    hide Inverse, Clash, AllOk;
    InverseFits(tq, rq, nend);
    if i >= 0 {
      GroupAtIsOk(groups, nend, i);
      var p, g := Probe(groups[i]), Gallery(groups[i]);
      if !Clash(tq, rq, p, g) {
        JoinKeepsInverse(tq, rq, nend, p, g);
        ApplyKeepsInverse(tq[p - 1 := g], rq[g - 1 := p], groups, nend, i - 1);
      }
    }
  }

  lemma GroupAtIsOk(groups: seq<Group>, nend: nat, i: nat)
    requires AllOk(groups, nend) && i < |groups|
    ensures GroupOk(groups[i], nend) && IsEndpoint(Probe(groups[i]), nend) && IsEndpoint(Gallery(groups[i]), nend)
  {
    assert GroupOk(groups[i], nend);
  }

  lemma SelectedSnoc(tq: seq<int>, groups: seq<Group>, nend: nat, lo: int, i: nat)
    requires AllOk(groups, nend) && nend <= |tq| && i < |groups| && GroupOk(groups[i], nend)
    requires Selected(tq, groups, nend, lo, i) && tq[Probe(groups[i]) - 1] == Gallery(groups[i])
    ensures Selected(tq, groups, nend, lo, i + 1)
  {
  }

  lemma SelectedNone(tq: seq<int>, groups: seq<Group>, nend: nat, lo: int)
    requires AllOk(groups, nend) && nend <= |tq|
    ensures Selected(tq, groups, nend, lo, lo)
  {
  }

  lemma {:induction false} ApplySelects(tq: seq<int>, rq: seq<int>, groups: seq<Group>, nend: nat, i: int)
    requires Inverse(tq, rq, nend) && AllOk(groups, nend) && -1 <= i < |groups|
    ensures var a := Apply(tq, rq, groups, nend, i); Selected(a.tq, groups, nend, a.stop + 1, i + 1)
    decreases i + 1
  {
    hide Inverse, Selected, Distinct, Clash, AllOk, AllWithin;
    InverseFits(tq, rq, nend);
    if i >= 0 {
      GroupAtIsOk(groups, nend, i);
      var p, g := Probe(groups[i]), Gallery(groups[i]);
      if !Clash(tq, rq, p, g) {
        JoinKeepsInverse(tq, rq, nend, p, g);
        var tq1, rq1 := tq[p - 1 := g], rq[g - 1 := p];
        ApplyKeepsInverse(tq1, rq1, groups, nend, i - 1);
        ApplySelects(tq1, rq1, groups, nend, i - 1);
        var a := Apply(tq1, rq1, groups, nend, i - 1);
        assert tq1[p - 1] == g && g != 0;
        SelectedSnoc(a.tq, groups, nend, a.stop + 1, i);
      } else {
        SelectedNone(tq, groups, nend, i + 1);
      }
    } else {
      SelectedNone(tq, groups, nend, 0);
    }
  }

  lemma {:induction false} ApplyOnlySelects(tq: seq<int>, rq: seq<int>, groups: seq<Group>, nend: nat, i: int)
    requires AllOk(groups, nend) && nend <= |tq| && nend <= |rq| && -1 <= i < |groups|
    ensures var a := Apply(tq, rq, groups, nend, i); OnlySelected(tq, a.tq, groups, nend, a.stop + 1, i + 1)
    decreases i + 1
  {
    if i >= 0 {
      assert GroupOk(groups[i], nend);
      var p, g := Probe(groups[i]), Gallery(groups[i]);
      if !Clash(tq, rq, p, g) {
        ApplyOnlySelects(tq[p - 1 := g], rq[g - 1 := p], groups, nend, i - 1);
      }
    }
  }

  lemma UnpairKeepsInverse(tq: seq<int>, rq: seq<int>, nend: nat, ps: seq<int>)
    requires Inverse(tq, rq, nend) && AllWithin(ps, 1, nend)
    ensures Inverse(UnpairProbes(tq, ps), UnpairGallery(rq, ps), nend)
    ensures Restricts(UnpairProbes(tq, ps), tq)
  {
    var tq', rq' := UnpairProbes(tq, ps), UnpairGallery(rq, ps);
    forall p, g | 0 <= p < |tq| && 0 <= g < |rq| ensures tq'[p] == g + 1 <==> rq'[g] == p + 1 {
      assert tq[p] == g + 1 <==> rq[g] == p + 1;
    }
  }

  /** Unpairing one more endpoint, as two writes. */
  lemma UnpairStep(tq: seq<int>, rq: seq<int>, nend: nat, ps: seq<int>, e: int)
    requires Inverse(tq, rq, nend) && IsEndpoint(e, nend)
    ensures var tq1, rq1 := UnpairProbes(tq, ps), UnpairGallery(rq, ps);
      var tq2, rq2 := UnpairProbes(tq, [e] + ps), UnpairGallery(rq, [e] + ps);
      && 0 <= tq1[e - 1] <= |rq1|
      && if tq1[e - 1] == 0 then tq2 == tq1 && rq2 == rq1
         else tq2 == tq1[e - 1 := 0] && rq2 == rq1[tq1[e - 1] - 1 := 0]
  {
    var rq1, rq2 := UnpairGallery(rq, ps), UnpairGallery(rq, [e] + ps);
    forall g | 0 <= g < |rq| ensures rq2[g] == if rq[g] == e then 0 else rq1[g] {
      assert rq[g] in [e] + ps <==> rq[g] == e || rq[g] in ps;
    }
    assert forall g :: 0 <= g < |rq| ==> (tq[e - 1] == g + 1 <==> rq[g] == e);
  }

  lemma UnpairNothing(tq: seq<int>, rq: seq<int>)
    ensures UnpairProbes(tq, []) == tq && UnpairGallery(rq, []) == rq
  {
  }

  /** Only which endpoints are listed matters, not their order or number. */
  lemma UnpairSame(tq: seq<int>, rq: seq<int>, a: seq<int>, b: seq<int>)
    requires forall e :: e in a <==> e in b
    ensures UnpairProbes(tq, a) == UnpairProbes(tq, b) && UnpairGallery(rq, a) == UnpairGallery(rq, b)
  {
  }

  /** Undoing an attempt leaves no pair that was not there before it. */
  lemma UndoRestricts(tq: seq<int>, rq: seq<int>, groups: seq<Group>, nend: nat)
    requires Inverse(tq, rq, nend) && AllOk(groups, nend)
    ensures var a := Apply(tq, rq, groups, nend, |groups| - 1);
      var ps := SelectedProbes(groups, nend, a.stop + 1);
      && Inverse(UnpairProbes(a.tq, ps), UnpairGallery(a.rq, ps), nend)
      && Restricts(UnpairProbes(a.tq, ps), tq)
  {
    ApplyKeepsInverse(tq, rq, groups, nend, |groups| - 1);
    ApplyOnlySelects(tq, rq, groups, nend, |groups| - 1);
    var a := Apply(tq, rq, groups, nend, |groups| - 1);
    var ps := SelectedProbes(groups, nend, a.stop + 1);
    hide Inverse, Apply, AllOk, OnlySelected, GroupOk;
    assert AllWithin(ps, 1, nend) by { SelectedWithin(groups, nend, a.stop + 1); }
    UnpairKeepsInverse(a.tq, a.rq, nend, ps);
    SelectedAreListed(tq, a.tq, groups, nend, a.stop + 1);
    UndoneRestricts(tq, a.tq, ps);
  }

  lemma SelectedWithin(groups: seq<Group>, nend: nat, lo: nat)
    requires AllOk(groups, nend) && lo <= |groups|
    ensures AllWithin(SelectedProbes(groups, nend, lo), 1, nend)
  {
  }

  lemma UndoneRestricts(tq: seq<int>, tq': seq<int>, ps: seq<int>)
    requires |tq| == |tq'| && forall p :: 0 <= p < |tq| && tq'[p] != tq[p] ==> p + 1 in ps
    ensures Restricts(UnpairProbes(tq', ps), tq)
  {
  }

  lemma SelectedAreListed(tq: seq<int>, tq': seq<int>, groups: seq<Group>, nend: nat, lo: nat)
    requires AllOk(groups, nend) && |tq| == |tq'| && lo <= |groups|
    requires OnlySelected(tq, tq', groups, nend, lo, |groups|)
    ensures forall p :: 0 <= p < |tq| && tq'[p] != tq[p] ==> p + 1 in SelectedProbes(groups, nend, lo)
  {
    var ps := SelectedProbes(groups, nend, lo);
    forall p | 0 <= p < |tq| && tq'[p] != tq[p] ensures p + 1 in ps {
      var k :| lo <= k < |groups| && GroupOk(groups[k], nend) && Probe(groups[k]) == p + 1;
      assert ps[k - lo] == p + 1;
    }
  }

  // --- Where a turn lands ---------------------------------------------------------------------

  lemma BeforeTransitive(a: seq<Group>, b: seq<Group>, c: seq<Group>)
    requires Before(a, b) && Before(b, c)
    ensures Before(a, c)
  {
    var i :| 0 <= i < |a| && BeforeAt(a, b, i);
    var j :| 0 <= j < |b| && BeforeAt(b, c, j);
    assert BeforeAt(a, c, if i < j then i else j);
  }

  lemma SameWheelsTransitive(a: seq<Group>, b: seq<Group>, c: seq<Group>)
    requires SameWheels(a, b) && SameWheels(b, c)
    ensures SameWheels(a, c)
  {
  }

  lemma RestrictsTransitive(a: seq<int>, b: seq<int>, c: seq<int>)
    requires Restricts(a, b) && Restricts(b, c)
    ensures Restricts(a, c)
  {
  }

  /** The pairing after a turn that found a combination: every selection, and otherwise only old pairs. */
  ghost predicate Landed(tq: seq<int>, r: Turned, nend: nat)
    requires AllOk(r.groups, nend) && nend <= |tq| == |r.tq|
  {
    && Selected(r.tq, r.groups, nend, 0, |r.groups|)
    && forall p :: 0 <= p < |tq| && r.tq[p] != 0 ==>
         r.tq[p] == tq[p] || p + 1 in SelectedProbes(r.groups, nend, 0)
  }

  /** What one turn does to the pairing and to the selections. */
  ghost predicate GoodTurn(tq: seq<int>, groups: seq<Group>, nend: nat, r: Turned)
    requires nend <= |tq| == |r.tq|
  {
    && Inverse(r.tq, r.rq, nend) && SameWheels(groups, r.groups) && AllOk(r.groups, nend)
    && if r.more then Before(groups, r.groups) && Landed(tq, r, nend) else Restricts(r.tq, tq)
  }

  lemma LandedFirst(tq: seq<int>, rq: seq<int>, groups: seq<Group>, nend: nat)
    requires Inverse(tq, rq, nend) && AllOk(groups, nend)
    requires Apply(tq, rq, groups, nend, |groups| - 1).stop < 0
    ensures var a := Apply(tq, rq, groups, nend, |groups| - 1);
      Inverse(a.tq, a.rq, nend) && Landed(tq, Turned(a.tq, a.rq, groups, true), nend)
  {
    var a := Apply(tq, rq, groups, nend, |groups| - 1);
    ApplyKeepsInverse(tq, rq, groups, nend, |groups| - 1);
    ApplySelects(tq, rq, groups, nend, |groups| - 1);
    ApplyOnlySelects(tq, rq, groups, nend, |groups| - 1);
    hide Inverse, Apply, Selected;
    SelectedAreListed(tq, a.tq, groups, nend, 0);
  }

  lemma LandedLater(tq: seq<int>, tq1: seq<int>, r: Turned, nend: nat)
    requires AllOk(r.groups, nend) && nend <= |tq| == |tq1| == |r.tq|
    requires Restricts(tq1, tq) && Landed(tq1, r, nend)
    ensures Landed(tq, r, nend)
  {
  }

  lemma {:induction false} TurnKeeps(tq: seq<int>, rq: seq<int>, groups: seq<Group>, nend: nat)
    requires AllOk(groups, nend) && Inverse(tq, rq, nend)
    ensures GoodTurn(tq, groups, nend, Turn(tq, rq, groups, nend))
    decreases TurnsLeft(groups, nend)
  {
    var next := Advance(groups, |groups| - 1);
    CountingUp(groups, nend);
    if next.more {
      var a := Apply(tq, rq, next.groups, nend, |next.groups| - 1);
      if a.stop < 0 {
        LandedFirst(tq, rq, next.groups, nend);
      } else {
        var ps := SelectedProbes(next.groups, nend, a.stop + 1);
        UndoRestricts(tq, rq, next.groups, nend);
        BeforeRanks(groups, next.groups, nend);
        hide AllOk, SameWheels, Before, Stepped, TurnsLeft, Inverse, Landed, Restricts, Apply, Advance;
        var tq1, rq1 := UnpairProbes(a.tq, ps), UnpairGallery(a.rq, ps);
        TurnKeeps(tq1, rq1, next.groups, nend);
        GoodTurnAfterUndo(tq, tq1, groups, next.groups, nend, Turn(tq1, rq1, next.groups, nend));
      }
    }
  }

  lemma GoodTurnAfterUndo(tq: seq<int>, tq1: seq<int>, groups: seq<Group>, next: seq<Group>, nend: nat, r: Turned)
    requires nend <= |tq| == |tq1| == |r.tq|
    requires Restricts(tq1, tq) && SameWheels(groups, next) && Before(groups, next)
    requires GoodTurn(tq1, next, nend, r)
    ensures GoodTurn(tq, groups, nend, r)
  {
    hide AllOk, SameWheels, Before, Inverse, Landed, Restricts;
    SameWheelsTransitive(groups, next, r.groups);
    if r.more {
      BeforeTransitive(groups, next, r.groups);
      LandedLater(tq, tq1, r, nend);
    } else {
      RestrictsTransitive(r.tq, tq1, tq);
    }
  }

  // --- What a turn may skip -------------------------------------------------------------------

  /** All of `c`'s selections together with the pairing are still a one-to-one pairing. */
  ghost predicate Fits(tq: seq<int>, rq: seq<int>, c: seq<Group>, nend: nat, hi: int)
    requires AllOk(c, nend) && nend <= |tq| && nend <= |rq| && hi <= |c|
  {
    && (forall k :: 0 <= k < hi ==> GroupOk(c[k], nend) && !Clash(tq, rq, Probe(c[k]), Gallery(c[k])))
    && forall j, k :: 0 <= j < k < hi ==> SameChoice(c[j], c[k], nend)
  }

  ghost predicate SameChoice(a: Group, b: Group, nend: nat) {
    GroupOk(a, nend) && GroupOk(b, nend) && (Probe(a) == Probe(b) <==> Gallery(a) == Gallery(b))
  }

  lemma FitsAfterJoin(tq: seq<int>, rq: seq<int>, c: seq<Group>, nend: nat, i: nat)
    requires AllOk(c, nend) && nend <= |tq| && nend <= |rq| && i < |c| && Fits(tq, rq, c, nend, i + 1)
    ensures GroupOk(c[i], nend)
    ensures Fits(tq[Probe(c[i]) - 1 := Gallery(c[i])], rq[Gallery(c[i]) - 1 := Probe(c[i])], c, nend, i)
  {
  }

  lemma {:induction false} FittingApplies(tq: seq<int>, rq: seq<int>, c: seq<Group>, nend: nat, i: int)
    requires AllOk(c, nend) && nend <= |tq| && nend <= |rq| && -1 <= i < |c| && Fits(tq, rq, c, nend, i + 1)
    ensures Apply(tq, rq, c, nend, i).stop < 0
    decreases i + 1
  {
    if i >= 0 {
      FitsAfterJoin(tq, rq, c, nend, i);
      assert GroupOk(c[i], nend) && !Clash(tq, rq, Probe(c[i]), Gallery(c[i]));
      hide Clash, AllOk;
      FittingApplies(tq[Probe(c[i]) - 1 := Gallery(c[i])], rq[Gallery(c[i]) - 1 := Probe(c[i])], c, nend, i - 1);
    }
  }

  /** What fits a pairing fits any part of it. */
  lemma FitsLess(tq: seq<int>, rq: seq<int>, tq1: seq<int>, rq1: seq<int>, c: seq<Group>, nend: nat)
    requires Inverse(tq, rq, nend) && Inverse(tq1, rq1, nend) && Restricts(tq1, tq)
    requires AllOk(c, nend) && Fits(tq, rq, c, nend, |c|)
    ensures Fits(tq1, rq1, c, nend, |c|)
  {
    forall k | 0 <= k < |c| ensures GroupOk(c[k], nend) && !Clash(tq1, rq1, Probe(c[k]), Gallery(c[k])) {
      assert GroupOk(c[k], nend);
      ClashLess(tq, rq, tq1, rq1, nend, Probe(c[k]), Gallery(c[k]));
    }
  }

  lemma ClashLess(tq: seq<int>, rq: seq<int>, tq1: seq<int>, rq1: seq<int>, nend: nat, p: int, g: int)
    requires Inverse(tq, rq, nend) && Inverse(tq1, rq1, nend) && Restricts(tq1, tq)
    requires IsEndpoint(p, nend) && IsEndpoint(g, nend) && !Clash(tq, rq, p, g)
    ensures !Clash(tq1, rq1, p, g)
  {
    var p1 := rq1[g - 1];
    if p1 != 0 {
      assert tq1[p1 - 1] == g;
      assert tq[p1 - 1] == g;
      assert rq[g - 1] == p1;
    }
  }

  /** Nothing comes strictly between a combination and the one the count steps to. */
  lemma NothingBetween(start: seq<Group>, next: seq<Group>, i: nat, c: seq<Group>, nend: nat)
    requires SameWheels(start, next) && SameWheels(start, c) && i < |start| && Stepped(start, next, i)
    requires AllOk(c, nend) && Before(start, c)
    ensures c == next || Before(next, c)
  {
    var j :| 0 <= j < |start| && BeforeAt(start, c, j);
    assert GroupOk(c[j], nend);
    if j < i {
      assert BeforeAt(next, c, j);
    } else {
      FirstDifference(next, c, 0);
      assert forall k :: 0 <= k < |c| ==> GroupOk(c[k], nend);
    }
  }

  /** Two different settings of the same wheels are ordered one way or the other. */
  lemma {:induction false} FirstDifference(a: seq<Group>, b: seq<Group>, k: nat)
    requires SameWheels(a, b) && k <= |a| && forall i :: 0 <= i < k ==> a[i].pick == b[i].pick
    ensures a == b || Before(a, b) || Before(b, a)
    decreases |a| - k
  {
    if k == |a| {
      assert a == b;
    } else if a[k].pick == b[k].pick {
      FirstDifference(a, b, k + 1);
    } else if a[k].pick < b[k].pick {
      assert BeforeAt(a, b, k);
    } else {
      assert BeforeAt(b, a, k);
    }
  }

  lemma BeforeIsStrict(a: seq<Group>, b: seq<Group>)
    requires Before(a, b)
    ensures a != b && !Before(b, a)
  {
    var i :| 0 <= i < |a| && BeforeAt(a, b, i);
    forall j | 0 <= j < |b| ensures !BeforeAt(b, a, j) {
      assert if j < i then a[j].pick == b[j].pick else a[i].pick < b[i].pick;
    }
  }

  lemma NothingAfterLast(start: seq<Group>, last: seq<Group>, c: seq<Group>, nend: nat)
    requires Carried(start, last, -1) && SameWheels(start, c) && AllOk(c, nend)
    ensures !Before(start, c)
  {
    forall i | 0 <= i < |start| ensures !BeforeAt(start, c, i) {
      assert GroupOk(c[i], nend);
    }
  }

  /**
   * A turn skips a combination only because it contradicts the pairing: every combination between the
   * one it starts at and the one it lands on, and when it runs out every later one, does not fit.
   */
  lemma {:induction false} TurnSkipsOnlyMisfits(tq: seq<int>, rq: seq<int>, groups: seq<Group>, nend: nat,
          c: seq<Group>)
    requires AllOk(groups, nend) && Inverse(tq, rq, nend)
    requires AllOk(c, nend) && SameWheels(groups, c) && Before(groups, c)
    requires var r := Turn(tq, rq, groups, nend); r.more ==> Before(c, r.groups)
    ensures !Fits(tq, rq, c, nend, |c|)
    decreases TurnsLeft(groups, nend)
  {
    hide AllOk, Inverse, SameWheels, Before, Stepped, Carried, Turn, Fits, Apply, Advance, TurnsLeft;
    var next := Advance(groups, |groups| - 1);
    CountingUp(groups, nend);
    InverseFits(tq, rq, nend);
    if next.more && Apply(tq, rq, next.groups, nend, |next.groups| - 1).stop >= 0 && Before(next.groups, c) {
      var tq1, rq1 := TurnUnfolds(tq, rq, groups, nend);
      SameWheelsSiblings(groups, next.groups, c);
      hide *;
      TurnSkipsOnlyMisfits(tq1, rq1, next.groups, nend, c);
      MisfitsMore(tq, rq, tq1, rq1, c, nend);
    } else {
      hide *;
      NextSkipsNothing(tq, rq, groups, nend, c);
    }
  }

  /** A failed first try leaves the turn where it would start from the undone pairing. */
  lemma TurnUnfolds(tq: seq<int>, rq: seq<int>, groups: seq<Group>, nend: nat) returns (tq1: seq<int>, rq1: seq<int>)
    requires AllOk(groups, nend) && Inverse(tq, rq, nend)
    requires var next := Advance(groups, |groups| - 1);
      next.more && AllOk(next.groups, nend) && Apply(tq, rq, next.groups, nend, |next.groups| - 1).stop >= 0
    ensures var next := Advance(groups, |groups| - 1).groups;
      && Inverse(tq1, rq1, nend) && Restricts(tq1, tq)
      && nend <= |tq| && nend <= |rq| && nend <= |tq1| && nend <= |rq1|
      && Turn(tq, rq, groups, nend) == Turn(tq1, rq1, next, nend)
      && TurnsLeft(next, nend) < TurnsLeft(groups, nend)
  {
    hide Inverse, AllOk, SameWheels, Before, Stepped, Restricts, TurnsLeft, Apply, SelectedProbes, Advance;
    InverseFits(tq, rq, nend);
    var next := Advance(groups, |groups| - 1).groups;
    CountingUp(groups, nend);
    BeforeRanks(groups, next, nend);
    UndoRestricts(tq, rq, next, nend);
    var a := Apply(tq, rq, next, nend, |next| - 1);
    var ps := SelectedProbes(next, nend, a.stop + 1);
    tq1, rq1 := UnpairProbes(a.tq, ps), UnpairGallery(a.rq, ps);
  }

  /** The count leaves out no combination: a later one is the next, or later still. */
  lemma CountSkipsNothing(groups: seq<Group>, nend: nat, c: seq<Group>)
    requires AllOk(groups, nend) && AllOk(c, nend) && SameWheels(groups, c) && Before(groups, c)
    ensures var next := Advance(groups, |groups| - 1);
      next.more && AllOk(next.groups, nend) && (c == next.groups || Before(next.groups, c))
  {
    var next := Advance(groups, |groups| - 1);
    CountingUp(groups, nend);
    hide AllOk, SameWheels, Before, Stepped, Carried, Advance;
    if next.more {
      var i :| 0 <= i < |groups| && Stepped(groups, next.groups, i);
      NothingBetween(groups, next.groups, i, c, nend);
    } else {
      NothingAfterLast(groups, next.groups, c, nend);
    }
  }

  /** The cases in which the first combination tried already decides. */
  lemma {:induction false} NextSkipsNothing(tq: seq<int>, rq: seq<int>, groups: seq<Group>, nend: nat, c: seq<Group>)
    requires AllOk(groups, nend) && Inverse(tq, rq, nend)
    requires AllOk(c, nend) && SameWheels(groups, c) && Before(groups, c)
    requires var r := Turn(tq, rq, groups, nend); r.more ==> Before(c, r.groups)
    requires var next := Advance(groups, |groups| - 1);
      next.more && AllOk(next.groups, nend) && Apply(tq, rq, next.groups, nend, |next.groups| - 1).stop >= 0 ==>
        !Before(next.groups, c)
    ensures !Fits(tq, rq, c, nend, |c|)
  {
    hide AllOk, SameWheels, Before, Advance, Turn, Apply, Fits, Inverse;
    InverseFits(tq, rq, nend);
    CountSkipsNothing(groups, nend, c);
    var next := Advance(groups, |groups| - 1).groups;
    if Apply(tq, rq, next, nend, |next| - 1).stop < 0 {
      TurnTries(tq, rq, groups, nend, next);
      BeforeIsStrict(c, next);
    } else {
      Misfit(tq, rq, c, nend, |c| - 1);
    }
  }

  lemma SameWheelsSiblings(a: seq<Group>, b: seq<Group>, c: seq<Group>)
    requires SameWheels(a, b) && SameWheels(a, c)
    ensures SameWheels(b, c)
  {
  }

  lemma MisfitsMore(tq: seq<int>, rq: seq<int>, tq1: seq<int>, rq1: seq<int>, c: seq<Group>, nend: nat)
    requires Inverse(tq, rq, nend) && Inverse(tq1, rq1, nend) && Restricts(tq1, tq)
    requires AllOk(c, nend) && !Fits(tq1, rq1, c, nend, |c|)
    ensures !Fits(tq, rq, c, nend, |c|)
  {
    assert nend <= |tq| && nend <= |rq|;
    hide Inverse, AllOk, Restricts, Fits;
    if Fits(tq, rq, c, nend, |c|) {
      FitsLess(tq, rq, tq1, rq1, c, nend);
    }
  }

  /** What Apply stops at does not fit. */
  lemma Misfit(tq: seq<int>, rq: seq<int>, c: seq<Group>, nend: nat, i: int)
    requires AllOk(c, nend) && nend <= |tq| && nend <= |rq| && -1 <= i < |c|
    requires Apply(tq, rq, c, nend, i).stop >= 0
    ensures !Fits(tq, rq, c, nend, i + 1)
  {
    hide AllOk, Fits, GroupOk, Apply;
    if Fits(tq, rq, c, nend, i + 1) {
      FittingApplies(tq, rq, c, nend, i);
    }
  }

  // --- A turn as its loop runs it -------------------------------------------------------------

  lemma {:induction false} AdvanceIsOk(groups: seq<Group>, j: int, nend: nat)
    requires AllOk(groups, nend) && -1 <= j < |groups|
    ensures AllOk(Advance(groups, j).groups, nend)
    decreases j + 1
  {
    if j >= 0 {
      assert GroupOk(groups[j], nend);
      PickIsOk(groups, j, 1, nend);
      if groups[j].pick < |groups[j].alts| {
        PickIsOk(groups, j, groups[j].pick + 1, nend);
      } else {
        AdvanceIsOk(Pick(groups, j, 1), j - 1, nend);
      }
    }
  }

  lemma PickIsOk(groups: seq<Group>, j: nat, pick: int, nend: nat)
    requires AllOk(groups, nend) && j < |groups| && 1 <= pick <= |groups[j].alts|
    ensures AllOk(Pick(groups, j, pick), nend)
  {
    var groups' := Pick(groups, j, pick);
    forall b | 0 <= b < |groups'| ensures GroupOk(groups'[b], nend) {
      assert GroupOk(groups[b], nend);
    }
  }

  /** The rest of a turn when the carry has reached digit `j`. */
  ghost function TurnFrom(tq: seq<int>, rq: seq<int>, groups: seq<Group>, nend: nat, j: int): (r: Turned)
    requires AllOk(groups, nend) && nend <= |tq| && nend <= |rq| && -1 <= j < |groups|
  {
    AdvanceIsOk(groups, j, nend);
    var next := Advance(groups, j);
    if next.more then Try(tq, rq, next.groups, nend) else Turned(tq, rq, next.groups, false)
  }

  /** The rest of a turn once a combination has been chosen. */
  ghost function Try(tq: seq<int>, rq: seq<int>, groups: seq<Group>, nend: nat): (r: Turned)
    requires AllOk(groups, nend) && nend <= |tq| && nend <= |rq|
  {
    var a := Apply(tq, rq, groups, nend, |groups| - 1);
    if a.stop < 0 then Turned(a.tq, a.rq, groups, true) else Retry(a, groups, nend)
  }

  /** The rest of a turn once an attempt has stopped at a clash: undo it and turn on. */
  ghost function Retry(a: Attempt, groups: seq<Group>, nend: nat): (r: Turned)
    requires AllOk(groups, nend) && nend <= |a.tq| && nend <= |a.rq| && 0 <= a.stop < |groups|
  {
    var ps := SelectedProbes(groups, nend, a.stop + 1);
    Turn(UnpairProbes(a.tq, ps), UnpairGallery(a.rq, ps), groups, nend)
  }

  /** A turn whose count reaches `next` tries it. */
  lemma {:induction false} TurnTries(tq: seq<int>, rq: seq<int>, groups: seq<Group>, nend: nat, next: seq<Group>)
    requires AllOk(groups, nend) && AllOk(next, nend) && nend <= |tq| && nend <= |rq|
    requires Advance(groups, |groups| - 1) == Advanced(next, true)
    ensures Turn(tq, rq, groups, nend) == Try(tq, rq, next, nend)
  {
    hide AllOk, GroupOk, Apply, Advance, SelectedProbes, UnpairProbes, UnpairGallery;
  }

  lemma {:induction false} TurnIsTurnFrom(tq: seq<int>, rq: seq<int>, groups: seq<Group>, nend: nat)
    requires AllOk(groups, nend) && nend <= |tq| && nend <= |rq|
    ensures Turn(tq, rq, groups, nend) == TurnFrom(tq, rq, groups, nend, |groups| - 1)
  {
    AdvanceIsOk(groups, |groups| - 1, nend);
    var next := Advance(groups, |groups| - 1);
    if next.more {
      TurnTries(tq, rq, groups, nend, next.groups);
      hide AllOk, Turn, Try, Advance;
    } else {
      TurnEnds(tq, rq, groups, nend);
      hide AllOk, Turn, Try, Advance;
    }
  }

  lemma {:induction false} TurnEnds(tq: seq<int>, rq: seq<int>, groups: seq<Group>, nend: nat)
    requires AllOk(groups, nend) && nend <= |tq| && nend <= |rq| && !Advance(groups, |groups| - 1).more
    ensures Turn(tq, rq, groups, nend) == Turned(tq, rq, Advance(groups, |groups| - 1).groups, false)
  {
    hide AllOk, Apply, Advance;
  }

  /** A digit's step: up by one, or back to 1 with a carry. */
  lemma DigitSteps(tq: seq<int>, rq: seq<int>, groups: seq<Group>, nend: nat, j: nat)
    requires AllOk(groups, nend) && nend <= |tq| && nend <= |rq| && j < |groups|
    ensures var g := groups[j];
      if g.pick < |g.alts| then
        AllOk(Pick(groups, j, g.pick + 1), nend)
        && TurnFrom(tq, rq, groups, nend, j) == Try(tq, rq, Pick(groups, j, g.pick + 1), nend)
      else
        AllOk(Pick(groups, j, 1), nend)
        && TurnFrom(tq, rq, groups, nend, j) == TurnFrom(tq, rq, Pick(groups, j, 1), nend, j - 1)
  {
    assert GroupOk(groups[j], nend);
    PickIsOk(groups, j, 1, nend);
    if groups[j].pick < |groups[j].alts| {
      PickIsOk(groups, j, groups[j].pick + 1, nend);
    }
    hide AllOk, Try;
  }

  lemma RetryIsTurnFrom(a: Attempt, groups: seq<Group>, nend: nat, ps: seq<int>)
    requires AllOk(groups, nend) && nend <= |a.tq| && nend <= |a.rq| && 0 <= a.stop < |groups|
    requires ps == SelectedProbes(groups, nend, a.stop + 1)
    ensures Retry(a, groups, nend)
      == TurnFrom(UnpairProbes(a.tq, ps), UnpairGallery(a.rq, ps), groups, nend, |groups| - 1)
  {
    hide AllOk, Turn, TurnFrom, SelectedProbes, UnpairProbes, UnpairGallery;
    TurnIsTurnFrom(UnpairProbes(a.tq, ps), UnpairGallery(a.rq, ps), groups, nend);
  }

  /** Where a failed attempt leaves the loop. */
  lemma TryAgain(tq: seq<int>, rq: seq<int>, groups: seq<Group>, nend: nat, a: Attempt, ps: seq<int>)
    requires AllOk(groups, nend) && nend <= |tq| && nend <= |rq|
    requires a == Apply(tq, rq, groups, nend, |groups| - 1) && a.stop >= 0
    requires ps == SelectedProbes(groups, nend, a.stop + 1)
    ensures Try(tq, rq, groups, nend)
      == TurnFrom(UnpairProbes(a.tq, ps), UnpairGallery(a.rq, ps), groups, nend, |groups| - 1)
  {
    hide AllOk, Turn, TurnFrom, Retry, Apply, SelectedProbes, UnpairProbes, UnpairGallery;
    RetryIsTurnFrom(a, groups, nend, ps);
  }

  lemma ApplyUnfolds(tq0: seq<int>, rq0: seq<int>, gs: seq<Group>, nend: nat, i: nat)
    requires AllOk(gs, nend) && nend <= |tq0| && nend <= |rq0| && i < |gs|
    ensures GroupOk(gs[i], nend)
    ensures Apply(tq0, rq0, gs, nend, i) ==
      if Clash(tq0, rq0, Probe(gs[i]), Gallery(gs[i])) then Attempt(tq0, rq0, i)
      else Apply(tq0[Probe(gs[i]) - 1 := Gallery(gs[i])], rq0[Gallery(gs[i]) - 1 := Probe(gs[i])], gs, nend, i - 1)
    ensures SelectedProbes(gs, nend, i) == [Probe(gs[i])] + SelectedProbes(gs, nend, i + 1)
  {
  }

  lemma CarryOn(start: seq<Group>, gs: seq<Group>, nend: nat, j: nat)
    requires AllOk(start, nend) && AllOk(gs, nend) && j < |start| && Carried(start, gs, j)
    requires gs[j].pick >= |gs[j].alts|
    ensures 1 <= |gs[j].alts| && Carried(start, Pick(gs, j, 1), j - 1)
  {
    assert GroupOk(gs[j], nend);
  }

  lemma BumpRanks(start: seq<Group>, cur: seq<Group>, j: nat, nend: nat)
    requires AllOk(start, nend) && AllOk(cur, nend) && j < |start| && Carried(start, cur, j)
    requires cur[j].pick < |cur[j].alts|
    ensures 1 <= cur[j].pick && AllOk(Pick(cur, j, cur[j].pick + 1), nend)
    ensures TurnsLeft(Pick(cur, j, cur[j].pick + 1), nend) < TurnsLeft(start, nend)
  {
    var next := Pick(cur, j, cur[j].pick + 1);
    assert GroupOk(cur[j], nend);
    PickIsOk(cur, j, cur[j].pick + 1, nend);
    assert BeforeAt(start, next, j);
    BeforeRanks(start, next, nend);
  }
}
