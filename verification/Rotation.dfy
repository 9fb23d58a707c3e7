/** The mean of a list of folded angles, and the pruning of the edges that stray from it. */
module Rotation {
  import opened Consts
  import opened Seqs

  /** Angles split by sign: the two sums and the two counts. */
  datatype Split = Split(neg: int, pos: int, nneg: nat, npos: nat)

  function SplitSum(v: seq<int>): (r: Split)
    ensures r.nneg + r.npos == |v|
    ensures (r.nneg == 0 ==> r.neg == 0) && (r.npos == 0 ==> r.pos == 0)
  {
    if v == [] then Split(0, 0, 0, 0) else
    var s, a := SplitSum(v[..|v| - 1]), v[|v| - 1];
    if a < 0 then s.(neg := s.neg + a, nneg := s.nneg + 1) else s.(pos := s.pos + a, npos := s.npos + 1)
  }

  lemma SplitSnoc(v: seq<int>, i: nat)
    requires i < |v|
    ensures var s, a := SplitSum(v[..i]), v[i];
      SplitSum(v[..i + 1]) ==
        if a < 0 then s.(neg := s.neg + a, nneg := s.nneg + 1) else s.(pos := s.pos + a, npos := s.npos + 1)
  {
    assert v[..i + 1][..i] == v[..i];
  }

  /** Fold a rounded mean back into (-180, 180]. */
  function FoldMean(f: real): (r: int) {
    var m := RoundHalfAway(f);
    if m <= -180 then m + 360 else m
  }

  /**
   * The mean before rounding. When the two signs' means lie more than a half turn apart, the
   * negative angles are lifted by a full turn first.
   */
  function RawMean(s: Split): (r: real)
    requires s.nneg + s.npos > 0
  {
    var tot := (s.nneg + s.npos) as real;
    var n := if s.nneg == 0 then 1 else s.nneg;
    var l := if s.nneg != 0 && s.npos == 0 then 1 else s.npos;
    if s.pos as real / l as real - s.neg as real / n as real > 180.0 then
      var f := (s.pos + s.neg + n * 360) as real / tot;
      if f > 180.0 then f - 360.0 else f
    else (s.pos + s.neg) as real / tot
  }

  function MeanRotation(v: seq<int>): (r: int)
    requires v != []
  {
    FoldMean(RawMean(SplitSum(v)))
  }

  ghost predicate AllFolded(v: seq<int>) {
    forall i :: 0 <= i < |v| ==> -180 < v[i] <= 180
  }

  lemma {:induction false} SplitBounds(v: seq<int>)
    requires AllFolded(v)
    ensures var s := SplitSum(v);
      -180 * s.nneg + s.nneg <= s.neg <= 0 - s.nneg && 0 <= s.pos <= 180 * s.npos
  {
    if v != [] {
      SplitBounds(v[..|v| - 1]);
    }
  }

  lemma DivBounds(a: int, n: int, lo: int, hi: int)
    requires n > 0 && lo * n <= a <= hi * n
    ensures lo as real <= a as real / n as real <= hi as real
  {
    var q := a as real / n as real;
    assert q * n as real == a as real;
    assert (lo * n) as real == lo as real * n as real && (hi * n) as real == hi as real * n as real;
    Cancel(lo as real, q, n as real);
    Cancel(q, hi as real, n as real);
  }

  lemma Cancel(a: real, b: real, n: real)
    requires n > 0.0
    ensures a * n <= b * n ==> a <= b
  {
    if b < a { assert b * n < a * n; }
  }

  /** The mean of folded angles is a folded angle. */
  lemma MeanIsFolded(v: seq<int>)
    requires v != [] && AllFolded(v)
    ensures -180 < MeanRotation(v) <= 180
  {
    SplitBounds(v);
    var s := SplitSum(v);
    var tot := s.nneg + s.npos;
    DivBounds(s.pos + s.neg, tot, -179, 180);
    if s.nneg > 0 && s.npos > 0 {
      DivBounds(s.pos + s.neg + s.nneg * 360, tot, 0, 359);
    } else if s.nneg == 0 {
      DivBounds(s.pos, s.npos, 0, 180);
    } else {
      DivBounds(s.neg, s.nneg, -179, -1);
    }
  }

  /** Twice the mean of two angles, before rounding. */
  function DoubleMean(a: int, b: int): (h: int) {
    var lifted := if (a < 0 <= b && b - a > 180) || (b < 0 <= a && a - b > 180) then a + b + 360 else a + b;
    if lifted > 360 then lifted - 720 else lifted
  }

  lemma RawMeanOfTwo(a: int, b: int)
    requires -180 < a <= 180 && -180 < b <= 180
    ensures SplitSum([a, b]).nneg + SplitSum([a, b]).npos > 0
    ensures RawMean(SplitSum([a, b])) == DoubleMean(a, b) as real / 2.0
  {
    hide SplitSum;
    SplitOfTwo(a, b);
    if a < 0 <= b {
      MixedMean(a, b);
    } else if b < 0 <= a {
      MixedMean(b, a);
    }
    hide *;
  }

  lemma MixedMean(a: int, b: int)
    requires -180 < a < 0 <= b <= 180
    ensures RawMean(Split(a, b, 1, 1)) == DoubleMean(a, b) as real / 2.0
    ensures DoubleMean(b, a) == DoubleMean(a, b)
  {
    HalfOverOne(a);
    HalfOverOne(b);
  }

  lemma HalfOverOne(a: int)
    ensures a as real / 1.0 == a as real
  {
  }

  lemma RoundedHalf(h: int)
    ensures var r := RoundHalfAway(h as real / 2.0); 2 * r - 1 <= h <= 2 * r + 1
  {
  }

  lemma MidwayOnTheArc(a: int, b: int, m: int)
    requires -180 < a <= 180 && -180 < b <= 180
    requires 2 * m - 1 <= DoubleMean(a, b) <= 2 * m + 1
    ensures CircularDistance(m, a) <= 90 && CircularDistance(m, b) <= 90
    ensures -1 <= CircularDistance(m, a) - CircularDistance(m, b) <= 1
  {
    hide CircularDistance;
    DistanceIs(m, a);
    DistanceIs(m, b);
  }

  lemma HalfWithin(a: int, b: int, m: int)
    requires -180 < a <= 180 && -180 < b <= 180 && 2 * m - 1 <= DoubleMean(a, b) <= 2 * m + 1
    ensures -180 <= m <= 180
  {
  }

  lemma DistanceIs(m: int, a: int)
    requires -540 <= m - a <= 540
    ensures var e := if m - a > 180 then m - a - 360 else if m - a < -180 then m - a + 360 else m - a;
      CircularDistance(m, a) == if e >= 0 then e else -e
  {
  }

  lemma FullTurn(m: int, a: int)
    requires -540 <= m - a <= 180
    ensures CircularDistance(m + 360, a) == CircularDistance(m, a)
  {
    hide CircularDistance;
    DistanceIs(m, a);
    DistanceIs(m + 360, a);
  }

  /** The mean of two directions lies midway between them on the shorter arc, to within rounding. */
  lemma MeanOfTwoIsMidway(a: int, b: int)
    requires -180 < a <= 180 && -180 < b <= 180
    ensures var m := MeanRotation([a, b]);
      && CircularDistance(m, a) <= 90 && CircularDistance(m, b) <= 90
      && -1 <= CircularDistance(m, a) - CircularDistance(m, b) <= 1
  {
    hide SplitSum, RawMean, CircularDistance, DoubleMean, RoundHalfAway;
    RawMeanOfTwo(a, b);
    var r := RoundHalfAway(DoubleMean(a, b) as real / 2.0);
    RoundedHalf(DoubleMean(a, b));
    MidwayOnTheArc(a, b, r);
    HalfWithin(a, b, r);
    if r <= -180 {
      FullTurn(r, a);
      FullTurn(r, b);
    }
  }

  lemma SplitOfTwo(a: int, b: int)
    ensures SplitSum([a, b]) ==
      if a < 0 && b < 0 then Split(a + b, 0, 2, 0)
      else if a < 0 then Split(a, b, 1, 1)
      else if b < 0 then Split(b, a, 1, 1)
      else Split(0, a + b, 0, 2)
  {
    assert [a, b][..1] == [a] && [a][..0] == [];
    assert SplitSum([a]) == if a < 0 then Split(a, 0, 1, 0) else Split(0, a, 0, 1);
  }

  // --- Pruning --------------------------------------------------------------------------------

  /** The members of `path` whose angle is not out of band with `mean`. */
  function Kept(path: seq<int>, angle: seq<int>, mean: int): (r: seq<int>)
    requires |path| == |angle|
  {
    if path == [] then [] else
    var m := |path| - 1;
    Kept(path[..m], angle[..m], mean) + if OutOfBand(angle[m] - mean) then [] else [path[m]]
  }

  lemma KeptSnoc(path: seq<int>, angle: seq<int>, mean: int, i: nat)
    requires i < |path| == |angle|
    ensures Kept(path[..i + 1], angle[..i + 1], mean) ==
      Kept(path[..i], angle[..i], mean) + if OutOfBand(angle[i] - mean) then [] else [path[i]]
  {
    assert path[..i + 1][..i] == path[..i] && angle[..i + 1][..i] == angle[..i];
  }

  lemma {:induction false} KeptIsSublist(path: seq<int>, angle: seq<int>, mean: int)
    requires |path| == |angle|
    ensures |Kept(path, angle, mean)| <= |path|
    ensures forall x :: x in Kept(path, angle, mean) ==> x in path
    ensures Distinct(path) ==> Distinct(Kept(path, angle, mean))
  {
    if path != [] {
      var m := |path| - 1;
      KeptIsSublist(path[..m], angle[..m], mean);
      var k := Kept(path[..m], angle[..m], mean);
      assert path == path[..m] + [path[m]];
      assert forall x :: x in k ==> x in path[..m];
      if Distinct(path) {
        assert Distinct(path[..m]);
        forall i | 0 <= i < |k| ensures k[i] != path[m] {
          assert k[i] in k;
        }
      }
    }
  }

  /** The prune keeps exactly the edges within 11 degrees of the mean, around the circle. */
  lemma {:induction false} KeptIsCircular(path: seq<int>, angle: seq<int>, mean: int, i: nat)
    requires |path| == |angle| && Distinct(path) && AllFolded(angle) && -180 < mean <= 180 && i < |path|
    ensures path[i] in Kept(path, angle, mean) <==> CircularDistance(angle[i], mean) <= 11
  {
    var m := |path| - 1;
    assert Distinct(path[..m]) && AllFolded(angle[..m]);
    KeptIsSublist(path[..m], angle[..m], mean);
    BandIsCircular(angle[m], mean);
    if i < m {
      KeptIsCircular(path[..m], angle[..m], mean, i);
    } else {
      assert path[m] !in path[..m];
    }
  }

  lemma NothingKept(mean: int)
    ensures Kept([], [], mean) == []
  {
  }
}
