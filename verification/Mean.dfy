/**
 * What the mean of a list of directions is: the average of their offsets along any arc of less than a half
 * turn that holds them all, to within rounding; so a path whose rotations lie close together loses no edge.
 */
module Mean {
  import opened Consts
  import opened Seqs
  import opened Rotation
  import opened Paths
  import opened Clusters
  import opened Seeds

  /** How far `a` lies beyond `lo`, going up around the circle. */
  function Offset(a: int, lo: int): (r: int)
    ensures 0 <= r < 360
  {
    (a - lo) % 360
  }

  /** All of `v` lies on the arc of `w` degrees that begins at `lo`. */
  ghost predicate OnArc(v: seq<int>, lo: int, w: int) {
    forall i :: 0 <= i < |v| ==> Offset(v[i], lo) <= w
  }

  function Offsets(v: seq<int>, lo: int): (r: int) {
    if v == [] then 0 else Offsets(v[..|v| - 1], lo) + Offset(v[|v| - 1], lo)
  }

  // --- Sums by sign ---------------------------------------------------------------------------

  /** The negative members of `v` lie between `a` and `b`, the others between `c` and `d`. */
  ghost predicate SignsWithin(v: seq<int>, a: int, b: int, c: int, d: int) {
    forall i :: 0 <= i < |v| ==> if v[i] < 0 then a <= v[i] <= b else c <= v[i] <= d
  }

  lemma {:induction false} SplitWithin(v: seq<int>, a: int, b: int, c: int, d: int)
    requires SignsWithin(v, a, b, c, d)
    ensures var s := SplitSum(v);
      a * s.nneg <= s.neg <= b * s.nneg && c * s.npos <= s.pos <= d * s.npos
  {
    if v != [] {
      var m := |v| - 1;
      SplitWithin(v[..m], a, b, c, d);
      var s := SplitSum(v[..m]);
      if v[m] < 0 {
        TimesNext(a, s.nneg);
        TimesNext(b, s.nneg);
      } else {
        TimesNext(c, s.npos);
        TimesNext(d, s.npos);
      }
    }
  }

  lemma TimesNext(a: int, n: int)
    ensures a * (n + 1) == a * n + a
  {
  }

  /** Where the arc stays below a half turn, offsets are differences. */
  lemma {:induction false} PlainOffsets(v: seq<int>, lo: int, w: int)
    requires AllFolded(v) && OnArc(v, lo, w) && -180 < lo && lo + w <= 180 && 0 <= w < 180
    ensures var s := SplitSum(v); Offsets(v, lo) == s.neg + s.pos - lo * |v|
    ensures SignsWithin(v, lo, lo + w, lo, lo + w)
  {
    if v != [] {
      var m := |v| - 1;
      PlainOffsets(v[..m], lo, w);
      PlainOffset(v[m], lo, w);
      TimesNext(lo, m);
      forall i | 0 <= i < |v| ensures lo <= v[i] <= lo + w { PlainOffset(v[i], lo, w); }
    }
  }

  lemma PlainOffset(a: int, lo: int, w: int)
    requires -180 < a <= 180 && Offset(a, lo) <= w && -180 < lo && lo + w <= 180 && 0 <= w < 180
    ensures lo <= a <= lo + w && Offset(a, lo) == a - lo
  {
  }

  /** Where the arc crosses the half turn, the negative angles are a full turn further on. */
  lemma {:induction false} CrossingOffsets(v: seq<int>, lo: int, w: int)
    requires AllFolded(v) && OnArc(v, lo, w) && lo <= 180 < lo + w && 0 <= w < 180
    ensures var s := SplitSum(v); Offsets(v, lo) == s.neg + s.pos + 360 * s.nneg - lo * |v|
    ensures SignsWithin(v, -179, lo + w - 360, lo, 180)
  {
    if v != [] {
      var m := |v| - 1;
      CrossingOffsets(v[..m], lo, w);
      CrossingOffset(v[m], lo, w);
      TimesNext(lo, m);
      forall i | 0 <= i < |v|
        ensures if v[i] < 0 then -179 <= v[i] <= lo + w - 360 else lo <= v[i] <= 180
      {
        CrossingOffset(v[i], lo, w);
      }
    }
  }

  lemma CrossingOffset(a: int, lo: int, w: int)
    requires -180 < a <= 180 && Offset(a, lo) <= w && lo <= 180 < lo + w && 0 <= w < 180
    ensures if a < 0 then a <= lo + w - 360 && Offset(a, lo) == a + 360 - lo else lo <= a && Offset(a, lo) == a - lo
  {
  }

  // --- The mean before rounding ---------------------------------------------------------------

  /** `r` is the `n`-th part of `a`, and lies between `lo` and `hi`. */
  ghost predicate IsPart(r: real, a: int, n: int, lo: int, hi: int) {
    r * n as real == a as real && lo as real <= r <= hi as real
  }

  lemma PartOf(a: int, n: int, lo: int, hi: int)
    requires n > 0 && lo * n <= a <= hi * n
    ensures IsPart(a as real / n as real, a, n, lo, hi)
  {
    DivBounds(a, n, lo, hi);
  }

  lemma SumWithin(a: int, b: int, m: int, n: int, lo: int, hi: int)
    requires lo * m <= a <= hi * m && lo * n <= b <= hi * n
    ensures lo * (m + n) <= a + b <= hi * (m + n)
  {
    assert lo * (m + n) == lo * m + lo * n && hi * (m + n) == hi * m + hi * n;
  }

  /** Angles within less than a half turn are averaged as they are. */
  lemma PlainMean(s: Split, lo: int, hi: int)
    requires s.nneg + s.npos > 0 && -180 < lo && hi <= 180 && hi - lo <= 180
    requires (s.nneg == 0 ==> s.neg == 0) && (s.npos == 0 ==> s.pos == 0)
    requires lo * s.nneg <= s.neg <= hi * s.nneg && lo * s.npos <= s.pos <= hi * s.npos
    ensures IsPart(RawMean(s), s.neg + s.pos, s.nneg + s.npos, lo, hi)
  {
    SumWithin(s.neg, s.pos, s.nneg, s.npos, lo, hi);
    PartOf(s.neg + s.pos, s.nneg + s.npos, lo, hi);
    if s.nneg > 0 { PartOf(s.neg, s.nneg, lo, hi); }
    if s.npos > 0 { PartOf(s.pos, s.npos, lo, hi); }
    hide IsPart;
    NotLifted(s, lo, hi);
  }

  lemma NotLifted(s: Split, lo: int, hi: int)
    requires s.nneg + s.npos > 0 && -180 < lo && hi <= 180 && hi - lo <= 180
    requires (s.nneg == 0 ==> s.neg == 0) && (s.npos == 0 ==> s.pos == 0)
    requires lo * s.nneg <= s.neg <= hi * s.nneg && lo * s.npos <= s.pos <= hi * s.npos
    ensures RawMean(s) == (s.neg + s.pos) as real / (s.nneg + s.npos) as real
  {
    if s.nneg > 0 { DivBounds(s.neg, s.nneg, lo, hi); }
    if s.npos > 0 { DivBounds(s.pos, s.npos, lo, hi); }
  }

  /** Angles of both signs around the half turn are averaged with the negative ones a full turn further on. */
  lemma LiftedMean(s: Split, lo: int, hi: int)
    requires s.nneg > 0 && s.npos > 0 && lo <= 180 < hi && hi - lo < 180
    requires -179 * s.nneg <= s.neg <= (hi - 360) * s.nneg && lo * s.npos <= s.pos <= 180 * s.npos
    ensures var f := (s.neg + s.pos + 360 * s.nneg) as real / (s.nneg + s.npos) as real;
      && IsPart(f, s.neg + s.pos + 360 * s.nneg, s.nneg + s.npos, lo, hi)
      && RawMean(s) == if f > 180.0 then f - 360.0 else f
  {
    var lifted := s.neg + 360 * s.nneg;
    assert (hi - 360) * s.nneg == hi * s.nneg - 360 * s.nneg;
    assert lo * s.nneg <= 181 * s.nneg && s.pos <= hi * s.npos by {
      ScaleUp(s.nneg, lo, 181);
      ScaleUp(s.npos, 180, hi);
    }
    SumWithin(lifted, s.pos, s.nneg, s.npos, lo, hi);
    PartOf(lifted + s.pos, s.nneg + s.npos, lo, hi);
    hide IsPart;
    IsLifted(s, lo, hi);
  }

  lemma IsLifted(s: Split, lo: int, hi: int)
    requires s.nneg > 0 && s.npos > 0 && hi - lo < 180
    requires -179 * s.nneg <= s.neg <= (hi - 360) * s.nneg && lo * s.npos <= s.pos <= 180 * s.npos
    ensures RawMean(s) ==
      var f := (s.pos + s.neg + s.nneg * 360) as real / (s.nneg + s.npos) as real; if f > 180.0 then f - 360.0 else f
  {
    DivBounds(s.neg, s.nneg, -179, hi - 360);
    DivBounds(s.pos, s.npos, lo, 180);
  }

  /** `r` is the average of offsets that add up to `total`, measured from `lo` or from a full turn before it. */
  ghost predicate Averages(r: real, total: int, n: int, lo: int) {
    && -180.0 < r <= 180.0
    && (r * n as real == (total + lo * n) as real || r * n as real == (total + (lo - 360) * n) as real)
  }

  lemma NegativeAverages(r: real, neg: int, n: int, lo: int, hi: int, total: int)
    requires IsPart(r, neg, n, -179, hi) && hi < 0 && total == neg + 360 * n - lo * n
    ensures Averages(r, total, n, lo)
  {
    assert (lo - 360) * n == lo * n - 360 * n;
  }

  lemma LiftedAverages(f: real, sum: int, n: int, lo: int, hi: int, total: int)
    requires IsPart(f, sum, n, lo, hi) && 0 < lo && hi < 360 && total == sum - lo * n
    ensures Averages(if f > 180.0 then f - 360.0 else f, total, n, lo)
  {
    assert (lo - 360) * n == lo * n - 360 * n;
    assert (f - 360.0) * n as real == f * n as real - 360.0 * n as real;
  }

  lemma RawMeanAverages(v: seq<int>, lo: int, w: int)
    requires v != [] && AllFolded(v) && -180 < lo <= 180 && 0 <= w < 180 && OnArc(v, lo, w)
    ensures SplitSum(v).nneg + SplitSum(v).npos == |v|
    ensures Averages(RawMean(SplitSum(v)), Offsets(v, lo), |v|, lo)
  {
    var s, n := SplitSum(v), |v|;
    hide RawMean, OnArc, SplitSum, Offsets, SignsWithin, Averages, AllFolded;
    if lo + w <= 180 {
      PlainOffsets(v, lo, w);
      SplitWithin(v, lo, lo + w, lo, lo + w);
      PlainMean(s, lo, lo + w);
      PlainAverages(RawMean(s), s.neg + s.pos, n, lo, lo + w, Offsets(v, lo));
    } else {
      CrossingOffsets(v, lo, w);
      SplitWithin(v, -179, lo + w - 360, lo, 180);
      CrossingAverages(s, lo, w, Offsets(v, lo));
    }
  }

  lemma PlainAverages(r: real, sum: int, n: int, lo: int, hi: int, total: int)
    requires IsPart(r, sum, n, lo, hi) && -180 < lo && hi <= 180 && total == sum - lo * n
    ensures Averages(r, total, n, lo)
  {
  }

  lemma CrossingAverages(s: Split, lo: int, w: int, total: int)
    requires s.nneg + s.npos > 0 && lo <= 180 < lo + w && 0 <= w < 180
    requires (s.nneg == 0 ==> s.neg == 0) && (s.npos == 0 ==> s.pos == 0)
    requires -179 * s.nneg <= s.neg <= (lo + w - 360) * s.nneg && lo * s.npos <= s.pos <= 180 * s.npos
    requires total == s.neg + s.pos + 360 * s.nneg - lo * (s.nneg + s.npos)
    ensures Averages(RawMean(s), total, s.nneg + s.npos, lo)
  {
    hide RawMean, Averages;
    var n := s.nneg + s.npos;
    if s.nneg == 0 {
      PlainMean(s, lo, 180);
      PlainAverages(RawMean(s), s.pos, n, lo, 180, total);
    } else if s.npos == 0 {
      PlainMean(s, -179, lo + w - 360);
      NegativeAverages(RawMean(s), s.neg, n, lo, lo + w - 360, total);
    } else {
      LiftedMean(s, lo, lo + w);
      var sum := s.neg + s.pos + 360 * s.nneg;
      LiftedAverages(sum as real / n as real, sum, n, lo, lo + w, total);
    }
  }

  // --- The mean -------------------------------------------------------------------------------

  ghost function Times(d: real, n: int): (r: real) {
    d * n as real
  }

  lemma RoundsNear(r: real, a: int, n: int, lo: int, hi: int)
    requires n > 0 && r * n as real == a as real && lo as real <= r <= hi as real
    ensures var m := RoundHalfAway(r); lo <= m <= hi && -n <= 2 * (a - n * m) <= n
  {
    var m := RoundHalfAway(r);
    assert -0.5 <= r - m as real <= 0.5 && lo <= m <= hi;
    hide *;
    RestIs(r, a, n, m);
    HalfTimes(r - m as real, n);
    WholeBound(Times(r - m as real, n), a - n * m, n);
  }

  lemma RestIs(r: real, a: int, n: int, m: int)
    requires r * n as real == a as real
    ensures Times(r - m as real, n) == (a - n * m) as real
  {
    assert (r - m as real) * n as real == r * n as real - m as real * n as real;
    assert (n * m) as real == m as real * n as real;
  }

  lemma HalfTimes(d: real, n: int)
    requires n > 0 && -0.5 <= d <= 0.5
    ensures -(n as real) <= 2.0 * Times(d, n) <= n as real
  {
    NotNegative(0.5 - d, n as real);
    NotNegative(d + 0.5, n as real);
  }

  lemma NotNegative(a: real, b: real)
    requires a >= 0.0 && b >= 0.0
    ensures a * b >= 0.0
  {
  }

  lemma WholeBound(x: real, e: int, n: int)
    requires x == e as real && -(n as real) <= 2.0 * x <= n as real
    ensures -n <= 2 * e <= n
  {
    assert 2.0 * (e as real) == (2 * e) as real;
  }

  lemma PartBounds(r: real, total: int, n: int, base: int, w: int)
    requires n > 0 && 0 <= total <= w * n && r * n as real == (total + base * n) as real
    ensures base as real <= r <= (base + w) as real
  {
    assert (base + w) * n == base * n + w * n;
    assert (base * n) as real == base as real * n as real && ((base + w) * n) as real == (base + w) as real * n as real;
    Cancel(base as real, r, n as real);
    Cancel(r, (base + w) as real, n as real);
  }

  lemma FoldedOffset(m: int, lo: int, base: int, w: int)
    requires -180 < lo <= 180 && 0 <= w < 180 && (base == lo || base == lo - 360)
    requires base <= m <= base + w && -180 <= m <= 180
    ensures Offset(if m <= -180 then m + 360 else m, lo) == m - base
  {
  }

  lemma RoundedAverage(r: real, total: int, n: int, lo: int, w: int, base: int)
    requires n > 0 && -180 < lo <= 180 && 0 <= w < 180 && 0 <= total <= w * n && -180.0 < r <= 180.0
    requires (base == lo || base == lo - 360) && r * n as real == (total + base * n) as real
    ensures var o := Offset(FoldMean(r), lo); o <= w && -n <= 2 * (total - n * o) <= n
  {
    hide Offset, RoundHalfAway;
    PartBounds(r, total, n, base, w);
    RoundsNear(r, total + base * n, n, base, base + w);
    WithinHalfTurn(r);
    var m := RoundHalfAway(r);
    FoldedOffset(m, lo, base, w);
    assert n * (m - base) == n * m - base * n;
  }

  lemma AverageRounds(r: real, total: int, n: int, lo: int, w: int)
    requires n > 0 && -180 < lo <= 180 && 0 <= w < 180 && 0 <= total <= w * n && Averages(r, total, n, lo)
    ensures var o := Offset(FoldMean(r), lo); o <= w && -n <= 2 * (total - n * o) <= n
  {
    hide Offset, FoldMean;
    if r * n as real == (total + lo * n) as real {
      RoundedAverage(r, total, n, lo, w, lo);
    } else {
      RoundedAverage(r, total, n, lo, w, lo - 360);
    }
  }

  lemma WithinHalfTurn(r: real)
    requires -180.0 < r <= 180.0
    ensures -180 <= RoundHalfAway(r) <= 180
  {
  }

  lemma {:induction false} OffsetsWithin(v: seq<int>, lo: int, w: int)
    requires OnArc(v, lo, w)
    ensures 0 <= Offsets(v, lo) <= w * |v|
  {
    hide Offset;
    if v != [] {
      OffsetsWithin(v[..|v| - 1], lo, w);
      TimesNext(w, |v| - 1);
      assert Offset(v[|v| - 1], lo) <= w;
    }
  }

  /**
   * The mean of directions on an arc of less than a half turn lies on that arc, wherever on the circle it is,
   * and its offset along the arc is the average of theirs, rounded to a whole degree.
   */
  lemma MeanIsAverage(v: seq<int>, lo: int, w: int)
    requires v != [] && AllFolded(v) && -180 < lo <= 180 && 0 <= w < 180
    requires forall i :: 0 <= i < |v| ==> Offset(v[i], lo) <= w
    ensures var o := Offset(MeanRotation(v), lo); o <= w && -|v| <= 2 * (Offsets(v, lo) - |v| * o) <= |v|
  {
    hide RawMean, SplitSum, Offset, FoldMean, Averages, Offsets;
    RawMeanAverages(v, lo, w);
    OffsetsWithin(v, lo, w);
    AverageRounds(RawMean(SplitSum(v)), Offsets(v, lo), |v|, lo, w);
  }

  /** The mean of angles between `lo` and `hi`, at most a half turn apart as numbers, is between them too. */
  lemma MeanStaysBetween(v: seq<int>, lo: int, hi: int)
    requires v != [] && AllFolded(v) && hi - lo <= 180
    requires forall i :: 0 <= i < |v| ==> lo <= v[i] <= hi
    ensures lo <= MeanRotation(v) <= hi
  {
    hide RawMean, SplitSum, RoundHalfAway;
    var a, b := if lo < -179 then -179 else lo, if hi > 180 then 180 else hi;
    assert a <= v[0] <= b;
    SplitWithin(v, a, b, a, b);
    var s := SplitSum(v);
    PlainMean(s, a, b);
    RoundsNear(RawMean(s), s.neg + s.pos, s.nneg + s.npos, a, b);
  }

  // --- Any angles -----------------------------------------------------------------------------

  function Sum(v: seq<int>): (r: int) {
    if v == [] then 0 else Sum(v[..|v| - 1]) + v[|v| - 1]
  }

  /** The members of `v` that are negative, or those that are not. */
  function OfSign(v: seq<int>, negative: bool): (r: seq<int>) {
    if v == [] then [] else
    var a := v[|v| - 1];
    OfSign(v[..|v| - 1], negative) + if (a < 0) == negative then [a] else []
  }

  lemma {:induction false} SplitIsBySign(v: seq<int>)
    ensures SplitSum(v) == Split(Sum(OfSign(v, true)), Sum(OfSign(v, false)), |OfSign(v, true)|, |OfSign(v, false)|)
  {
    if v != [] {
      var m := |v| - 1;
      SplitIsBySign(v[..m]);
      SumSnoc(OfSign(v[..m], v[m] < 0), v[m]);
      OfSignUnfolds(v);
    }
  }

  lemma OfSignUnfolds(v: seq<int>)
    requires v != []
    ensures var m := |v| - 1;
      && OfSign(v, v[m] < 0) == OfSign(v[..m], v[m] < 0) + [v[m]] && OfSign(v, v[m] >= 0) == OfSign(v[..m], v[m] >= 0)
  {
  }

  lemma SumSnoc(v: seq<int>, a: int)
    ensures Sum(v + [a]) == Sum(v) + a
  {
    assert (v + [a])[..|v|] == v;
  }

  /**
   * The mean of any angles: the average; unless there are both negative angles and others, and the averages of
   * the two kinds are more than a half turn apart: then that with the negative angles a full turn further on,
   * a full turn less if it is beyond the half turn. Rounded, and -180 and less a full turn more.
   */
  lemma MeanIs(v: seq<int>)
    requires v != []
    ensures var a, b := OfSign(v, true), OfSign(v, false);
      var apart := a != [] && b != [] && Sum(b) * |a| - Sum(a) * |b| > 180 * |a| * |b|;
      var f := (Sum(a) + Sum(b) + if apart then 360 * |a| else 0) as real / |v| as real;
      var m := RoundHalfAway(if apart && f > 180.0 then f - 360.0 else f);
      AllFolded(v) ==> MeanRotation(v) == if m <= -180 then m + 360 else m
  {
    hide RoundHalfAway, SplitSum, RawMean, OfSign, Sum;
    SplitIsBySign(v);
    var s := SplitSum(v);
    if AllFolded(v) {
      SplitBounds(v);
      RawMeanIs(s);
    }
  }

  lemma RawMeanIs(s: Split)
    requires s.nneg + s.npos > 0 && (s.nneg == 0 ==> s.neg == 0) && (s.npos == 0 ==> s.pos == 0)
    requires -180 * s.nneg <= s.neg <= 0 <= s.pos <= 180 * s.npos
    ensures var apart := s.nneg > 0 && s.npos > 0 && s.pos * s.nneg - s.neg * s.npos > 180 * s.nneg * s.npos;
      var f := (s.neg + s.pos + if apart then 360 * s.nneg else 0) as real / (s.nneg + s.npos) as real;
      RawMean(s) == if apart && f > 180.0 then f - 360.0 else f
  {
    if s.nneg > 0 && s.npos > 0 {
      ApartIs(s.pos, s.npos, s.neg, s.nneg);
    } else if s.npos > 0 {
      DivBounds(s.pos, s.npos, 0, 180);
    } else {
      DivBounds(s.neg, s.nneg, -180, 0);
    }
  }

  lemma ApartIs(p: int, l: int, n: int, k: int)
    requires l > 0 && k > 0
    ensures p as real / l as real - n as real / k as real > 180.0 <==> p * k - n * l > 180 * k * l
  {
    var x, y := p as real / l as real, n as real / k as real;
    assert x * l as real == p as real && y * k as real == n as real;
    assert (x - y - 180.0) * (l as real * k as real) == (p * k - n * l - 180 * k * l) as real;
    var z := l as real * k as real;
    assert z > 0.0;
    SignOfProduct(x - y - 180.0, z);
  }

  lemma SignOfProduct(a: real, b: real)
    requires b > 0.0
    ensures a * b > 0.0 <==> a > 0.0
  {
  }

  // --- Paths whose edges agree ----------------------------------------------------------------

  /** No two of the angles are more than 11 degrees apart. */
  ghost predicate Tight(v: seq<int>) {
    forall i, j :: 0 <= i < j < |v| ==> CircularDistance(v[i], v[j]) <= 11
  }

  lemma CloseOffset(x: int, lo: int)
    requires CircularDistance(lo, x) <= 11
    ensures Offset(x, lo) <= 11 || Offset(lo, x) <= 11
  {
  }

  lemma FromEarlier(x: int, lo: int, y: int)
    requires Offset(lo, x) <= 11 && Offset(y, lo) <= 11 && CircularDistance(y, x) <= 11
    ensures Offset(y, x) <= 11
  {
    assert (y - x) % 360 == Offset(y, lo) + Offset(lo, x) by { SumOfOffsets(x, lo, y); }
  }

  lemma SumOfOffsets(x: int, lo: int, y: int)
    requires Offset(lo, x) <= 11 && Offset(y, lo) <= 11
    ensures (y - x) % 360 == Offset(y, lo) + Offset(lo, x)
  {
    var o := Offset(y, lo) + Offset(lo, x);
    var q := (y - lo) / 360 + (lo - x) / 360;
    assert y - x == o + 360 * q;
    SameRemainder(y - x, o, q);
  }

  /** Angles that close together begin an arc of 11 degrees at one of them. */
  lemma {:induction false} TightIsArc(v: seq<int>) returns (first: nat)
    requires v != [] && Tight(v)
    ensures first < |v| && OnArc(v, v[first], 11)
  {
    hide CircularDistance, Offset;
    var m := |v| - 1;
    if m == 0 {
      first := 0;
      assert Offset(v[0], v[0]) == 0 by { NoOffset(v[0]); }
    } else {
      first := TightIsArc(v[..m]);
      var lo, x := v[first], v[m];
      NoOffset(x);
      CloseOffset(x, lo);
      if Offset(x, lo) <= 11 {
        forall i | 0 <= i < |v| ensures Offset(v[i], lo) <= 11 { if i < m { assert v[..m][i] == v[i]; } }
      } else {
        forall i | 0 <= i < |v| ensures Offset(v[i], x) <= 11 {
          if i < m { assert v[..m][i] == v[i]; FromEarlier(x, lo, v[i]); }
        }
        first := m;
      }
    }
  }

  lemma NoOffset(a: int)
    ensures Offset(a, a) == 0
  {
  }

  lemma BothOnArc(a: int, b: int, lo: int)
    requires Offset(a, lo) <= 11 && Offset(b, lo) <= 11
    ensures CircularDistance(a, b) <= 11
  {
    var d := Offset(a, lo) - Offset(b, lo);
    var q := (a - lo) / 360 - (b - lo) / 360;
    assert a - b == d + 360 * q;
    SameRemainder(a - b, d, q);
  }

  /** Angles that close together are each within 11 degrees of their mean. */
  lemma MeanIsClose(v: seq<int>)
    requires v != [] && AllFolded(v) && Tight(v)
    ensures -180 < MeanRotation(v) <= 180
    ensures forall i :: 0 <= i < |v| ==> CircularDistance(v[i], MeanRotation(v)) <= 11
  {
    hide CircularDistance, Offset, MeanRotation, Offsets;
    var first := TightIsArc(v);
    MeanIsFolded(v);
    MeanIsAverage(v, v[first], 11);
    forall i | 0 <= i < |v| ensures CircularDistance(v[i], MeanRotation(v)) <= 11 {
      BothOnArc(v[i], MeanRotation(v), v[first]);
    }
  }

  lemma {:induction false} AllKept(path: seq<int>, angle: seq<int>, mean: int)
    requires |path| == |angle| && AllFolded(angle) && -180 < mean <= 180
    requires forall i :: 0 <= i < |angle| ==> CircularDistance(angle[i], mean) <= 11
    ensures Kept(path, angle, mean) == path
  {
    hide CircularDistance, OutOfBand;
    if path != [] {
      var m := |path| - 1;
      AllKept(path[..m], angle[..m], mean);
      BandIsCircular(angle[m], mean);
      assert path == path[..m] + [path[m]];
    }
  }

  /** Fewer than three edges are not pruned at all. */
  lemma ShortPathIsKept(path: seq<int>, rows: seq<ColpRow>)
    requires AllWithin(path, 1, |rows|) && |path| < 3
    ensures Pruned(path, rows) == path
  {
    hide Kept, MeanRotation;
  }

  /** A path whose rotations are within 11 degrees of one another loses no edge to the prune. */
  lemma TightPathIsKept(path: seq<int>, rows: seq<ColpRow>)
    requires AllWithin(path, 1, |rows|)
    requires forall i :: 0 <= i < |path| ==> -180 < rows[path[i] - 1].rot <= 180
    requires forall i, j :: 0 <= i < j < |path| ==>
      CircularDistance(rows[path[i] - 1].rot, rows[path[j] - 1].rot) <= 11
    ensures Pruned(path, rows) == path
  {
    hide CircularDistance, MeanRotation, Kept;
    var v := Along(path, rows, Rot);
    if path != [] {
      MeanIsClose(v);
      AllKept(path, v, MeanRotation(v));
    }
  }

  /** From three edges on it becomes a cluster of all of them. */
  lemma TightPathClusters(s: Search, t: Table, pr: Prints)
    requires AllWithin(s.w.path, 1, |t.rows|) && Distinct(s.w.path) && PrintsFit(t, pr) && |s.w.sc| == |s.w.rk|
    requires |s.w.path| >= 3 && forall i :: 0 <= i < |s.w.path| ==> -180 < t.rows[s.w.path[i] - 1].rot <= 180
    requires forall i, j :: 0 <= i < j < |s.w.path| ==>
      CircularDistance(t.rows[s.w.path[i] - 1].rot, t.rows[s.w.path[j] - 1].rot) <= 11
    ensures Settle(s, t, pr).clusters == s.clusters + [ClusterOf(s.w.path, t, pr)]
    ensures ClusterOf(s.w.path, t, pr).edges == s.w.path
  {
    hide CircularDistance, Pruned, RolledBack;
    TightPathIsKept(s.w.path, t.rows);
  }
}
