/**
 * When the order in which a print's minutiae are listed does not matter: as long as none is cut off by the
 * cap, exactly when minutiae on one pixel have the same folded angle.
 */
module Permutation {
  import opened Consts
  import opened StableSort
  import opened Xyt
  import opened Matcher
  import opened Intra
  import opened Pipeline

  predicate SamePixel(a: Minutia, b: Minutia) {
    a.x == b.x && a.y == b.y
  }

  /** Minutiae on one pixel agree in their folded angle. */
  ghost predicate PixelsAgree(ms: seq<Minutia>) {
    forall i, j :: 0 <= i < j < |ms| && SamePixel(ms[i], ms[j]) ==> FoldTheta(ms[i].theta) == FoldTheta(ms[j].theta)
  }

  ghost predicate Tied(a: Point, b: Point) {
    ByXY(a, b) && ByXY(b, a)
  }

  /** Points that tie are equal. */
  ghost predicate TiesAreEqual(ps: seq<Point>) {
    forall x, y :: x in ps && y in ps && Tied(x, y) ==> x == y
  }

  // --- Sufficient -----------------------------------------------------------------------------

  lemma WithoutLast<T>(s: seq<T>)
    requires s != []
    ensures multiset(s[..|s| - 1]) == multiset(s) - multiset{s[|s| - 1]}
    ensures forall x :: x in s[..|s| - 1] ==> x in s
  {
    assert s == s[..|s| - 1] + [s[|s| - 1]];
  }

  lemma Without<T>(s: seq<T>, k: nat)
    requires k < |s|
    ensures multiset(s[..k] + s[k + 1..]) == multiset(s) - multiset{s[k]}
  {
    assert s == s[..k] + [s[k]] + s[k + 1..];
  }

  /** Where ties are equal, the members determine the sorted sequence. */
  lemma {:induction false} OneSorting(a: seq<Point>, b: seq<Point>)
    requires Sorted(a, ByXY) && Sorted(b, ByXY) && multiset(a) == multiset(b) && TiesAreEqual(a)
    ensures a == b
  {
    hide ByXY, Tied, Sorted;
    assert |multiset(a)| == |multiset(b)|;
    if a != [] {
      ShorterSorted(a);
      ShorterSorted(b);
      var m := |a| - 1;
      SameLast(a, b);
      WithoutLast(a);
      WithoutLast(b);
      OneSorting(a[..m], b[..m]);
      assert a == a[..m] + [a[m]] && b == b[..m] + [b[m]];
    }
  }

  lemma ShorterSorted(s: seq<Point>)
    requires Sorted(s, ByXY) && s != []
    ensures Sorted(s[..|s| - 1], ByXY)
  {
  }

  lemma SameLast(a: seq<Point>, b: seq<Point>)
    requires Sorted(a, ByXY) && Sorted(b, ByXY) && multiset(a) == multiset(b) && TiesAreEqual(a)
    requires a != [] && |b| == |a|
    ensures a[|a| - 1] == b[|a| - 1]
  {
    hide ByXY, Sorted;
    var x, y := a[|a| - 1], b[|a| - 1];
    assert x in multiset(b) && y in multiset(a);
    assert x in b && y in a;
    AtMostLast(a, y);
    AtMostLast(b, x);
    assert Tied(x, y);
  }

  lemma AtMostLast(s: seq<Point>, x: Point)
    requires Sorted(s, ByXY) && x in s
    ensures ByXY(x, s[|s| - 1])
  {
    var i :| 0 <= i < |s| && s[i] == x;
    assert i < |s| - 1 ==> ByXY(s[i], s[|s| - 1]);
  }

  /** Rearranging minutiae rearranges their points. */
  lemma {:induction false} PointsRearranged(a: seq<Minutia>, b: seq<Minutia>)
    requires multiset(a) == multiset(b)
    ensures multiset(Points(a)) == multiset(Points(b))
  {
    hide Points;
    assert |multiset(a)| == |multiset(b)|;
    if a == [] {
      assert Points(a) == [] && Points(b) == [];
    } else {
      var m := |a| - 1;
      assert a[m] in multiset(b);
      var k :| 0 <= k < |b| && b[k] == a[m];
      WithoutLast(a);
      Without(b, k);
      PointsRearranged(a[..m], b[..k] + b[k + 1..]);
      PointsWithout(a, m);
      PointsWithout(b, k);
      assert a[..m] + a[m + 1..] == a[..m];
      PutBack(Points(a), Points(b), Normalised(a[m]));
    }
  }

  lemma PointsWithout(ms: seq<Minutia>, k: nat)
    requires k < |ms|
    ensures Normalised(ms[k]) in Points(ms)
    ensures multiset(Points(ms[..k] + ms[k + 1..])) == multiset(Points(ms)) - multiset{Normalised(ms[k])}
  {
    var ps := Points(ms);
    assert ps[k] == Normalised(ms[k]);
    assert Points(ms[..k] + ms[k + 1..]) == ps[..k] + ps[k + 1..];
    Without(ps, k);
  }

  lemma PutBack<T>(a: seq<T>, b: seq<T>, x: T)
    requires x in a && x in b && multiset(a) - multiset{x} == multiset(b) - multiset{x}
    ensures multiset(a) == multiset(b)
  {
    assert multiset(a) == multiset(a) - multiset{x} + multiset{x};
    assert multiset(b) == multiset(b) - multiset{x} + multiset{x};
  }

  lemma PointsTieEqually(a: seq<Minutia>)
    requires PixelsAgree(a)
    ensures TiesAreEqual(Points(a))
  {
    forall x, y | x in Points(a) && y in Points(a) && Tied(x, y) ensures x == y {
      var i :| 0 <= i < |a| && Points(a)[i] == x;
      var j :| 0 <= j < |a| && Points(a)[j] == y;
      assert i < j ==> SamePixel(a[i], a[j]);
      assert j < i ==> SamePixel(a[j], a[i]);
    }
  }

  lemma PrepIgnoresOrder(a: seq<Minutia>, b: seq<Minutia>)
    requires PixelsAgree(a) && multiset(a) == multiset(b) && |a| <= DEFAULT_BOZORTH_MINUTIAE
    ensures Prep(a) == Prep(b)
  {
    assert |multiset(a)| == |multiset(b)|;
    PointsTieEqually(a);
    PointsRearranged(a, b);
    hide PixelsAgree, Points;
    SortsAlike(Points(a), Points(b));
  }

  lemma SortsAlike(a: seq<Point>, b: seq<Point>)
    requires TiesAreEqual(a) && multiset(a) == multiset(b)
    ensures Sort(a, ByXY) == Sort(b, ByXY)
  {
    hide Sort, Sorted;
    ByXYIsPreorder();
    SortSorts(a, ByXY);
    SortSorts(b, ByXY);
    SortElements(a, ByXY);
    SortElements(b, ByXY);
    forall x | x in Sort(a, ByXY) ensures x in a {
      assert x in multiset(Sort(a, ByXY));
      assert x in multiset(a);
    }
    OneSorting(Sort(a, ByXY), Sort(b, ByXY));
  }

  // --- Necessary ------------------------------------------------------------------------------

  /** Swapping two points that tie but differ shows in the order of their ties. */
  lemma SwapShows(s1: seq<Point>, x: Point, s2: seq<Point>, y: Point, s3: seq<Point>)
    requires Tied(x, y) && x != y
    ensures Sort(s1 + [x] + s2 + [y] + s3, ByXY) != Sort(s1 + [y] + s2 + [x] + s3, ByXY)
  {
    hide Sort, Ties, Preorder;
    ByXYIsPreorder();
    var a, b := s1 + [x] + s2 + [y] + s3, s1 + [y] + s2 + [x] + s3;
    SortIsStable(a, x, ByXY);
    SortIsStable(b, x, ByXY);
    TiesFrom(s1, x, s2 + [y] + s3, x);
    TiesFrom(s1, y, s2 + [x] + s3, x);
    assert a == s1 + ([x] + (s2 + [y] + s3)) && b == s1 + ([y] + (s2 + [x] + s3));
  }

  lemma TiesFrom(s1: seq<Point>, x: Point, rest: seq<Point>, e: Point)
    requires Tied(x, e)
    ensures var t, n := Ties(s1 + ([x] + rest), e, ByXY), |Ties(s1, e, ByXY)|; n < |t| && t[n] == x
  {
    TiesConcat(s1, [x] + rest, e, ByXY);
    TiesConcat([x], rest, e, ByXY);
    assert [x][..0] == [];
    assert Ties([x], e, ByXY) == [x];
  }

  lemma ColumnsDetermineRows(a: seq<Point>, b: seq<Point>)
    requires Columns(a) == Columns(b)
    ensures a == b
  {
    var p, q := Columns(a), Columns(b);
    assert |a| == |p.x| == |q.x| == |b|;
    forall i | 0 <= i < |a| ensures a[i] == b[i] {
      assert a[i].x == p.x[i] && b[i].x == q.x[i];
      assert a[i].y == p.y[i] && b[i].y == q.y[i];
      assert a[i].theta == p.theta[i] && b[i].theta == q.theta[i];
    }
  }

  /** Swapping two minutiae on one pixel with different folded angles changes the prepared print. */
  lemma SwapMatters(a: seq<Minutia>, i: nat, j: nat) returns (b: seq<Minutia>)
    requires i < j < |a| <= DEFAULT_BOZORTH_MINUTIAE && SamePixel(a[i], a[j])
    requires FoldTheta(a[i].theta) != FoldTheta(a[j].theta)
    ensures multiset(b) == multiset(a) && Prep(b) != Prep(a)
  {
    hide Sort, Columns;
    var s1, s2, s3 := a[..i], a[i + 1..j], a[j + 1..];
    b := s1 + [a[j]] + s2 + [a[i]] + s3;
    assert a == s1 + [a[i]] + s2 + [a[j]] + s3;
    var x, y := Normalised(a[i]), Normalised(a[j]);
    assert Points(a) == Points(s1) + [x] + Points(s2) + [y] + Points(s3);
    assert Points(b) == Points(s1) + [y] + Points(s2) + [x] + Points(s3);
    SwapShows(Points(s1), x, Points(s2), y, Points(s3));
    if Prep(b) == Prep(a) {
      ColumnsDetermineRows(Sort(Points(a), ByXY), Sort(Points(b), ByXY));
    }
  }

  /**
   * Within the cap every rearrangement of a print prepares the same exactly when minutiae on one pixel
   * have the same folded angle.
   */
  lemma OrderIsImmaterialIff(a: seq<Minutia>)
    requires |a| <= DEFAULT_BOZORTH_MINUTIAE
    ensures (forall b :: multiset(b) == multiset(a) ==> Prep(b) == Prep(a)) <==> PixelsAgree(a)
  {
    hide Prep;
    if PixelsAgree(a) {
      forall b | multiset(b) == multiset(a) ensures Prep(b) == Prep(a) {
        PrepIgnoresOrder(a, b);
      }
    } else {
      var i, j :| 0 <= i < j < |a| && SamePixel(a[i], a[j]) && FoldTheta(a[i].theta) != FoldTheta(a[j].theta);
      var b := SwapMatters(a, i, j);
    }
  }

  /** And so the score. */
  lemma OrderKeepsScore(probe: seq<Minutia>, probe': seq<Minutia>, gallery: seq<Minutia>, gallery': seq<Minutia>,
          slope: Slope, angle: (int, int) -> int, v: Verdict)
    requires PixelsAgree(probe) && multiset(probe) == multiset(probe') && |probe| <= DEFAULT_BOZORTH_MINUTIAE
    requires PixelsAgree(gallery) && multiset(gallery) == multiset(gallery') && |gallery| <= DEFAULT_BOZORTH_MINUTIAE
    ensures Scores(Prep(probe'), Prep(gallery'), slope, angle, v)
      <==> Scores(Prep(probe), Prep(gallery), slope, angle, v)
  {
    hide Prep, Scores, PixelsAgree;
    PrepIgnoresOrder(probe, probe');
    PrepIgnoresOrder(gallery, gallery');
  }

  /** The condition of `OrderIsImmaterialIff` cannot be dropped: two minutiae on a pixel, kept in the order given. */
  lemma OrderMattersOnOnePixel()
    ensures var a, b := Minutia(0, 0, 0), Minutia(0, 0, 90);
      multiset([a, b]) == multiset([b, a]) && Prep([a, b]).theta == [0, 90] && Prep([b, a]).theta == [90, 0]
  {
    var a, b := Minutia(0, 0, 0), Minutia(0, 0, 90);
    assert multiset([a, b]) == multiset([b, a]);
    SortTwo(Point(0, 0, 0), Point(0, 0, 90));
    SortTwo(Point(0, 0, 90), Point(0, 0, 0));
    hide Sort;
    assert Points([a, b]) == [Point(0, 0, 0), Point(0, 0, 90)];
    assert Points([b, a]) == [Point(0, 0, 90), Point(0, 0, 0)];
  }

  lemma SortTwo(a: Point, b: Point)
    requires ByXY(a, b)
    ensures Sort([a, b], ByXY) == [a, b]
  {
    assert [a, b][..1] == [a] && [a][..0] == [];
    assert Sort([a], ByXY) == [a];
  }
}
