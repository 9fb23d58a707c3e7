/**
 * What the gates between two clusters decide: that the two describe one and the same turn of the print, and
 * have no minutia in common.
 */
module Gates {
  import opened Consts
  import opened Rotation
  import opened Clusters

  /** Twice the angle half-way between `a` and `b` on the shorter arc. */
  function TwiceMiddle(a: int, b: int): (h: int) {
    if -180 <= a - b <= 180 then a + b else if a + b <= 0 then a + b + 360 else a + b - 360
  }

  /** The angle half-way between `a` and `b`, a half degree going away from zero. */
  function Middle(a: int, b: int): (m: int) {
    var h := TwiceMiddle(a, b);
    var r := if h >= 0 then (h + 1) / 2 else -((1 - h) / 2);
    if r == -180 then 180 else r
  }

  lemma TwiceMiddleIs(a: int, b: int)
    requires -180 < a <= 180 && -180 < b <= 180
    ensures TwiceMiddle(a, b) == DoubleMean(a, b) && -360 < TwiceMiddle(a, b) <= 360
  {
  }

  lemma HalfRounded(h: int)
    ensures RoundHalfAway(h as real / 2.0) == if h >= 0 then (h + 1) / 2 else -((1 - h) / 2)
  {
    if h >= 0 {
      assert h as real / 2.0 + 0.5 == (h + 1) as real / 2.0;
      HalfFloor(h + 1);
    } else {
      assert 0.5 - h as real / 2.0 == (1 - h) as real / 2.0;
      HalfFloor(1 - h);
    }
  }

  lemma HalfFloor(n: int)
    ensures (n as real / 2.0).Floor == n / 2
  {
    var q := n / 2;
    assert n == 2 * q || n == 2 * q + 1;
    assert q as real <= n as real / 2.0 < (q + 1) as real;
  }

  /** The mean of two rotations is their rounded middle. */
  lemma MeanIsMiddle(a: int, b: int)
    requires -180 < a <= 180 && -180 < b <= 180
    ensures MeanRotation([a, b]) == Middle(a, b) && -180 < Middle(a, b) <= 180
  {
    hide RawMean, SplitSum, DoubleMean, RoundHalfAway, TwiceMiddle;
    RawMeanOfTwo(a, b);
    TwiceMiddleIs(a, b);
    HalfRounded(DoubleMean(a, b));
  }

  lemma MiddleIsSymmetric(a: int, b: int)
    ensures Middle(a, b) == Middle(b, a)
  {
  }

  /** The squared length of the vector (dx, dy). */
  function Squared(dx: int, dy: int): (r: int) {
    dx * dx + dy * dy
  }

  /**
   * Two clusters agree: their rotations are within 11 degrees; the centroids are about as far apart in one
   * print as in the other; the vector from one centroid to the other is turned, from gallery to probe, by about
   * as much as the clusters are; and no minutia of either print is in both.
   */
  ghost predicate Agree(a: Cluster, b: Cluster, angle: (int, int) -> int) {
    var px, py := Wrap32(b.avg.px - a.avg.px), Wrap32(b.avg.py - a.avg.py);
    var gx, gy := Wrap32(b.avg.gx - a.avg.gx), Wrap32(b.avg.gy - a.avg.gy);
    && CircularDistance(a.avg.rot, b.avg.rot) <= 11
    && 9 * Squared(px, py) <= 11 * Squared(gx, gy) && 9 * Squared(gx, gy) <= 11 * Squared(px, py)
    && CircularDistance(angle(py, px) - angle(gy, gx), Middle(a.avg.rot, b.avg.rot)) <= 11
    && (forall e :: !(e in a.probeEnds && e in b.probeEnds))
    && (forall e :: !(e in a.galleryEnds && e in b.galleryEnds))
  }

  /** A rotation and directions as degrees of a half turn either way. */
  ghost predicate Turns(angle: (int, int) -> int) {
    forall dy, dx :: -180 <= angle(dy, dx) <= 180
  }

  lemma MeetsIs(a: seq<int>, b: seq<int>)
    ensures Meets(a, b) <==> exists e :: e in a && e in b
  {
    if Meets(a, b) {
      var i :| 0 <= i < |a| && a[i] in b;
      var e := a[i];
      assert e in a && e in b;
    }
    if e :| e in a && e in b {
      var i :| 0 <= i < |a| && a[i] == e;
      assert a[i] in b;
    }
  }

  lemma SpacingIs(px: int, py: int, gx: int, gy: int)
    ensures SpacingAgrees(px, py, gx, gy)
      <==> 9 * Squared(px, py) <= 11 * Squared(gx, gy) && 9 * Squared(gx, gy) <= 11 * Squared(px, py)
  {
  }

  lemma TurnIs(mean: int, p: int, g: int)
    requires -180 < mean <= 180 && -180 <= p <= 180 && -180 <= g <= 180
    ensures OutOfBand(mean - Iangle180(p - g)) <==> CircularDistance(p - g, mean) > 11
  {
    hide CircularDistance, OutOfBand;
    var d := Iangle180(p - g);
    BandIsCircular(mean, d);
    CircularIsSymmetric(mean, d);
    FullTurnsVanish(p - g, d, mean, mean);
  }

  lemma CircularIsSymmetric(a: int, b: int)
    ensures CircularDistance(a, b) == CircularDistance(b, a)
  {
    var q, m := (a - b) / 360, (a - b) % 360;
    assert a - b == 360 * q + m;
    SameRemainder(b - a, if m == 0 then 0 else 360 - m, if m == 0 then -q else -q - 1);
  }

  /** The gates let through exactly the pairs of clusters that agree. */
  lemma CompatibleIsAgreement(a: Cluster, b: Cluster, angle: (int, int) -> int)
    requires -180 < a.avg.rot <= 180 && -180 < b.avg.rot <= 180 && Turns(angle)
    ensures Compatible(a, b, angle) <==> Agree(a, b, angle)
  {
    hide CircularDistance, OutOfBand, SpacingAgrees, Squared, Middle, MeanRotation, Wrap32, Iangle180, Meets;
    var px, py := Wrap32(b.avg.px - a.avg.px), Wrap32(b.avg.py - a.avg.py);
    var gx, gy := Wrap32(b.avg.gx - a.avg.gx), Wrap32(b.avg.gy - a.avg.gy);
    BandIsCircular(b.avg.rot, a.avg.rot);
    CircularIsSymmetric(b.avg.rot, a.avg.rot);
    SpacingIs(px, py, gx, gy);
    MeanIsMiddle(b.avg.rot, a.avg.rot);
    MiddleIsSymmetric(a.avg.rot, b.avg.rot);
    TurnIs(Middle(a.avg.rot, b.avg.rot), angle(py, px), angle(gy, gx));
    MeetsIs(a.probeEnds, b.probeEnds);
    MeetsIs(a.galleryEnds, b.galleryEnds);
  }
}
