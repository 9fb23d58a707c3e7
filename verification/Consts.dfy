/** The reference matcher's constants and its small integer helpers. */
module Consts {
  const DM := 125
  const DM_SQUARED := DM * DM
  const FD := 5625
  const FDD := 500
  const TXS := 121
  const CTXS := 121801
  const MSTR := 3
  const MMSTR := 8
  const WWIM := 10
  const QQ_SIZE := 4000
  const ZERO_MATCH_SCORE := 0
  const DEFAULT_BOZORTH_MINUTIAE := 150
  const MIN_COMPUTABLE_BOZORTH_MINUTIAE := 10
  const TABLE_OVERFLOW_LIMIT := 19999
  const MAX_CLUSTERS := 1999

  function Iangle180(deg: int): (r: int)
    ensures -540 < deg <= 540 ==> -180 < r <= 180
    ensures (r - deg) % 360 == 0
  {
    if deg > 180 then deg - 360 else if deg <= -180 then deg + 360 else deg
  }

  function Sense(a: int, b: int): (r: int)
    ensures (r < 0 <==> a < b) && (r == 0 <==> a == b)
  {
    if a < b then -1 else if a == b then 0 else 1
  }

  function SenseNegPos(a: int, b: int): (r: int)
    ensures r != 0 && (r < 0 <==> a < b)
  {
    if a < b then -1 else 1
  }

  /** The 32-bit wrap-around of `wrapping_add` and `wrapping_sub`. */
  function Wrap32(a: int): (r: int)
    ensures -0x8000_0000 <= r < 0x8000_0000
    ensures -0x8000_0000 <= a < 0x8000_0000 ==> r == a
  {
    (a + 0x8000_0000) % 0x1_0000_0000 - 0x8000_0000
  }

  /** Integer division as the machine does it: toward zero. */
  function TruncDiv(a: int, b: int): (q: int)
    requires b > 0
    ensures a >= 0 ==> b * q <= a < b * q + b
    ensures a < 0 ==> b * q - b < a <= b * q
  {
    if a >= 0 then a / b else -((-a) / b)
  }

  /** Round half away from zero. */
  function RoundHalfAway(f: real): (r: int)
    ensures f >= 0.0 ==> r as real - 0.5 <= f < r as real + 0.5
    ensures f < 0.0 ==> r as real - 0.5 < f <= r as real + 0.5
  {
    if f < 0.0 then -((0.5 - f).Floor) else (f + 0.5).Floor
  }

  /** The angle band the matcher rejects: a difference past 11 degrees that a full turn does not excuse. */
  predicate OutOfBand(diff: int) {
    diff * diff > TXS && diff * diff < CTXS
  }

  /** Distance between two directions on the circle of degrees. */
  function CircularDistance(a: int, b: int): (d: int)
    ensures 0 <= d <= 180 && ((a - b - d) % 360 == 0 || (a - b + d) % 360 == 0)
  {
    var m := (a - b) % 360;
    if m <= 180 then m else 360 - m
  }

  /** Full turns do not change the distance. */
  lemma FullTurnsVanish(a: int, a': int, b: int, b': int)
    requires (a - a') % 360 == 0 && (b - b') % 360 == 0
    ensures CircularDistance(a, b) == CircularDistance(a', b')
  {
    assert (a - b) - (a' - b') == 360 * ((a - a') / 360 - (b - b') / 360);
    SameRemainder(a - b, a' - b', (a - a') / 360 - (b - b') / 360);
  }

  lemma SameRemainder(x: int, y: int, q: int)
    requires x - y == 360 * q
    ensures x % 360 == y % 360
  {
    assert x == 360 * (y / 360 + q) + y % 360;
  }

  lemma SquareBelow(a: int, b: int)
    requires 0 <= a && 0 <= b
    ensures a * a < b * b <==> a < b
  {
    if a < b {
      assert a * a <= a * b && a * b < b * b by { ScaleUp(a, a, b); ScaleUp(b, a, b); }
    } else {
      assert b * b <= b * a <= a * a by { ScaleUp(b, b, a); ScaleUp(a, b, a); }
    }
  }

  lemma ScaleUp(c: int, a: int, b: int)
    requires 0 <= c && a <= b
    ensures c * a <= c * b
    ensures 0 < c && a < b ==> c * a < c * b
  {
  }

  /** On folded angles the squared-difference band rejects exactly circular distance above 11. */
  lemma BandIsCircular(a: int, b: int)
    requires -180 < a <= 180 && -180 < b <= 180
    ensures OutOfBand(a - b) <==> CircularDistance(a, b) > 11
  {
    var d := if a >= b then a - b else b - a;
    assert d * d == (a - b) * (a - b);
    SquareBelow(11, d);
    SquareBelow(d, 349);
    assert (a - b) % 360 == if a >= b then a - b else a - b + 360;
  }
}
