/** Rounding to two decimals with ties to even, over exact numbers. */
module Rounding {

  /** The nearest integer, and the even one of two nearest. */
  function Nearest(x: real): int {
    var low := x.Floor;
    var above := x - low as real;
    if above < 0.5 || (above == 0.5 && low % 2 == 0) then low else low + 1
  }

  function Round2(x: real): real {
    Nearest(x * 100.0) as real / 100.0
  }

  lemma NearestClose(x: real)
    ensures Nearest(x) as real - 0.5 <= x <= Nearest(x) as real + 0.5
  {
  }

  lemma NearestMonotone(x: real, y: real)
    requires x <= y
    ensures Nearest(x) <= Nearest(y)
  {
    if x.Floor < y.Floor {
      assert x.Floor + 1 <= y.Floor;
    }
  }

  lemma NearestInteger(n: int)
    ensures Nearest(n as real) == n
  {
  }

  /** Rounding keeps order, moves a number by half a hundredth at most, and leaves hundredths alone. */
  lemma RoundingFacts(x: real, y: real)
    requires x <= y
    ensures Round2(x) <= Round2(y)
    ensures Round2(x) - 0.005 <= x <= Round2(x) + 0.005
    ensures Round2(Round2(x)) == Round2(x)
  {
    NearestMonotone(x * 100.0, y * 100.0);
    NearestClose(x * 100.0);
    NearestInteger(Nearest(x * 100.0));
  }

  /** `n` is nearest to `t`, and even if a neighbour is as near. */
  predicate IsNearest(t: real, n: int) {
    && n as real - 0.5 <= t <= n as real + 0.5
    && (t == n as real - 0.5 || t == n as real + 0.5 ==> n % 2 == 0)
  }

  /** `score` is `t` hundredths to the nearest hundredth. */
  ghost predicate Hundredths(score: real, t: real) {
    exists n: int :: IsNearest(t, n) && score == n as real / 100.0
  }

  lemma NearestExact(t: real, n: int)
    ensures Nearest(t) == n <==> IsNearest(t, n)
  {
    var low := t.Floor;
    assert low as real <= t < low as real + 1.0;
    if IsNearest(t, n) {
      assert n == low || n == low + 1;
    }
  }

  /** Rounding yields the nearest hundredth, the even one of two nearest, and nothing else is that. */
  lemma RoundingExact(x: real, score: real)
    ensures Round2(x) == score <==> Hundredths(score, x * 100.0)
  {
    hide IsNearest, Nearest;
    var t := x * 100.0;
    NearestExact(t, Nearest(t));
    if n: int :| IsNearest(t, n) && score == n as real / 100.0 {
      NearestExact(t, n);
    }
  }

  /** A rounded number reaches an integer bound exactly from half a hundredth below it. */
  lemma RoundReaches(x: real, bound: int)
    ensures Round2(x) >= bound as real <==> x >= bound as real - 0.005
  {
    var t := x * 100.0;
    var edge := (bound * 100) as real - 0.5;
    if t >= edge {
      if t.Floor >= bound * 100 {
      } else {
        assert t.Floor == bound * 100 - 1 && bound * 100 == 2 * (bound * 50);
      }
      assert Nearest(t) >= bound * 100;
    } else {
      assert Nearest(t) <= bound * 100 - 1;
    }
  }
}
