/**
 * Angle helpers: the constants `QUARTER_TURN` and `TAU`, normalisation of a
 * Y rotation into `[0, TAU)` and its quantisation to a quarter-turn index.
 * Both helpers are built from the truncating `%` and `Math.round`.
 */
module RotationMath {
  import opened JsNumber

  /** `Math.PI`: the exact value of the IEEE-754 double nearest to pi. */
  const PI: real := 3.141592653589793115997963468544185161590576171875

  /** A quarter turn, 90 degrees (`Math.PI / 2`, exact in binary). */
  const QUARTER_TURN: real := PI / 2.0

  /** A full turn, 360 degrees (`Math.PI * 2`, exact in binary). */
  const TAU: real := PI * 2.0

  /** `((radians % TAU) + TAU) % TAU`: the angle brought into `[0, TAU)`. */
  function NormalizeRotationY(radians: real): (r: real)
    ensures 0.0 <= r < TAU
  {
    Rem(Rem(radians, TAU) + TAU, TAU)
  }

  /**
   * `Math.round(NormalizeRotationY(radians) / QUARTER_TURN) % 4`. The
   * dividend of `% 4` is never negative, so the truncating `%` agrees with
   * Dafny's.
   */
  function RotationToQuarterTurns(radians: real): (k: int)
    ensures 0 <= k < 4
  {
    Round(NormalizeRotationY(radians) / QUARTER_TURN) % 4
  }

  /** The floored modulus `x mod TAU`, an independent definition of normalisation. */
  function TurnRemainder(x: real): real
  {
    x - TAU * (x / TAU).Floor as real
  }

  /** The remainder form `((r % TAU) + TAU) % TAU` is the floored modulus `r mod TAU`. */
  lemma {:induction false} NormalizeIsTurnRemainder(radians: real)
    ensures NormalizeRotationY(radians) == TurnRemainder(radians)
  {
    var t1 := Trunc(radians / TAU);
    var inner := Rem(radians, TAU);
    var t2 := Trunc((inner + TAU) / TAU);
    var k := t1 + t2 - 1;
    assert NormalizeRotationY(radians) == radians - TAU * k as real;
    FloorUnique(radians / TAU, k);
  }

  /** Normalisation leaves angles already in `[0, TAU)` alone. */
  lemma {:induction false} NormalizeIdentityOnRange(radians: real)
    requires 0.0 <= radians < TAU
    ensures NormalizeRotationY(radians) == radians
  {
    NormalizeIsTurnRemainder(radians);
    FloorUnique(radians / TAU, 0);
  }

  /** Normalising twice is normalising once. */
  lemma {:induction false} NormalizeIdempotent(radians: real)
    ensures NormalizeRotationY(NormalizeRotationY(radians)) == NormalizeRotationY(radians)
  {
    NormalizeIdentityOnRange(NormalizeRotationY(radians));
  }

  /** Normalisation has period `TAU`. */
  lemma {:induction false} NormalizePeriodic(radians: real)
    ensures NormalizeRotationY(radians + TAU) == NormalizeRotationY(radians)
  {
    NormalizeIsTurnRemainder(radians);
    NormalizeIsTurnRemainder(radians + TAU);
    FloorUnique((radians + TAU) / TAU, (radians / TAU).Floor + 1);
  }

  /** The quarter-turn index has period `TAU`. */
  lemma {:induction false} QuarterTurnsPeriodic(radians: real)
    ensures RotationToQuarterTurns(radians + TAU) == RotationToQuarterTurns(radians)
  {
    NormalizePeriodic(radians);
  }

  /** An exact multiple `k` of a quarter turn has index `k mod 4`, for every integer `k`. */
  lemma {:induction false} QuarterTurnsOfMultiple(k: int)
    ensures RotationToQuarterTurns(k as real * QUARTER_TURN) == k % 4
  {
    var r := k as real * QUARTER_TURN;
    var j := k % 4;
    assert r == TAU * (k / 4) as real + j as real * QUARTER_TURN;
    NormalizeIsTurnRemainder(r);
    FloorUnique(r / TAU, k / 4);
    assert NormalizeRotationY(r) / QUARTER_TURN == j as real;
    FloorUnique(j as real + 0.5, j);
  }

  /** A quarter turn more advances the index by one, modulo 4, from every angle. */
  lemma {:induction false} QuarterTurnsAdvance(radians: real)
    ensures RotationToQuarterTurns(radians + QUARTER_TURN) == (RotationToQuarterTurns(radians) + 1) % 4
  {
    NormalizeStep(radians);
    RoundStep(NormalizeRotationY(radians));
  }

  /** Normalising `radians + QUARTER_TURN` adds a quarter turn, wrapping once past `TAU`. */
  lemma {:induction false} NormalizeStep(radians: real)
    ensures var n := NormalizeRotationY(radians);
      NormalizeRotationY(radians + QUARTER_TURN) ==
        if n + QUARTER_TURN < TAU then n + QUARTER_TURN else n + QUARTER_TURN - TAU
  {
    var n := NormalizeRotationY(radians);
    var k := (radians / TAU).Floor;
    NormalizeIsTurnRemainder(radians);
    assert radians == TAU * k as real + n;
    NormalizeIsTurnRemainder(radians + QUARTER_TURN);
    if n + QUARTER_TURN < TAU {
      TurnRemainderOf(radians + QUARTER_TURN, k, n + QUARTER_TURN);
    } else {
      TurnRemainderOf(radians + QUARTER_TURN, k + 1, n + QUARTER_TURN - TAU);
    }
  }

  /** `x = TAU * k + rem` with `rem` in `[0, TAU)` has floored modulus `rem`. */
  lemma {:induction false} TurnRemainderOf(x: real, k: int, rem: real)
    requires x == TAU * k as real + rem && 0.0 <= rem < TAU
    ensures TurnRemainder(x) == rem
  {
    assert x / TAU == k as real + rem / TAU;
    FloorUnique(x / TAU, k);
  }

  /** On a normalised angle, the step of NormalizeStep is `+1 mod 4` on the rounded index. */
  lemma {:induction false} RoundStep(n: real)
    requires 0.0 <= n < TAU
    ensures var next := if n + QUARTER_TURN < TAU then n + QUARTER_TURN else n + QUARTER_TURN - TAU;
      Round(next / QUARTER_TURN) % 4 == (Round(n / QUARTER_TURN) % 4 + 1) % 4
  {
    var q := n / QUARTER_TURN;
    var r := Round(q);
    assert 0 <= r <= 4;
    if n + QUARTER_TURN < TAU {
      assert (n + QUARTER_TURN) / QUARTER_TURN == q + 1.0;
      FloorUnique(q + 1.5, r + 1);
    } else {
      assert (n + QUARTER_TURN - TAU) / QUARTER_TURN == q - 3.0;
      FloorUnique(q - 2.5, r - 3);
    }
  }

  /** Angles in the last eighth of a turn round up to index 4, which wraps to 0. */
  lemma {:induction false} NearFullTurnWrapsToZero(radians: real)
    requires NormalizeRotationY(radians) >= 3.5 * QUARTER_TURN
    ensures RotationToQuarterTurns(radians) == 0
  {
    FloorUnique(NormalizeRotationY(radians) / QUARTER_TURN + 0.5, 4);
  }
}
