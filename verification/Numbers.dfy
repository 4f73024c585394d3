/** The functions of <algorithm> and <cmath> that several models use, over reals and unbounded integers. */
module Numbers {

  /** std::clamp. */
  function Clamp(x: real, lo: real, hi: real): real { if x < lo then lo else if hi < x then hi else x }

  function ClampInt(x: int, lo: int, hi: int): int { if x < lo then lo else if hi < x then hi else x }

  function Max(x: real, y: real): real { if x < y then y else x }

  function Min(x: real, y: real): real { if y < x then y else x }

  /** std::round: halves go away from zero. */
  function Round(x: real): int { if x >= 0.0 then (x + 0.5).Floor else -((0.5 - x).Floor) }

  /** `r` is `x` held between two bounds. */
  predicate Held(r: real, x: real, lo: real, hi: real) {
    lo <= r <= hi && (lo <= x <= hi ==> r == x) && (x < lo ==> r == lo) && (x > hi ==> r == hi)
  }

  /** `n` is the integer nearest to `x`, away from zero where two are. */
  predicate Nearest(n: int, x: real) {
    && -0.5 <= n as real - x <= 0.5
    && (n as real - x == 0.5 ==> x > 0.0) && (n as real - x == -0.5 ==> x < 0.0)
  }

  lemma {:induction false} RoundIsNearest(x: real)
    ensures Nearest(Round(x), x)
  {
  }
}
