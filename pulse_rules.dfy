/**
 * Rules that both versions of the pulse machine share: the integer draw
 * `Math.floor(Math.random() * (hi - lo + 1)) + lo` and the credit cost of a capture.
 *
 * `Math.random()` is not modelled; a draw is given by its integer part
 * `k = Math.floor(Math.random() * span)` with `span = hi - lo + 1`. For `span > 0`
 * that is an integer in `[0, span)`; for `span <= 0` (bounds given the wrong way
 * round, which nothing rejects) it lies in `[span, 0]`.
 */
module PulseRules {

  /** The integers that `Math.floor(Math.random() * (hi - lo + 1))` can produce. */
  predicate ValidDraw(lo: int, hi: int, k: int)
  {
    var span := hi - lo + 1;
    if span > 0 then 0 <= k < span else span <= k <= 0
  }

  /** Smallest and largest value a draw can produce. */
  function DrawLow(lo: int, hi: int): int { if lo <= hi then lo else hi + 1 }

  function DrawHigh(lo: int, hi: int): int { if lo <= hi then hi else lo }

  /** The drawn duration: for well-ordered bounds an integer in `[lo, hi]` inclusive. */
  function Draw(lo: int, hi: int, k: int): (d: int)
    requires ValidDraw(lo, hi, k)
    ensures lo <= hi ==> lo <= d <= hi
    ensures hi < lo ==> hi + 1 <= d <= lo
    ensures DrawLow(lo, hi) <= d <= DrawHigh(lo, hi)
  {
    k + lo
  }

  /** Every value in `[lo, hi]` is the outcome of some draw: the draw covers the whole range. */
  function DrawFor(lo: int, hi: int, d: int): (k: int)
    requires lo <= d <= hi
    ensures ValidDraw(lo, hi, k) && Draw(lo, hi, k) == d
  {
    d - lo
  }

  /** A super pulse costs 3 credits, a normal one 1. */
  function CreditCost(superPulse: bool): nat
  {
    if superPulse then 3 else 1
  }
}
