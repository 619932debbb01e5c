/**
  * Values shared by the collectors: an optional value, a JavaScript number
  * that may be NaN, and the rounding rules the collectors apply to the
  * numbers they report (Math.round, "round to two decimals" and toFixed).
  */
module Util {

  datatype Option<T> = None | Some(value: T)

  /** A JavaScript number as parseFloat produces it: NaN or a finite value. */
  datatype Num = NaN | Fin(v: real)

  function Add(a: Num, b: Num): (r: Num)
    ensures r.Fin? <==> a.Fin? && b.Fin?
  {
    if a.Fin? && b.Fin? then Fin(a.v + b.v) else NaN
  }

  function Sub(a: Num, b: Num): (r: Num)
    ensures r.Fin? <==> a.Fin? && b.Fin?
  {
    if a.Fin? && b.Fin? then Fin(a.v - b.v) else NaN
  }

  /** Math.round: the nearest integer, a half rounded towards +infinity. */
  function Round(x: real): (r: int)
    ensures x - 0.5 < r as real <= x + 0.5
  {
    (x + 0.5).Floor
  }

  lemma RoundMonotone(x: real, y: real)
    requires x <= y
    ensures Round(x) <= Round(y)
  {
  }

  lemma RoundOfInt(n: int)
    ensures Round(n as real) == n
  {
  }

  /** `Math.round(x * 100) / 100`: x rounded to two decimals. */
  function Round2(x: real): (r: real)
    ensures x - 0.005 < r <= x + 0.005
  {
    Round(x * 100.0) as real / 100.0
  }

  lemma Round2Monotone(x: real, y: real)
    requires x <= y
    ensures Round2(x) <= Round2(y)
  {
    RoundMonotone(x * 100.0, y * 100.0);
  }

  /** Rounding to two decimals keeps a value inside any range whose ends
      are whole hundredths. */
  lemma Round2Within(x: real, lo: int, hi: int)
    requires lo as real / 100.0 <= x <= hi as real / 100.0
    ensures lo as real / 100.0 <= Round2(x) <= hi as real / 100.0
  {
    RoundMonotone(lo as real, x * 100.0);
    RoundMonotone(x * 100.0, hi as real);
    RoundOfInt(lo);
    RoundOfInt(hi);
  }

  /** Number.prototype.toFixed(0): the nearest integer, a half rounded away
      from zero. */
  function ToFixed0(x: real): (r: int)
    ensures x - 0.5 <= r as real <= x + 0.5
    ensures x >= 0.0 ==> r >= 0
  {
    if x >= 0.0 then Round(x) else -Round(-x)
  }

  /** Number.prototype.toFixed(1) read back as a number. */
  function ToFixed1(x: real): (r: real)
    ensures x - 0.05 <= r <= x + 0.05
  {
    ToFixed0(x * 10.0) as real / 10.0
  }

  /** Number.prototype.toFixed(2) read back as a number. */
  function ToFixed2(x: real): (r: real)
    ensures x - 0.005 <= r <= x + 0.005
  {
    ToFixed0(x * 100.0) as real / 100.0
  }

  lemma ToFixed1Within(x: real, lo: int, hi: int)
    requires lo as real / 10.0 <= x <= hi as real / 10.0
    ensures lo as real / 10.0 <= ToFixed1(x) <= hi as real / 10.0
  {
    if x >= 0.0 {
      RoundMonotone(lo as real, x * 10.0);
      RoundMonotone(x * 10.0, hi as real);
      RoundOfInt(lo);
      RoundOfInt(hi);
    } else {
      RoundMonotone(-x * 10.0, -lo as real);
      RoundMonotone(-hi as real, -x * 10.0);
      RoundOfInt(-lo);
      RoundOfInt(-hi);
    }
  }
}
