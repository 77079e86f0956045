/**
 * Python's `round(x)` and `round(x, n)` for n = 1, 2 and 4 on exact reals: round
 * half to even at the chosen decimal place. Binary floating point is not
 * modelled, so on inputs whose decimal tie is not exactly representable the
 * source's float result may differ by one unit in the last place.
 */
module Rounding {

  /** The decimal places the source rounds to. */
  datatype Places = Units | Tenths | Hundredths | TenThousandths

  /** How many steps of the last kept place make one unit. */
  function Scale(places: Places): (k: real)
    ensures 1.0 <= k
  {
    match places
    case Units => 1.0
    case Tenths => 10.0
    case Hundredths => 100.0
    case TenThousandths => 10000.0
  }

  /** `round(x)`: nearest integer, ties to the even neighbour. */
  function RoundHalfEven(x: real): (n: int)
    ensures x - 0.5 <= n as real <= x + 0.5
    ensures n as real - x == 0.5 ==> n % 2 == 0
    ensures x - n as real == 0.5 ==> n % 2 == 0
  {
    var f := x.Floor;
    var d := x - f as real;
    if d < 0.5 then f
    else if d > 0.5 then f + 1
    else if f % 2 == 0 then f
    else f + 1
  }

  /** Rounding to an integer never crosses an integer bound of the input. */
  lemma RoundHalfEvenBetween(x: real, lo: int, hi: int)
    requires lo as real <= x <= hi as real
    ensures lo <= RoundHalfEven(x) <= hi
  {
  }

  /** Rounding to an integer is monotone. */
  lemma RoundHalfEvenMonotone(x: real, y: real)
    requires x <= y
    ensures RoundHalfEven(x) <= RoundHalfEven(y)
  {
    var fx, fy := x.Floor, y.Floor;
    if fx == fy {
      assert x - fx as real <= y - fy as real;
    }
  }

  /** `round(x, places)`: the nearest multiple of one step, ties to the even multiple. */
  function Round(x: real, places: Places): real {
    match places
    case Units => RoundHalfEven(x) as real
    case Tenths => RoundHalfEven(x * 10.0) as real / 10.0
    case Hundredths => RoundHalfEven(x * 100.0) as real / 100.0
    case TenThousandths => RoundHalfEven(x * 10000.0) as real / 10000.0
  }

  /** The rounded value is a whole number of steps. */
  lemma RoundOnStep(x: real, places: Places)
    ensures (Round(x, places) * Scale(places)).Floor as real == Round(x, places) * Scale(places)
  {
    var n := RoundHalfEven(x * Scale(places));
    assert Round(x, places) * Scale(places) == n as real by {
      match places
      case Units =>
      case Tenths => assert RoundHalfEven(x * 10.0) as real / 10.0 * 10.0 == n as real;
      case Hundredths => assert RoundHalfEven(x * 100.0) as real / 100.0 * 100.0 == n as real;
      case TenThousandths => assert RoundHalfEven(x * 10000.0) as real / 10000.0 * 10000.0 == n as real;
    }
    assert (n as real).Floor == n;
  }

  /** The rounded value is within half a step of the input. */
  lemma RoundClose(x: real, places: Places)
    ensures x - 0.5 / Scale(places) <= Round(x, places) <= x + 0.5 / Scale(places)
  {
  }

  /** Rounding keeps a value inside any integer bounds that enclose it. */
  lemma RoundBetween(x: real, places: Places, lo: int, hi: int)
    requires lo as real <= x <= hi as real
    ensures lo as real <= Round(x, places) <= hi as real
  {
    match places
    case Units => RoundHalfEvenBetween(x, lo, hi);
    case Tenths => RoundHalfEvenBetween(x * 10.0, lo * 10, hi * 10);
    case Hundredths => RoundHalfEvenBetween(x * 100.0, lo * 100, hi * 100);
    case TenThousandths => RoundHalfEvenBetween(x * 10000.0, lo * 10000, hi * 10000);
  }

  /** Rounding is monotone: it never swaps the order of two values. */
  lemma RoundMonotone(x: real, y: real, places: Places)
    requires x <= y
    ensures Round(x, places) <= Round(y, places)
  {
    match places
    case Units => RoundHalfEvenMonotone(x, y);
    case Tenths => RoundHalfEvenMonotone(x * 10.0, y * 10.0);
    case Hundredths => RoundHalfEvenMonotone(x * 100.0, y * 100.0);
    case TenThousandths => RoundHalfEvenMonotone(x * 10000.0, y * 10000.0);
  }

  /** A value that is already a whole number of steps is left unchanged. */
  lemma RoundOnGrid(m: int, places: Places)
    ensures Round(m as real / Scale(places), places) == m as real / Scale(places)
  {
    var x := m as real / Scale(places);
    assert x * Scale(places) == m as real;
    assert (m as real).Floor == m;
  }

  /** `sum(vs)` */
  function Sum(vs: seq<real>): real {
    if vs == [] then 0.0 else Sum(vs[..|vs| - 1]) + vs[|vs| - 1]
  }

  /** `sum(vs) / len(vs)` */
  function Mean(vs: seq<real>): real
    requires |vs| >= 1
  {
    Sum(vs) / |vs| as real
  }

  lemma {:induction false} SumBetween(vs: seq<real>, lo: real, hi: real)
    requires forall i :: 0 <= i < |vs| ==> lo <= vs[i] <= hi
    ensures |vs| as real * lo <= Sum(vs) <= |vs| as real * hi
  {
    if vs != [] {
      var n := |vs| as real;
      SumBetween(vs[..|vs| - 1], lo, hi);
      assert (n - 1.0) * lo + lo == n * lo;
      assert (n - 1.0) * hi + hi == n * hi;
    }
  }

  /** A mean lies between any bounds of the values averaged. */
  lemma MeanBetween(vs: seq<real>, lo: real, hi: real)
    requires |vs| >= 1
    requires forall i :: 0 <= i < |vs| ==> lo <= vs[i] <= hi
    ensures lo <= Mean(vs) <= hi
  {
    var n := |vs| as real;
    SumBetween(vs, lo, hi);
    assert (Mean(vs) - lo) * n == Sum(vs) - n * lo;
    assert (hi - Mean(vs)) * n == n * hi - Sum(vs);
  }

  /** The mean of one value is that value. */
  lemma MeanSingle(x: real)
    ensures Mean([x]) == x
  {
    assert [x][..0] == [];
    assert Sum([x]) == x;
  }
}
