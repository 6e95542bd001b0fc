/** The Kotlin standard-library arithmetic the core relies on, over exact numbers:
    `Double.toInt()`/`toLong()`, `coerceIn`, `coerceAtMost`, `Iterable.average()`
    and Long division. */
module Numeric {

  /** `Double.toInt()`: truncation toward zero. */
  function TruncReal(x: real): (r: int)
    ensures 0.0 <= x ==> 0 <= r && r as real <= x < r as real + 1.0
    ensures x < 0.0 ==> r <= 0 && r as real - 1.0 < x <= r as real
  {
    if x >= 0.0 then x.Floor else -((-x).Floor)
  }

  /** Truncating integer division, as Kotlin's `/` on `Long`. */
  function TruncDiv(a: int, b: int): (q: int)
    requires b > 0
    ensures 0 <= a ==> 0 <= q && q * b <= a < q * b + b
    ensures a < 0 ==> q <= 0 && q * b - b < a <= q * b
  {
    if a >= 0 then a / b else -((-a) / b)
  }

  /** `coerceIn(lo, hi)` on `Int`. */
  function Clamp(x: int, lo: int, hi: int): (r: int)
    requires lo <= hi
    ensures lo <= r <= hi
    ensures lo <= x <= hi ==> r == x
    ensures x < lo ==> r == lo
    ensures hi < x ==> r == hi
  {
    if x < lo then lo else if x > hi then hi else x
  }

  /** `coerceIn(lo, hi)` on `Double`. */
  function ClampReal(x: real, lo: real, hi: real): (r: real)
    requires lo <= hi
    ensures lo <= r <= hi
    ensures lo <= x <= hi ==> r == x
    ensures x < lo ==> r == lo
    ensures hi < x ==> r == hi
  {
    if x < lo then lo else if x > hi then hi else x
  }

  function Abs(x: real): (r: real)
    ensures 0.0 <= r && (r == x || r == -x)
  {
    if x < 0.0 then -x else x
  }

  function Sum(v: seq<real>): real
  {
    if |v| == 0 then 0.0 else v[0] + Sum(v[1..])
  }

  /** `Iterable<Double>.average()` on a non-empty list (the core never averages an empty one). */
  function Mean(v: seq<real>): (r: real)
    requires |v| > 0
    ensures r * (|v| as real) == Sum(v)
  {
    Sum(v) / (|v| as real)
  }

  /** A lower and an upper bound on every element bound the sum. */
  lemma {:induction false} SumBounds(v: seq<real>, lo: real, hi: real)
    requires forall i :: 0 <= i < |v| ==> lo <= v[i] <= hi
    ensures (|v| as real) * lo <= Sum(v) <= (|v| as real) * hi
  {
    if |v| > 0 {
      SumBounds(v[1..], lo, hi);
    }
  }

  /** An upper bound on every element bounds the sum. */
  lemma {:induction false} SumAtMost(v: seq<real>, hi: real)
    requires forall i :: 0 <= i < |v| ==> v[i] <= hi
    ensures Sum(v) <= (|v| as real) * hi
  {
    if |v| > 0 {
      SumAtMost(v[1..], hi);
    }
  }

  /** The average of values no larger than `hi` is no larger than `hi`. */
  lemma MeanAtMost(v: seq<real>, hi: real)
    requires |v| > 0
    requires forall i :: 0 <= i < |v| ==> v[i] <= hi
    ensures Mean(v) <= hi
  {
    SumAtMost(v, hi);
    assert Mean(v) == Sum(v) / (|v| as real);
  }

  /** The average of values between `lo` and `hi` lies between them. */
  lemma MeanBounds(v: seq<real>, lo: real, hi: real)
    requires |v| > 0
    requires forall i :: 0 <= i < |v| ==> lo <= v[i] <= hi
    ensures lo <= Mean(v) <= hi
  {
    SumBounds(v, lo, hi);
    var n := |v| as real;
    assert n * lo <= Sum(v) <= n * hi;
    assert Mean(v) == Sum(v) / n;
  }

  /** The mean of equal values is that value. */
  lemma MeanOfConstant(values: seq<real>, c: real)
    requires |values| > 0
    requires forall i :: 0 <= i < |values| ==> values[i] == c
    ensures Mean(values) == c
  {
    var n := |values| as real;
    SumBounds(values, c, c);
    assert Sum(values) == n * c;
    assert (n * c) / n == c;
  }

  /** A sum of non-negative terms is zero exactly when every term is zero. */
  lemma {:induction false} SumZeroIffAllZero(v: seq<real>)
    requires forall i :: 0 <= i < |v| ==> 0.0 <= v[i]
    ensures 0.0 <= Sum(v)
    ensures Sum(v) == 0.0 <==> forall i :: 0 <= i < |v| ==> v[i] == 0.0
  {
    if |v| > 0 {
      SumZeroIffAllZero(v[1..]);
      if Sum(v) == 0.0 {
        forall i | 0 <= i < |v| ensures v[i] == 0.0 {
          if i > 0 { assert v[i] == v[1..][i - 1]; }
        }
      }
    }
  }

  /** Truncating a hundredth is truncating integer division by 100. */
  lemma TruncOfHundredth(a: int)
    ensures TruncReal(a as real / 100.0) == TruncDiv(a, 100)
  {
    var q := TruncDiv(a, 100);
    var x := a as real / 100.0;
    if a >= 0 {
      assert q as real * 100.0 <= a as real < q as real * 100.0 + 100.0;
      assert q as real <= x < q as real + 1.0;
    } else {
      assert q as real * 100.0 - 100.0 < a as real <= q as real * 100.0;
      assert q as real - 1.0 < x <= q as real;
    }
  }

  function Min(a: int, b: int): (r: int)
    ensures r <= a && r <= b && (r == a || r == b)
  {
    if a <= b then a else b
  }

  /** Truncating division by a positive number never reverses the order of two numbers. */
  lemma TruncDivMonotone(a: int, c: int, b: int)
    requires a <= c && b > 0
    ensures TruncDiv(a, b) <= TruncDiv(c, b)
  {
    var qa, qc := TruncDiv(a, b), TruncDiv(c, b);
    if qc < qa {
      if 0 <= a {
        MultiplyMonotone(qc + 1, qa, b);
      } else if c < 0 {
        MultiplyMonotone(qc, qa - 1, b);
      }
    }
  }

  lemma MultiplyMonotone(x: int, y: int, b: int)
    requires x <= y && b > 0
    ensures x * b <= y * b
  {
  }
}
