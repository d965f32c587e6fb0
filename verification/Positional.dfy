/** Numbers written with a fixed number of digits, most significant first. */
module Positional {
  function Power(base: nat, n: nat): nat {
    if n == 0 then 1 else base * Power(base, n - 1)
  }

  lemma {:induction false} PowerAdd(base: nat, m: nat, n: nat)
    ensures Power(base, m + n) == Power(base, m) * Power(base, n)
  {
    if m > 0 {
      PowerAdd(base, m - 1, n);
      Associate(base, Power(base, m - 1), Power(base, n));
    }
  }

  lemma Associate(a: nat, b: nat, c: nat)
    ensures a * (b * c) == (a * b) * c
  {}

  predicate AreDigits(base: nat, digits: seq<nat>) {
    forall i | 0 <= i < |digits| :: digits[i] < base
  }

  /** The value of the first `n` digits. */
  function Value(base: nat, digits: seq<nat>, n: nat): nat
    requires n <= |digits|
  {
    if n == 0 then 0 else base * Value(base, digits, n - 1) + digits[n - 1]
  }

  /** The lowest `width` digits of a number. */
  function Digits(base: nat, width: nat, value: nat): (digits: seq<nat>)
    requires base > 0
    ensures |digits| == width && AreDigits(base, digits)
  {
    if width == 0 then [] else Digits(base, width - 1, value / base) + [value % base]
  }

  lemma {:induction false} ValueOfPrefix(base: nat, a: seq<nat>, b: seq<nat>, n: nat)
    requires n <= |a| && n <= |b| && forall i | 0 <= i < n :: a[i] == b[i]
    ensures Value(base, a, n) == Value(base, b, n)
  {
    if n > 0 {
      ValueOfPrefix(base, a, b, n - 1);
    }
  }

  lemma DivideBound(base: nat, value: nat, rest: nat)
    requires base > 0 && value < base * rest
    ensures value / base < rest
  {
    if value / base >= rest {
      MultiplyMonotonic(base, rest, value / base);
    }
  }

  lemma MultiplyMonotonic(base: nat, a: nat, b: nat)
    requires a <= b
    ensures base * a <= base * b
  {}

  lemma {:induction false} ValueOfDigits(base: nat, width: nat, value: nat)
    requires base > 0 && value < Power(base, width)
    ensures Value(base, Digits(base, width, value), width) == value
  {
    if width > 0 {
      DivideBound(base, value, Power(base, width - 1));
      ValueOfDigits(base, width - 1, value / base);
      ValueOfPrefix(base, Digits(base, width, value), Digits(base, width - 1, value / base), width - 1);
    }
  }

  lemma DivideBack(base: nat, high: nat, low: nat)
    requires low < base
    ensures (base * high + low) / base == high && (base * high + low) % base == low
  {
    var q, r := (base * high + low) / base, (base * high + low) % base;
    assert base * q + r == base * high + low;
    if q < high {
      MultiplyMonotonic(base, q + 1, high);
    } else if q > high {
      MultiplyMonotonic(base, high + 1, q);
    }
  }

  lemma {:induction false} DigitsOfValue(base: nat, digits: seq<nat>, n: nat)
    requires base > 0 && n <= |digits| && AreDigits(base, digits)
    ensures Value(base, digits, n) < Power(base, n)
    ensures Digits(base, n, Value(base, digits, n)) == digits[..n]
  {
    if n > 0 {
      DigitsOfValue(base, digits, n - 1);
      DivideBack(base, Value(base, digits, n - 1), digits[n - 1]);
      MultiplyMonotonic(base, Value(base, digits, n - 1) + 1, Power(base, n - 1));
      assert digits[..n] == digits[..n - 1] + [digits[n - 1]];
    }
  }
}
