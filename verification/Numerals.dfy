/** Positional numerals, most significant digit first, in any base; decimal strings as base-10 numerals. */
module Numerals {

  function Pow(base: nat, k: nat): nat {
    if k == 0 then 1 else base * Pow(base, k - 1)
  }

  predicate InBase(base: nat, ds: seq<nat>) {
    forall i :: 0 <= i < |ds| ==> ds[i] < base
  }

  function Value(base: nat, ds: seq<nat>): nat {
    if ds == [] then 0 else base * Value(base, ds[..|ds| - 1]) + ds[|ds| - 1]
  }

  /** The numeral without leading zeros; empty for zero. */
  function Digits(base: nat, n: nat): seq<nat>
    requires base >= 2
  {
    if n == 0 then [] else Digits(base, n / base) + [n % base]
  }

  function Zeros(k: nat): seq<nat> {
    seq(k, _ => 0)
  }

  lemma {:induction false} PowAdd(base: nat, j: nat, k: nat)
    ensures Pow(base, j + k) == Pow(base, j) * Pow(base, k)
    decreases j
  {
    if j > 0 {
      PowAdd(base, j - 1, k);
      assert base * (Pow(base, j - 1) * Pow(base, k)) == (base * Pow(base, j - 1)) * Pow(base, k);
    }
  }

  lemma {:induction false} PowPositive(base: nat, k: nat)
    requires base > 0
    ensures Pow(base, k) > 0
    decreases k
  {
    if k > 0 { PowPositive(base, k - 1); }
  }

  lemma {:induction false} ValueAppend(base: nat, a: seq<nat>, b: seq<nat>)
    ensures Value(base, a + b) == Value(base, a) * Pow(base, |b|) + Value(base, b)
    decreases |b|
  {
    if b == [] {
      assert a + b == a;
    } else {
      var n := |b| - 1;
      assert (a + b)[..|a + b| - 1] == a + b[..n];
      ValueAppend(base, a, b[..n]);
      Distribute(base, Value(base, a), Pow(base, n), Value(base, b[..n]));
    }
  }

  lemma Distribute(a: int, b: int, c: int, d: int)
    ensures a * (b * c + d) == b * (a * c) + a * d
  {
    assert a * (b * c) == b * (a * c);
  }

  lemma {:induction false} ValueZeros(base: nat, k: nat)
    ensures Value(base, Zeros(k)) == 0
    decreases k
  {
    if k > 0 {
      assert Zeros(k)[..k - 1] == Zeros(k - 1);
      ValueZeros(base, k - 1);
    }
  }

  lemma ValuePadded(base: nat, k: nat, ds: seq<nat>)
    ensures Value(base, Zeros(k) + ds) == Value(base, ds)
  {
    ValueAppend(base, Zeros(k), ds);
    ValueZeros(base, k);
  }

  lemma DivMod(base: nat, n: nat)
    requires base >= 2
    ensures base * (n / base) + n % base == n && n % base < base
    ensures n > 0 ==> n / base < n
  {
  }

  lemma {:induction false} DigitsCorrect(base: nat, n: nat)
    requires base >= 2
    ensures Value(base, Digits(base, n)) == n && InBase(base, Digits(base, n))
    ensures n > 0 ==> Digits(base, n) != [] && Digits(base, n)[0] != 0
    decreases n
  {
    if n > 0 {
      DivMod(base, n);
      var q, r := n / base, n % base;
      DigitsCorrect(base, q);
      DigitsStep(base, n, q, r);
      SnocCorrect(base, Digits(base, q), q, r, n);
    }
  }

  lemma SnocCorrect(base: nat, ds: seq<nat>, q: nat, r: nat, n: nat)
    requires Value(base, ds) == q && InBase(base, ds) && r < base && base * q + r == n && n > 0
    requires q == 0 ==> ds == []
    requires q > 0 ==> ds != [] && ds[0] != 0
    ensures Value(base, ds + [r]) == n && InBase(base, ds + [r]) && (ds + [r])[0] != 0
  {
    ValueSnoc(base, ds, r);
  }

  lemma DigitsStep(base: nat, n: nat, q: nat, r: nat)
    requires base >= 2 && n > 0 && q == n / base && r == n % base
    ensures Digits(base, n) == Digits(base, q) + [r]
  {
  }

  lemma ValueSnoc(base: nat, ds: seq<nat>, d: nat)
    ensures Value(base, ds + [d]) == base * Value(base, ds) + d
  {
    assert (ds + [d])[..|ds|] == ds;
  }

  /** A numeral without leading zeros is the one Digits writes. */
  lemma {:induction false} DigitsUnique(base: nat, ds: seq<nat>)
    requires base >= 2 && InBase(base, ds) && (ds != [] ==> ds[0] != 0)
    ensures Digits(base, Value(base, ds)) == ds
    ensures ds != [] ==> Value(base, ds) > 0
    decreases |ds|
  {
    if ds != [] {
      var n := |ds| - 1;
      DigitsUnique(base, ds[..n]);
      var hi, d := Value(base, ds[..n]), ds[n];
      assert ds == ds[..n] + [d];
      ValueSnoc(base, ds[..n], d);
      DivModStep(base, hi, d);
      assert base * hi + d > 0 by {
        if n > 0 { Positive(base, hi); }
      }
      DigitsStep(base, base * hi + d, hi, d);
    }
  }

  lemma Positive(a: int, b: int)
    requires a > 0 && b > 0
    ensures a * b > 0
  {
  }

  lemma MulMonotone(a: int, b: int, d: int)
    requires a <= b && d >= 0
    ensures a * d <= b * d
  {
  }

  lemma DivModStep(base: nat, hi: nat, d: nat)
    requires d < base
    ensures (base * hi + d) / base == hi && (base * hi + d) % base == d
  {
    var x := base * hi + d;
    assert hi * base <= x < (hi + 1) * base;
    QuotientUnique(x, base, hi);
    assert x == base * (x / base) + x % base;
  }

  /** Floor division by its two inequalities. */
  lemma QuotientUnique(x: int, d: int, q: int)
    requires d > 0 && q * d <= x < (q + 1) * d
    ensures x / d == q
  {
    var r := x / d;
    assert x == d * r + x % d;
    if r < q { MulMonotone(r + 1, q, d); }
    if q < r { MulMonotone(q + 1, r, d); }
  }

  /** Two numerals of the same length and value are the same. */
  lemma {:induction false} ValueInjective(base: nat, a: seq<nat>, b: seq<nat>)
    requires InBase(base, a) && InBase(base, b) && |a| == |b| && Value(base, a) == Value(base, b)
    ensures a == b
    decreases |a|
  {
    if a != [] {
      var n := |a| - 1;
      DivModStep(base, Value(base, a[..n]), a[n]);
      DivModStep(base, Value(base, b[..n]), b[n]);
      ValueInjective(base, a[..n], b[..n]);
      assert a == a[..n] + [a[n]] && b == b[..n] + [b[n]];
    }
  }

  /** The numeral of n has at most k digits exactly when n is below base to the k. */
  lemma {:induction false} DigitsLength(base: nat, n: nat, k: nat)
    requires base >= 2
    ensures |Digits(base, n)| <= k <==> n < Pow(base, k)
    decreases n
  {
    PowPositive(base, k);
    if n > 0 {
      DivMod(base, n);
      var q, r := n / base, n % base;
      DigitsStep(base, n, q, r);
      if k > 0 {
        DigitsLength(base, q, k - 1);
        var p := Pow(base, k - 1);
        if q < p { MulMonotone(q + 1, p, base); } else { MulMonotone(p, q, base); }
      }
    }
  }

  // ---- Decimal strings ----

  predicate IsDigit(c: char) {
    '0' <= c <= '9'
  }

  predicate AllDigits(s: string) {
    forall i :: 0 <= i < |s| ==> IsDigit(s[i])
  }

  function Nums(s: string): (ds: seq<nat>)
    requires AllDigits(s)
    ensures |ds| == |s| && InBase(10, ds)
  {
    seq(|s|, i requires 0 <= i < |s| => (s[i] - '0') as nat)
  }

  function Text(ds: seq<nat>): (s: string)
    requires InBase(10, ds)
    ensures |s| == |ds| && AllDigits(s) && Nums(s) == ds
  {
    seq(|ds|, i requires 0 <= i < |ds| => '0' + ds[i] as char)
  }

  function Decimal(s: string): nat
    requires AllDigits(s)
  {
    Value(10, Nums(s))
  }

  /** How Go prints a non-negative integer with %d or big.Int.String. */
  function Print(n: nat): (s: string)
    ensures AllDigits(s) && s != ""
  {
    DigitsCorrect(10, n);
    if n == 0 then "0" else Text(Digits(10, n))
  }

  lemma PrintValue(n: nat)
    ensures Decimal(Print(n)) == n
    ensures n > 0 ==> Print(n)[0] != '0'
  {
    DigitsCorrect(10, n);
    if n == 0 {
      assert Nums("0") == [0];
    }
  }

  /** Printing what a numeral without redundant zeros denotes gives it back. */
  lemma PrintUnique(s: string)
    requires AllDigits(s) && s != "" && (|s| > 1 ==> s[0] != '0')
    ensures Print(Decimal(s)) == s
  {
    if s[0] != '0' {
      DigitsUnique(10, Nums(s));
      TextNums(s);
    } else {
      assert s == "0" && Nums(s) == [0];
    }
  }

  lemma TextNums(s: string)
    requires AllDigits(s)
    ensures Text(Nums(s)) == s
  {
  }

  // ---- Shifting the decimal point ----

  /** n * 10^k. */
  function Scale(n: nat, k: nat): nat {
    if k == 0 then n else 10 * Scale(n, k - 1)
  }

  /** n / 10^k, rounded down. */
  function Shrink(n: nat, k: nat): nat {
    if k == 0 then n else Shrink(n / 10, k - 1)
  }

  lemma {:induction false} ScaleIsProduct(n: nat, k: nat)
    ensures Scale(n, k) == n * Pow(10, k)
    decreases k
  {
    if k > 0 {
      ScaleIsProduct(n, k - 1);
      assert 10 * (n * Pow(10, k - 1)) == n * (10 * Pow(10, k - 1));
    }
  }

  lemma {:induction false} ScaleTwice(n: nat, j: nat, k: nat)
    ensures Scale(Scale(n, j), k) == Scale(n, j + k)
    decreases k
  {
    if k > 0 { ScaleTwice(n, j, k - 1); }
  }

  lemma {:induction false} ScaleSum(a: nat, b: nat, k: nat)
    ensures Scale(a + b, k) == Scale(a, k) + Scale(b, k)
    decreases k
  {
    if k > 0 { ScaleSum(a, b, k - 1); }
  }

  lemma {:induction false} ShrinkTwice(n: nat, j: nat, k: nat)
    ensures Shrink(Shrink(n, j), k) == Shrink(n, j + k)
    decreases j
  {
    if j > 0 { ShrinkTwice(n / 10, j - 1, k); }
  }

  /** Dropping k digits of a number whose last k digits are b. */
  lemma {:induction false} ShrinkScaled(a: nat, b: nat, k: nat)
    requires b < Scale(1, k)
    ensures Shrink(Scale(a, k) + b, k) == a
    decreases k
  {
    if k > 0 {
      assert (Scale(a, k) + b) / 10 == Scale(a, k - 1) + b / 10;
      ShrinkScaled(a, b / 10, k - 1);
    }
  }

  lemma {:induction false} ScalePositive(k: nat)
    ensures Scale(1, k) > 0
    decreases k
  {
    if k > 0 { ScalePositive(k - 1); }
  }

  /** Shrink rounds down. */
  lemma {:induction false} ShrinkBounds(n: nat, k: nat)
    ensures Scale(Shrink(n, k), k) <= n < Scale(Shrink(n, k), k) + Scale(1, k)
    decreases k
  {
    if k > 0 {
      ShrinkBounds(n / 10, k - 1);
    }
  }

  lemma ShrinkIsQuotient(n: nat, k: nat)
    ensures Pow(10, k) > 0
    ensures Shrink(n, k) == n / Pow(10, k)
    ensures n % Pow(10, k) == n - Scale(Shrink(n, k), k)
  {
    PowPositive(10, k);
    ShrinkBounds(n, k);
    ScaleIsProduct(Shrink(n, k), k);
    ScaleIsProduct(1, k);
    QuotientAndRest(n, Pow(10, k), Shrink(n, k));
  }

  lemma QuotientAndRest(x: int, d: int, q: int)
    requires d > 0 && q * d <= x < q * d + d
    ensures x / d == q && x % d == x - q * d
  {
    assert (q + 1) * d == q * d + d;
    QuotientUnique(x, d, q);
    assert x == d * (x / d) + x % d;
  }

  lemma {:induction false} DecimalAppend(a: string, b: string)
    requires AllDigits(a) && AllDigits(b)
    ensures AllDigits(a + b) && Decimal(a + b) == Scale(Decimal(a), |b|) + Decimal(b)
    decreases |b|
  {
    if b == "" {
      assert a + b == a && Nums(b) == [];
    } else {
      var n := |b| - 1;
      DecimalAppend(a, b[..n]);
      DecimalSnoc(b);
      DecimalSnoc(a + b);
      assert (a + b)[..|a + b| - 1] == a + b[..n];
    }
  }

  lemma DecimalSnoc(s: string)
    requires AllDigits(s) && s != ""
    ensures Decimal(s) == 10 * Decimal(s[..|s| - 1]) + (s[|s| - 1] - '0') as nat
  {
    assert Nums(s)[..|s| - 1] == Nums(s[..|s| - 1]);
  }

  lemma {:induction false} DecimalBound(s: string)
    requires AllDigits(s)
    ensures Decimal(s) < Scale(1, |s|)
    decreases |s|
  {
    if s != "" {
      DecimalSnoc(s);
      DecimalBound(s[..|s| - 1]);
    }
  }
}
