/** Powers of two and truncation to a multiple of one: the arithmetic of shifts and masks. */
module Arith {

  function Pow2(n: nat): (p: nat)
    ensures p >= 1
  {
    if n == 0 then 1 else 2 * Pow2(n - 1)
  }

  lemma {:induction false} Pow2Add(m: nat, n: nat)
    ensures Pow2(m + n) == Pow2(m) * Pow2(n)
  {
    if m > 0 {
      Pow2Add(m - 1, n);
      MulAssoc(2, Pow2(m - 1), Pow2(n));
    }
  }

  lemma Pow2Values()
    ensures Pow2(8) == 0x100 && Pow2(16) == 0x1_0000 && Pow2(24) == 0x100_0000
    ensures Pow2(32) == 0x1_0000_0000 && Pow2(64) == 0x1_0000_0000_0000_0000
  {
    assert Pow2(4) == 16;
    Pow2Add(4, 4);
    Pow2Add(8, 8);
    Pow2Add(16, 8);
    Pow2Add(16, 16);
    Pow2Add(32, 32);
  }

  lemma MulAssoc(a: int, b: int, c: int)
    ensures (a * b) * c == a * (b * c)
  {
  }

  /** `q` is the quotient as soon as `q * d <= x < q * d + d`. */
  lemma QuotientIs(x: int, d: nat, q: int)
    requires d > 0 && q * d <= x < q * d + d
    ensures x / d == q
  {
    var r := x - q * d;
    var q', r' := x / d, x % d;
    assert x == q' * d + r' && 0 <= r' < d;
    assert (q' - q) * d == r - r';
    if q' > q { MulMono(1, q' - q, d); }
    if q' < q { MulMono(1, q - q', d); }
  }

  lemma MulMono(a: int, b: int, d: nat)
    requires a <= b
    ensures a * d <= b * d
  {
  }

  lemma ModRange(x: nat, d: nat)
    requires d > 0
    ensures 0 <= x % d < d && x % d <= x && x == x / d * d + x % d
  {
    assert x / d >= 0;
    MulMono(0, x / d, d);
  }

  lemma DivMul(q: int, d: nat)
    requires d > 0
    ensures (q * d) / d == q && (q * d) % d == 0
  {
    QuotientIs(q * d, d, q);
  }

  lemma DivDiv(x: nat, a: nat, b: nat)
    requires a > 0 && b > 0
    ensures a * b > 0 && (x / a) / b == x / (a * b)
  {
    MulMono(1, a, b);
    var q := x / a;
    var p := q / b;
    assert p * b <= q < p * b + b;
    assert q * a <= x < q * a + a;
    MulMono(p * b, q, a);
    MulMono(q + 1, p * b + b, a);
    assert p * (a * b) == (p * b) * a;
    assert (p * b + b) * a == p * (a * b) + a * b;
    assert (q + 1) * a == q * a + a;
    QuotientIs(x, a * b, p);
  }

  lemma RangeIsQuotient(x: nat, d: nat, q: nat)
    requires d > 0
    ensures q * d <= x < q * d + d <==> x / d == q
  {
    ModRange(x, d);
    if q * d <= x < q * d + d {
      QuotientIs(x, d, q);
    }
  }

  lemma ScaleDiv(x: nat, s: nat, d: nat)
    requires s > 0 && d > 0
    ensures s * d > 0 && (x * s) / (s * d) == x / d
  {
    DivDiv(x * s, s, d);
    QuotientIs(x * s, s, x);
  }

  lemma SameMultiple(x: int, y: int, d: nat)
    requires d > 0 && x * d == y * d
    ensures x == y
  {
    if x < y { MulMono(x + 1, y, d); }
    if y < x { MulMono(y + 1, x, d); }
  }

  /** A multiple of `p` below a multiple of `p` is below it by at least `p`. */
  lemma TopMultiple(c: int, p: nat, n: nat)
    requires p > 0 && c * p < n * p
    ensures c * p + p <= n * p
  {
    if c >= n { MulMono(n, c, p); }
    MulMono(c + 1, n, p);
  }

  /** A number split at the multiples of `d`, and its quotient at those of `e * d`. */
  lemma SplitTwice(a: nat, d: nat, e: nat)
    requires d > 0 && e > 0 && a % d == 0
    ensures e * d > 0 && a % (e * d) % d == 0 && a % (e * d) + d <= e * d
  {
    MulMono(1, e, d);
    ModRange(a, d);
    ModRange(a, e * d);
    var c, s := a / d, a / (e * d);
    MulAssoc(s, e, d);
    assert a % (e * d) == c * d - s * e * d == (c - s * e) * d;
    if c - s * e < 0 { MulMono(c - s * e, -1, d); }
    DivMul(c - s * e, d);
    TopMultiple(c - s * e, d, e);
  }

  /** Truncating below the `w` boundary leaves the multiple of `b * p` alone. */
  lemma TruncLow(hi: nat, lo: nat, b: nat, p: nat)
    requires b > 0 && p > 0
    ensures (hi * (b * p) + lo) / p * p == hi * (b * p) + lo / p * p
  {
    MulAssoc(hi, b, p);
    var q := lo / p;
    assert (hi * b + q) * p == hi * b * p + q * p;
    QuotientIs(hi * (b * p) + lo, p, hi * b + q);
  }

  /** Truncating at or above the `w` boundary clears the low part. */
  lemma TruncHigh(hi: nat, lo: nat, w: nat, p: nat)
    requires lo < w && p > 0
    ensures w * p > 0 && (hi * w + lo) / (w * p) * (w * p) == hi / p * p * w
  {
    DivDiv(hi * w + lo, w, p);
    QuotientIs(hi * w + lo, w, hi);
    assert hi / p * p * w == hi / p * (w * p);
  }

  /** `(x >> s) << s` on unbounded naturals: the low `s` bits are cleared. */
  function Trunc(x: nat, s: nat): (t: nat)
    ensures t <= x < t + Pow2(s)
  {
    ModRange(x, Pow2(s));
    x - x % Pow2(s)
  }

  lemma TruncIsShifts(x: nat, s: nat)
    ensures Trunc(x, s) == x / Pow2(s) * Pow2(s)
  {
    ModRange(x, Pow2(s));
  }

  lemma TruncTrunc(x: nat, s: nat, t: nat)
    ensures Trunc(Trunc(x, s), t) == Trunc(x, if s > t then s else t)
  {
    TruncIsShifts(x, s);
    TruncIsShifts(x, t);
    TruncIsShifts(Trunc(x, s), t);
    if s <= t {
      Pow2Add(s, t - s);
      var a, b := Pow2(s), Pow2(t - s);
      DivDiv(x, a, b);
      DivDiv(Trunc(x, s), a, b);
      DivMul(x / a, a);
    } else {
      Pow2Add(s - t, t);
      var a, b := Pow2(s - t), Pow2(t);
      MulAssoc(x / Pow2(s), a, b);
      DivMul(x / Pow2(s) * a, b);
    }
  }
}
