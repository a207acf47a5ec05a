/** Exact decimal numbers, standing in for Python's `Decimal` (and for a
    float literal, which the library always passes through
    `Decimal(str(x))`), and the truncating `int()` conversion. */
module Decimals {

  function Pow10(k: nat): (r: nat)
    ensures r >= 1
  {
    if k == 0 then 1 else 10 * Pow10(k - 1)
  }

  lemma {:induction false} Pow10Add(a: nat, b: nat)
    ensures Pow10(a + b) == Pow10(a) * Pow10(b)
  {
    if a > 0 {
      Pow10Add(a - 1, b);
      calc {
        Pow10(a + b);
        10 * Pow10(a - 1 + b);
        10 * (Pow10(a - 1) * Pow10(b));
        (10 * Pow10(a - 1)) * Pow10(b);
      }
    }
  }

  /** Multiplication commutes with the embedding of the integers in the reals. */
  lemma {:induction false} RealOfProduct(a: int, b: nat)
    ensures (a * b) as real == a as real * b as real
  {
    if b > 0 {
      RealOfProduct(a, b - 1);
      assert a * b == a * (b - 1) + a;
    }
  }

  /** The decimal number `mant * 10^-scale`. */
  datatype Dec = Dec(mant: int, scale: nat) {
    ghost function Value(): real {
      mant as real / Pow10(scale) as real
    }
  }

  /** `x` truncated toward zero is `i`: what Python's `int()` does to a
      `Decimal` or a float. */
  ghost predicate IsTrunc(i: int, x: real) {
    if x >= 0.0 then i as real <= x < i as real + 1.0
    else i as real - 1.0 < x <= i as real
  }

  function FromInt(n: int): (d: Dec)
    ensures d.Value() == n as real
  {
    Dec(n, 0)
  }

  lemma LeDiv(a: real, m: real, p: real)
    requires p > 0.0
    ensures a <= m / p <==> a * p <= m
  {
    assert (m / p) * p == m;
  }

  lemma LtDiv(a: real, m: real, p: real)
    requires p > 0.0
    ensures m / p < a <==> m < a * p
  {
    assert (m / p) * p == m;
  }

  lemma DivBounds(m: nat, p: nat)
    requires p >= 1
    ensures (m / p) as real <= m as real / p as real < (m / p) as real + 1.0
  {
    var q := m / p;
    assert q * p <= m < q * p + p;
    RealOfProduct(q, p);
    assert q as real * p as real <= m as real;
    assert m as real < (q as real + 1.0) * p as real;
    LeDiv(q as real, m as real, p as real);
    LtDiv(q as real + 1.0, m as real, p as real);
  }

  /** Python's `int(d)`: truncation toward zero. */
  function Trunc(d: Dec): (i: int)
    ensures IsTrunc(i, d.Value())
  {
    var p := Pow10(d.scale);
    if d.mant >= 0 then
      DivBounds(d.mant, p);
      d.mant / p
    else
      DivBounds(-d.mant, p);
      assert (-d.mant) as real / p as real == -(d.mant as real / p as real);
      -((-d.mant) / p)
  }

  /** Dividing by a product is dividing by each factor in turn. */
  lemma DivTwice(m: real, a: real, b: real, c: real)
    requires a > 0.0 && b > 0.0 && c == a * b
    ensures m / c == (m / a) / b
  {
  }

  /** `d / 10**k`, computed exactly. */
  function ScaleDown(d: Dec, k: nat): (r: Dec)
    ensures r.Value() == d.Value() / Pow10(k) as real
  {
    Pow10Add(d.scale, k);
    RealOfProduct(Pow10(d.scale), Pow10(k));
    DivTwice(d.mant as real, Pow10(d.scale) as real, Pow10(k) as real, Pow10(d.scale + k) as real);
    Dec(d.mant, d.scale + k)
  }

  /** `d * n` for an integer `n`. */
  function MulInt(d: Dec, n: int): (r: Dec)
    ensures r.Value() == d.Value() * n as real
  {
    if n >= 0 then
      RealOfProduct(d.mant, n);
      Dec(d.mant * n, d.scale)
    else
      RealOfProduct(d.mant, -n);
      assert d.mant * n == -(d.mant * -n);
      Dec(d.mant * n, d.scale)
  }

  /** `int(d * n)`: the product truncated toward zero. */
  function TruncMul(d: Dec, n: int): (i: int)
    ensures IsTrunc(i, d.Value() * n as real)
  {
    var m := MulInt(d, n);
    var i := Trunc(m);
    assert IsTrunc(i, m.Value());
    i
  }

  /** `int(d / 10**k)`: the quotient truncated toward zero. */
  function TruncDiv(d: Dec, k: nat): (i: int)
    ensures IsTrunc(i, d.Value() / Pow10(k) as real)
  {
    var m := ScaleDown(d, k);
    var i := Trunc(m);
    assert IsTrunc(i, m.Value());
    i
  }

  /** `d + n` for an integer `n`. */
  function AddInt(d: Dec, n: int): (r: Dec)
    ensures r.Value() == d.Value() + n as real
  {
    var p := Pow10(d.scale);
    if n >= 0 then
      RealOfProduct(n, p);
      Dec(d.mant + n * p, d.scale)
    else
      RealOfProduct(-n, p);
      assert n * p == -((-n) * p);
      Dec(d.mant + n * p, d.scale)
  }

  /** Truncation is determined by the value alone. */
  lemma TruncUnique(i: int, j: int, x: real)
    requires IsTrunc(i, x) && IsTrunc(j, x)
    ensures i == j
  {
  }

  /** An integer-valued decimal truncates to itself. */
  lemma TruncOfInteger(d: Dec, n: int)
    requires d.Value() == n as real
    ensures Trunc(d) == n
  {
    TruncUnique(Trunc(d), n, d.Value());
  }

  /** Dividing an integer by `10**k` and multiplying back loses nothing. */
  lemma ScaleRoundTrip(w: int, k: nat)
    ensures TruncMul(ScaleDown(FromInt(w), k), Pow10(k)) == w
  {
    var p := Pow10(k);
    assert ScaleDown(FromInt(w), k) == Dec(w, k);
    assert MulInt(Dec(w, k), p) == Dec(w * p, k);
    TruncOfScaled(w, k);
  }

  /** `w * 10**k` at scale `k` is the integer `w`. */
  lemma TruncOfScaled(w: int, k: nat)
    ensures Trunc(Dec(w * Pow10(k), k)) == w
  {
    ScaledValue(w, k);
    TruncOfInteger(Dec(w * Pow10(k), k), w);
  }

  lemma ScaledValue(w: int, k: nat)
    ensures Dec(w * Pow10(k), k).Value() == w as real
  {
    var p := Pow10(k);
    RealOfProduct(w, p);
    MulDivCancel(w as real, p as real);
  }

  lemma MulDivCancel(x: real, p: real)
    requires p > 0.0
    ensures (x * p) / p == x
  {
  }
}
