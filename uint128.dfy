/** Checked 128-bit unsigned arithmetic and 18-decimal fixed point, as the
    contract uses them.  An overflowing `+`/`*`, a division by zero and an
    overflowing `multiply_ratio` abort the whole step; here they become
    `Err(Overflow)` and `Err(DivideByZero)`. */
module Uint128 {

  const MAX_U128: nat := 0xffff_ffff_ffff_ffff_ffff_ffff_ffff_ffff

  type u128 = x: nat | x <= MAX_U128

  /** The fraction unit of the contract's own constant DECIMAL_FRACTIONAL (1e9). */
  const DECIMAL_FRACTIONAL: u128 := 1_000_000_000

  /** The fraction unit of a `Decimal` (18 decimal places). */
  const DECIMAL_ONE: u128 := 1_000_000_000_000_000_000

  /** The errors a step can abort with. */
  datatype StdError =
    | Overflow
    | DivideByZero
    | InvalidAddress(addr: string)
    | QueryFailed(reason: string)

  datatype Result<+T> = Ok(value: T) | Err(error: StdError) {
    predicate IsFailure() { Err? }

    function PropagateFailure<U>(): Result<U>
      requires Err?
    {
      Err(error)
    }

    function Extract(): T
      requires Ok?
    {
      value
    }
  }

  /** `a + b` on Uint128. */
  function CheckedAdd(a: u128, b: u128): (r: Result<u128>)
    ensures r.Ok? <==> a + b <= MAX_U128
    ensures r.Ok? ==> r.value == a + b
    ensures r.Err? ==> r.error == Overflow
  {
    if a + b <= MAX_U128 then Ok(a + b) else Err(Overflow)
  }

  /** `a * b / d` on Uint128: the product is checked first, then the division. */
  function MulDiv(a: u128, b: u128, d: u128): (r: Result<u128>)
    ensures r.Ok? <==> a * b <= MAX_U128 && d > 0
    ensures r == Err(Overflow) <==> a * b > MAX_U128
    ensures r.Ok? ==> r.value * d <= a * b < (r.value + 1) * d
  {
    var p: nat := a * b;
    if p > MAX_U128 then Err(Overflow)
    else if d == 0 then Err(DivideByZero)
    else FloorDiv(p, d); DivAtMost(p, d); Ok(p / d)
  }

  /** `x.multiply_ratio(num, den)`: a full-width product divided by `den`,
      refused when `den` is zero or the quotient does not fit. */
  function MultiplyRatio(x: u128, num: u128, den: u128): (r: Result<u128>)
    ensures r.Ok? <==> den > 0 && x * num / den <= MAX_U128
    ensures r == Err(DivideByZero) <==> den == 0
    ensures r.Ok? ==> r.value * den <= x * num < (r.value + 1) * den
  {
    var p: nat := x * num;
    if den == 0 then Err(DivideByZero)
    else if p / den > MAX_U128 then Err(Overflow)
    else FloorDiv(p, den); Ok(p / den)
  }

  /** Euclidean division of naturals brackets the dividend. */
  lemma {:induction false} FloorDiv(p: nat, d: nat)
    requires d > 0
    ensures (p / d) * d <= p < (p / d + 1) * d
  {
    var q, m := p / d, p % d;
    assert p == q * d + m;
    assert (q + 1) * d == q * d + d;
  }

  lemma {:induction false} DivAtMost(p: nat, d: nat)
    requires d > 0
    ensures p / d <= p
  {
    var q := p / d;
    FloorDiv(p, d);
    MulMono(1, d, q);
    assert q <= d * q;
    assert d * q == q * d;
  }

  /** A fixed-point `Decimal`: `atomics` units of 10^-18. */
  datatype Decimal = Decimal(atomics: u128)

  /** `d * u` with `d: Decimal` and `u: Uint128`: zero when either is zero,
      otherwise `u.multiply_ratio(d.atomics, 10^18)`. */
  function DecimalMul(d: Decimal, u: u128): Result<u128>
  {
    if u == 0 || d.atomics == 0 then Ok(0)
    else MultiplyRatio(u, d.atomics, DECIMAL_ONE)
  }

  /** Scaling a rate by DECIMAL_FRACTIONAL never fails and keeps its first nine
      decimal places: the result is floor(rate * 10^9). */
  lemma {:induction false} DecimalMulFractional(d: Decimal)
    ensures DecimalMul(d, DECIMAL_FRACTIONAL) == Ok(d.atomics / DECIMAL_FRACTIONAL)
  {
    if d.atomics != 0 {
      var n := DECIMAL_FRACTIONAL * d.atomics;
      assert DECIMAL_ONE == DECIMAL_FRACTIONAL * DECIMAL_FRACTIONAL;
      DivCancel(d.atomics, DECIMAL_FRACTIONAL);
      assert n / DECIMAL_ONE == d.atomics / DECIMAL_FRACTIONAL;
      assert n / DECIMAL_ONE <= MAX_U128;
    }
  }

  lemma {:induction false} DivCancel(a: nat, k: nat)
    requires k > 0
    ensures (k * a) / (k * k) == a / k
  {
    var q, m := a / k, a % k;
    assert a == q * k + m;
    var kk := k * k;
    assert k * a == q * kk + k * m by {
      assert k * (q * k + m) == k * (q * k) + k * m;
      assert k * (q * k) == q * (k * k);
    }
    assert 0 <= k * m < kk by { MulStrict(k, m, k); }
    DivUnique(k * a, kk, q, k * m);
  }

  lemma {:induction false} MulStrict(k: nat, m: nat, n: nat)
    requires k > 0 && m < n
    ensures k * m < k * n
  {}

  /** A quotient is determined by the Euclidean decomposition. */
  lemma {:induction false} DivUnique(p: nat, d: nat, q: nat, m: nat)
    requires d > 0 && m < d && p == q * d + m
    ensures p / d == q
  {
    FloorDiv(p, d);
    var q' := p / d;
    if q' < q {
      assert (q' + 1) * d <= q * d by { MulMono(q' + 1, q, d); }
    } else if q' > q {
      assert (q + 1) * d <= q' * d by { MulMono(q + 1, q', d); }
    }
  }

  lemma {:induction false} MulMono(a: nat, b: nat, d: nat)
    requires a <= b
    ensures a * d <= b * d
  {}
}
