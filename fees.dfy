/**
 * The provider fee with its compute-unit surcharge: a request that asks for
 * more compute units than the provider's default pays the base fee scaled
 * by (requested limit rounded up to 10 000) / default.
 */
module Fees {
  import opened Common

  const COMPUTE_UNIT_STEP: nat := 10000

  /**
   * `round_up_to_10k`: the least multiple of 10 000 that is at least
   * `limit` (so 0 stays 0).
   */
  function RoundUpTo10k(limit: u32): (r: u64)
    ensures limit <= r < limit + COMPUTE_UNIT_STEP
  {
    if limit == 0 then 0
    else
      var remainder := limit % 10000;
      if remainder == 0 then limit else limit + (10000 - remainder)
  }

  /**
   * The rounded limit is a multiple of 10 000, and no smaller multiple of
   * 10 000 reaches the limit.
   */
  lemma RoundUpIsLeastMultiple(limit: u32, m: nat)
    ensures RoundUpTo10k(limit) % COMPUTE_UNIT_STEP == 0
    ensures limit <= m && m % COMPUTE_UNIT_STEP == 0 ==> RoundUpTo10k(limit) <= m
  {
    if limit != 0 && limit % COMPUTE_UNIT_STEP != 0 {
      assert RoundUpTo10k(limit) == limit - limit % COMPUTE_UNIT_STEP + COMPUTE_UNIT_STEP;
    }
  }

  /** Rounding up keeps the order of limits. */
  lemma RoundUpMonotone(a: u32, b: u32)
    requires a <= b
    ensures RoundUpTo10k(a) <= RoundUpTo10k(b)
  {
    RoundUpIsLeastMultiple(b, 0);
    RoundUpIsLeastMultiple(a, RoundUpTo10k(b));
  }

  /**
   * `calculate_provider_fee(base_fee, default_compute_unit_limit,
   * compute_unit_limit)`.
   */
  function CalculateProviderFee(baseFee: u64, defaultLimit: u32, limit: u32): (r: Result<u64>)
    ensures r.Err? ==> r.error == InvalidArgument
    ensures r.Ok? ==> r.value >= baseFee
    ensures defaultLimit == 0 || RoundUpTo10k(limit) <= defaultLimit ==> r == Ok(baseFee)
  {
    if defaultLimit == 0 then Ok(baseFee)
    else
      var rounded := RoundUpTo10k(limit);
      if rounded <= defaultLimit then Ok(baseFee)
      else
        match Surcharge(baseFee, defaultLimit, rounded)
        case None => Err(InvalidArgument)
        case Some(extra) =>
          if baseFee + extra > U64_MAX then Err(InvalidArgument)
          else Ok(baseFee + extra)
  }

  /**
   * The checked surcharge `(rounded - default) * base / default`; `None`
   * when the product overflows a u64.
   */
  function Surcharge(baseFee: u64, defaultLimit: u32, rounded: nat): (r: Option<nat>)
    requires 0 < defaultLimit < rounded
    ensures r.Some? ==> r.value <= Product(rounded - defaultLimit, baseFee) <= U64_MAX
  {
    var product: nat := Product(rounded - defaultLimit, baseFee);
    if product > U64_MAX then None else Some(product / defaultLimit)
  }

  /**
   * Whenever the fee is priced, it is the base fee scaled by
   * rounded limit / default limit (rounded down), and never below the base.
   */
  lemma FeeIsScaledBase(baseFee: u64, defaultLimit: u32, limit: u32)
    requires defaultLimit > 0
    requires CalculateProviderFee(baseFee, defaultLimit, limit).Ok?
    ensures CalculateProviderFee(baseFee, defaultLimit, limit).value
         == Max(baseFee, RoundUpTo10k(limit) * baseFee / defaultLimit)
  {
    var rounded := RoundUpTo10k(limit);
    if rounded <= defaultLimit {
      ScaledFeeAtMost(baseFee, defaultLimit, rounded);
    } else {
      ScaledFee(baseFee, defaultLimit, rounded);
    }
  }

  function Product(a: nat, b: nat): nat { a * b }

  /** A quotient is at least one exactly when the dividend reaches the divisor. */
  lemma AtLeastOneQuotient(x: nat, d: nat)
    requires d > 0
    ensures x / d >= 1 <==> x >= d
  {
    assert x == d * (x / d) + x % d;
    if x >= d {
      assert x / d != 0;
    }
  }

  /** Base plus the proportional surcharge is the base scaled by rounded/default. */
  lemma ScaledFee(base: nat, d: nat, rounded: nat)
    requires 0 < d < rounded
    ensures base + (rounded - d) * base / d == rounded * base / d
    ensures rounded * base / d >= base
  {
    var x := (rounded - d) * base;
    assert rounded * base == d * base + x;
    DivAddMultiple(base, x, d);
    assert x / d >= 0;
  }

  /** With no surcharge, scaling would not exceed the base fee. */
  lemma ScaledFeeAtMost(base: nat, d: nat, rounded: nat)
    requires 0 < d && rounded <= d
    ensures rounded * base / d <= base
  {
    MulMonotone(rounded, d, base);
    DivMonotone(rounded * base, d * base, d);
    DivAddMultiple(base, 0, d);
  }

  lemma DivAddMultiple(b: nat, x: nat, d: nat)
    requires d > 0
    ensures (d * b + x) / d == b + x / d
  {
    var q, m := x / d, x % d;
    assert d * b + x == d * (b + q) + m by {
      assert x == d * q + m;
      assert d * (b + q) == d * b + d * q;
    }
    DivUnique(d * b + x, d, b + q, m);
  }

  /** Euclidean division is determined by quotient and remainder. */
  lemma DivUnique(n: int, d: int, q: int, m: int)
    requires d > 0 && n == d * q + m && 0 <= m < d
    ensures n / d == q
  {
    var q', m' := n / d, n % d;
    assert n == d * q' + m' && 0 <= m' < d;
    assert d * (q' - q) == m - m' by {
      assert d * (q' - q) == d * q' - d * q;
    }
    if q' > q {
      MulAtLeast(d, q' - q);
    } else if q' < q {
      MulAtLeast(d, q - q');
    }
  }

  lemma MulAtLeast(d: nat, k: int)
    requires k >= 1
    ensures d * k >= d
  {
    assert d * k == d + d * (k - 1);
    assert d * (k - 1) >= 0;
  }

  lemma MulMonotone(a: nat, b: nat, c: nat)
    requires a <= b
    ensures a * c <= b * c
  {
    assert b * c == a * c + (b - a) * c;
  }

  lemma DivMonotone(a: nat, b: nat, d: nat)
    requires a <= b && d > 0
    ensures a / d <= b / d
  {
    var qa, qb := a / d, b / d;
    if qa > qb {
      assert d * qa == d * qb + d * (qa - qb);
      MulAtLeast(d, qa - qb);
      assert false;
    }
  }

  /**
   * For a fixed provider the fee never decreases as the requested limit
   * grows: a larger limit that is still priced gives a fee at least as
   * large, and a smaller limit is priced too.
   */
  lemma FeeMonotone(baseFee: u64, defaultLimit: u32, a: u32, b: u32)
    requires a <= b
    requires CalculateProviderFee(baseFee, defaultLimit, b).Ok?
    ensures CalculateProviderFee(baseFee, defaultLimit, a).Ok?
    ensures CalculateProviderFee(baseFee, defaultLimit, a).value
         <= CalculateProviderFee(baseFee, defaultLimit, b).value
  {
    var d := defaultLimit;
    if d > 0 {
      var ra, rb := RoundUpTo10k(a), RoundUpTo10k(b);
      RoundUpMonotone(a, b);
      if ra > d {
        var pa, pb := Product(ra - d, baseFee), Product(rb - d, baseFee);
        MulMonotone(ra - d, rb - d, baseFee);
        DivMonotone(pa, pb, d);
        assert CalculateProviderFee(baseFee, d, b) == Ok(baseFee + pb / d);
        assert CalculateProviderFee(baseFee, d, a) == Ok(baseFee + pa / d);
      }
    }
  }
}
