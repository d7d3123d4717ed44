/**
 * The cost rule of the balance ledger: raw token usage becomes a whole number
 * of billed units ("条"), 1000 tokens per unit, rounded up, then scaled by a
 * price multiplier and rounded up again.
 */
module Cost {

  /** Tokens covered by one billed unit. */
  const TokensPerUnit: nat := 1000

  type Positive = n: nat | n > 0 witness 1

  /**
   * The price multiplier `num / den`. The source takes a float (1.0 by
   * default, 2.0 for intent recognition); here it is an exact rational.
   */
  datatype Multiplier = Multiplier(num: nat, den: Positive)

  /** The default multiplier 1.0. */
  const Unit: Multiplier := Multiplier(1, 1)

  /** `ceil(n / d)` for a non-negative numerator: the least q with q * d >= n. */
  function CeilDiv(n: nat, d: Positive): (q: nat)
    ensures q * d >= n
    ensures q == 0 || (q - 1) * d < n
  {
    var q := (n + d - 1) / d;
    var r := (n + d - 1) % d;
    assert q * d + r == n + d - 1;
    q
  }

  /** Any k with k * d >= n is at least `ceil(n / d)`. */
  lemma CeilDivLeast(n: nat, d: Positive, k: nat)
    requires k * d >= n
    ensures CeilDiv(n, d) <= k
  {
    var q := CeilDiv(n, d);
    if q > k {
      assert (q - 1) * d >= k * d by {
        MulMonotone(k, q - 1, d);
      }
    }
  }

  lemma MulMonotone(a: nat, b: nat, c: nat)
    requires a <= b
    ensures a * c <= b * c
  {
  }

  /** `ceil(n / d)` does not decrease when n grows. */
  lemma CeilDivMonotone(n1: nat, n2: nat, d: Positive)
    requires n1 <= n2
    ensures CeilDiv(n1, d) <= CeilDiv(n2, d)
  {
    CeilDivLeast(n1, d, CeilDiv(n2, d));
  }

  /**
   * Units charged before the multiplier: `ceil(tokens / 1000)` when tokens is
   * positive and 0 otherwise.
   */
  function BaseCost(tokens: int): (c: nat)
    ensures tokens <= 0 ==> c == 0
    ensures tokens > 0 ==> c * TokensPerUnit >= tokens && (c - 1) * TokensPerUnit < tokens
    ensures tokens > 0 ==> c >= 1
  {
    if tokens > 0 then CeilDiv(tokens, TokensPerUnit) else 0
  }

  /** Units charged with the multiplier applied: `ceil(BaseCost(tokens) * m)`. */
  function TokenCost(tokens: int, m: Multiplier): (c: nat)
    ensures c * m.den >= BaseCost(tokens) * m.num
    ensures c == 0 || (c - 1) * m.den < BaseCost(tokens) * m.num
  {
    CeilDiv(BaseCost(tokens) * m.num, m.den)
  }

  /** The multiplied cost is zero exactly when there is no usage or the multiplier is zero. */
  lemma TokenCostZeroIff(tokens: int, m: Multiplier)
    ensures TokenCost(tokens, m) == 0 <==> tokens <= 0 || m.num == 0
  {
    if tokens > 0 && m.num > 0 {
      var b := BaseCost(tokens);
      assert b * m.num >= 1 by {
        MulMonotone(1, b, m.num);
      }
    }
  }

  /** With the default multiplier, the cost is the base cost. */
  lemma UnitCostIsBaseCost(tokens: int)
    ensures TokenCost(tokens, Unit) == BaseCost(tokens)
  {
  }

  /** A fixed single charge of 1000 tokens at multiplier 1.0 costs exactly one unit. */
  lemma SingleChargeIsOneUnit()
    ensures TokenCost(TokensPerUnit, Unit) == 1
  {
    assert BaseCost(TokensPerUnit) == 1;
  }

  /** An integer multiplier k charges exactly k times the base cost. */
  lemma IntegerMultiplierScales(tokens: int, k: nat)
    ensures TokenCost(tokens, Multiplier(k, 1)) == BaseCost(tokens) * k
  {
  }

  /** A multiplier of at least 1 never charges less than the base cost. */
  lemma MultiplierAtLeastOneCoversBase(tokens: int, m: Multiplier)
    requires m.num >= m.den
    ensures TokenCost(tokens, m) >= BaseCost(tokens)
  {
    var b := BaseCost(tokens);
    var c := TokenCost(tokens, m);
    MulMonotone(m.den, m.num, b);
    assert b * m.den <= c * m.den;
    DivideOut(b, c, m.den);
  }

  /** The cost is monotone in the token count. */
  lemma TokenCostMonotoneInTokens(t1: int, t2: int, m: Multiplier)
    requires t1 <= t2
    ensures TokenCost(t1, m) <= TokenCost(t2, m)
  {
    var b1, b2 := BaseCost(t1), BaseCost(t2);
    assert b1 <= b2 by {
      if t1 > 0 {
        CeilDivMonotone(t1, t2, TokensPerUnit);
      }
    }
    MulMonotone(b1, b2, m.num);
    CeilDivMonotone(b1 * m.num, b2 * m.num, m.den);
  }

  /** The cost is monotone in the multiplier: m1 <= m2 as rationals. */
  lemma TokenCostMonotoneInMultiplier(tokens: int, m1: Multiplier, m2: Multiplier)
    requires m1.num * m2.den <= m2.num * m1.den
    ensures TokenCost(tokens, m1) <= TokenCost(tokens, m2)
  {
    var b := BaseCost(tokens);
    var c2 := TokenCost(tokens, m2);
    ScaledCover(b, c2, m1.num, m1.den, m2.num, m2.den);
    CeilDivLeast(b * m1.num, m1.den, c2);
  }

  /** If c covers b * n2 / d2 and n1 / d1 <= n2 / d2, then c covers b * n1 / d1. */
  lemma ScaledCover(b: nat, c: nat, n1: nat, d1: Positive, n2: nat, d2: Positive)
    requires c * d2 >= b * n2
    requires n1 * d2 <= n2 * d1
    ensures c * d1 >= b * n1
  {
    var lhs := (b * n1) * d2;
    var rhs := (c * d1) * d2;
    assert lhs == b * (n1 * d2);
    MulMonotone(n1 * d2, n2 * d1, b);
    assert b * (n1 * d2) <= b * (n2 * d1);
    assert b * (n2 * d1) == (b * n2) * d1;
    MulMonotone(b * n2, c * d2, d1);
    assert (c * d2) * d1 == rhs;
    DivideOut(b * n1, c * d1, d2);
  }

  /** Cancelling a positive common factor preserves <=. */
  lemma DivideOut(a: nat, b: nat, k: Positive)
    requires a * k <= b * k
    ensures a <= b
  {
    if a > b {
      MulMonotone(b + 1, a, k);
    }
  }
}
