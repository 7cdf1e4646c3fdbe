/**
 * The payout model: the multiplier a round has reached after `revealed`
 * safe tiles on a board holding `mines` mines.  Arithmetic is exact
 * (real), standing for the double-precision arithmetic of the game's
 * JavaScript.
 */
module Payout {
  import opened Shared

  /** The number of safe tiles on a board with `mines` mines. */
  function SafeTiles(mines: int): int {
    BoardSize - mines
  }

  /** The risk premium `1 + mines * 0.1`. */
  function RiskPremium(mines: int): real {
    1.0 + mines as real * 0.1
  }

  /** The factor contributed by the reveal with index `i`: safe / (safe - i). */
  function Factor(safe: int, i: nat): real
    requires i < safe
  {
    safe as real / (safe - i) as real
  }

  /** The product, over every i < n, of Factor(safe, i). */
  function OddsProduct(safe: int, n: nat): real
    requires n <= safe
  {
    if n == 0 then 1.0 else OddsProduct(safe, n - 1) * Factor(safe, n - 1)
  }

  /**
   * The multiplier after `revealed` safe reveals: 1 before any reveal, and
   * otherwise the odds product scaled by the risk premium.  A positive
   * count needs `revealed <= SafeTiles(mines)`, so no divisor is zero.
   */
  function Multiplier(revealed: nat, mines: int): real
    requires revealed == 0 || revealed <= SafeTiles(mines)
  {
    if revealed == 0 then 1.0 else OddsProduct(SafeTiles(mines), revealed) * RiskPremium(mines)
  }

  /** calculateMultiplier: the accumulating loop, proved against Multiplier. */
  method CalculateMultiplier(revealed: nat, mines: int) returns (mult: real)
    requires revealed == 0 || revealed <= SafeTiles(mines)
    ensures mult == Multiplier(revealed, mines)
    ensures revealed == 0 ==> mult == 1.0
  {
    var safeTiles := BoardSize - mines;
    if revealed == 0 {
      return 1.0;
    }
    mult := 1.0;
    for i := 0 to revealed
      invariant mult == OddsProduct(safeTiles, i)
    {
      mult := mult * (safeTiles as real / (safeTiles - i) as real);
    }
    mult := mult * (1.0 + mines as real * 0.1);
  }

  /** Every factor is at least 1, so the product is at least 1. */
  lemma {:induction false} OddsProductAtLeastOne(safe: int, n: nat)
    requires n <= safe
    ensures OddsProduct(safe, n) >= 1.0
  {
    if n > 0 {
      OddsProductAtLeastOne(safe, n - 1);
      FactorAtLeastOne(safe, n - 1);
      ProductOfAtLeastOne(OddsProduct(safe, n - 1), Factor(safe, n - 1));
    }
  }

  lemma FactorAtLeastOne(safe: int, i: nat)
    requires i < safe
    ensures Factor(safe, i) >= 1.0
    ensures i > 0 ==> Factor(safe, i) > 1.0
  {
    var d := (safe - i) as real;
    assert Factor(safe, i) * d == safe as real;
  }

  lemma ProductOfAtLeastOne(x: real, y: real)
    requires x >= 1.0 && y >= 1.0
    ensures x * y >= 1.0 && x * y >= x
  {
    assert x * y - x == x * (y - 1.0);
  }

  /** With a non-negative mine count the multiplier never drops below 1. */
  lemma MultiplierAtLeastOne(revealed: nat, mines: int)
    requires 0 <= mines
    requires revealed == 0 || revealed <= SafeTiles(mines)
    ensures Multiplier(revealed, mines) >= 1.0
  {
    if revealed > 0 {
      OddsProductAtLeastOne(SafeTiles(mines), revealed);
      ProductOfAtLeastOne(OddsProduct(SafeTiles(mines), revealed), RiskPremium(mines));
    }
  }

  /**
   * The first factor is safe/safe = 1, so one safe reveal pays exactly the
   * risk premium (the product is not the inverse of the probability of
   * surviving the reveals, which would already exceed 1 for n = 1).
   */
  lemma FirstRevealPaysPremium(mines: int)
    requires mines < BoardSize
    ensures Multiplier(1, mines) == RiskPremium(mines)
  {
    assert Factor(SafeTiles(mines), 0) == 1.0;
    assert OddsProduct(SafeTiles(mines), 1) == 1.0;
  }

  /** Past the first reveal, each reveal multiplies the multiplier by its factor. */
  lemma MultiplierNext(n: nat, mines: int)
    requires 1 <= n && n + 1 <= SafeTiles(mines)
    ensures Multiplier(n + 1, mines) == Multiplier(n, mines) * Factor(SafeTiles(mines), n)
  {
    var p := OddsProduct(SafeTiles(mines), n);
    var f := Factor(SafeTiles(mines), n);
    var q := RiskPremium(mines);
    assert Multiplier(n + 1, mines) == (p * f) * q;
    assert (p * f) * q == (p * q) * f;
  }

  /** One more safe reveal strictly raises the multiplier once a mine is on the board. */
  lemma MultiplierStep(n: nat, mines: int)
    requires 1 <= mines
    requires n + 1 <= SafeTiles(mines)
    ensures Multiplier(n, mines) < Multiplier(n + 1, mines)
  {
    if n == 0 {
      FirstRevealPaysPremium(mines);
    } else {
      MultiplierAtLeastOne(n, mines);
      FactorAtLeastOne(SafeTiles(mines), n);
      MultiplierNext(n, mines);
      GrowsByFactor(Multiplier(n, mines), Factor(SafeTiles(mines), n));
    }
  }

  lemma GrowsByFactor(x: real, f: real)
    requires x >= 1.0 && f > 1.0
    ensures x < x * f
  {
    assert x * f - x == x * (f - 1.0);
  }

  /** The multiplier is strictly increasing in the number of safe reveals. */
  lemma {:induction false} MultiplierStrictlyIncreasing(n: nat, n': nat, mines: int)
    requires 1 <= mines
    requires n < n' <= SafeTiles(mines)
    ensures Multiplier(n, mines) < Multiplier(n', mines)
    decreases n' - n
  {
    MultiplierStep(n, mines);
    if n + 1 < n' {
      MultiplierStrictlyIncreasing(n + 1, n', mines);
    }
  }

  /** safe^n, the numerator of the closed form. */
  function Power(safe: int, n: nat): real {
    if n == 0 then 1.0 else Power(safe, n - 1) * safe as real
  }

  /** safe * (safe - 1) * ... * (safe - n + 1), the denominator of the closed form. */
  function Falling(safe: int, n: nat): real {
    if n == 0 then 1.0 else Falling(safe, n - 1) * (safe - (n - 1)) as real
  }

  /** Closed form of the odds product: safe^n / (safe!/(safe-n)!). */
  lemma {:induction false} OddsProductClosedForm(safe: int, n: nat)
    requires n <= safe
    ensures Falling(safe, n) > 0.0
    ensures OddsProduct(safe, n) == Power(safe, n) / Falling(safe, n)
  {
    if n > 0 {
      OddsProductClosedForm(safe, n - 1);
      var p := Power(safe, n - 1);
      var f := Falling(safe, n - 1);
      var d := (safe - (n - 1)) as real;
      var s := safe as real;
      assert Falling(safe, n) == f * d;
      assert Power(safe, n) == p * s;
      assert OddsProduct(safe, n) == (p / f) * (s / d);
      QuotientProduct(p, f, s, d);
    }
  }

  lemma QuotientProduct(p: real, f: real, s: real, d: real)
    requires f > 0.0 && d > 0.0
    ensures f * d > 0.0
    ensures (p / f) * (s / d) == (p * s) / (f * d)
  {
  }

  /** The values for three mines: 1.3 after one safe reveal, (22/21) * 1.3 after two. */
  lemma ThreeMineValues()
    ensures Multiplier(1, 3) == 1.3
    ensures Multiplier(2, 3) == (22.0 / 21.0) * 1.3
  {
    assert OddsProduct(22, 1) == 1.0;
    assert OddsProduct(22, 2) == 22.0 / 21.0;
  }
}
