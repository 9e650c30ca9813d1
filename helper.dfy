/**
 * The two arithmetic macros of the program's helper module: the ratio check
 * run before a deposit into a non-empty pool (`check_asset!`) and the LP
 * share formula (`calculate_lp_tokens!`). Both operate on `u64` with Rust's
 * truncating division; a division by zero or a `u64` overflow aborts the
 * instruction and is modelled as an explicit failure.
 */
module Helper {
  import opened AmmTypes

  /** Arithmetic facts about truncating division used by the proofs below. */
  lemma {:induction false} DivBounds(x: nat, d: nat)
    requires d > 0
    ensures (x / d) * d <= x < (x / d) * d + d
  {
  }

  lemma {:induction false} DivMonotone(x: nat, y: nat, d: nat)
    requires d > 0 && x <= y
    ensures x / d <= y / d
  {
    DivBounds(x, d);
    DivBounds(y, d);
    if x / d > y / d {
      MulMonotone(y / d + 1, x / d, d);
    }
  }

  lemma MulMonotone(a: nat, b: nat, c: nat)
    requires a <= b
    ensures a * c <= b * c
  {
  }

  /** The unique quotient: `q` is `x / d` once `q * d <= x < q * d + d`. */
  lemma {:induction false} DivUnique(x: nat, d: nat, q: nat)
    requires d > 0 && q * d <= x < q * d + d
    ensures x / d == q
  {
    DivBounds(x, d);
    if x / d < q {
      MulMonotone(x / d + 1, q, d);
    } else if x / d > q {
      MulMonotone(q + 1, x / d, d);
    }
  }

  /**
   * `check_asset!`: the deposit is accepted when the integer quotient
   * `vault_a / vault_b` is the same before and after adding the amounts.
   * Rust evaluates `vault_a / vault_b` first (a panic when vault B is
   * empty), then the two sums (a panic when one overflows `u64`).
   */
  function CheckAsset(vaultA: U64, vaultB: U64, amountA: U64, amountB: U64): (r: Outcome)
    ensures vaultB == 0 ==> r == Err(DivisionByZero)
    ensures vaultB > 0 && (vaultA + amountA > U64_MAX || vaultB + amountB > U64_MAX) ==> r == Err(ArithmeticOverflow)
    ensures r.Err? ==> r.failure in {DivisionByZero, ArithmeticOverflow, Program(NotValidAsset)}
    ensures vaultB > 0 && amountA == 0 && amountB == 0 ==> r == Done
  {
    if vaultB == 0 then Err(DivisionByZero)
    else if vaultA + amountA > U64_MAX || vaultB + amountB > U64_MAX then Err(ArithmeticOverflow)
    else if vaultA / vaultB == (vaultA + amountA) / (vaultB + amountB) then Done
    else Err(Program(NotValidAsset))
  }

  /**
   * What the check accepts: with vault B non-empty and both sums in range,
   * the deposit passes exactly when the reserves after it lie in the same
   * integer price band `[q, q + 1)` as before, where `q = vault_a / vault_b`;
   * any other deposit is rejected with `NotValidAsset`.
   */
  lemma {:induction false} CheckAssetSameBand(vaultA: U64, vaultB: U64, amountA: U64, amountB: U64)
    requires vaultB > 0
    requires vaultA + amountA <= U64_MAX && vaultB + amountB <= U64_MAX
    ensures var q := vaultA / vaultB;
      var total := vaultB + amountB;
      CheckAsset(vaultA, vaultB, amountA, amountB) == Done <==> q * total <= vaultA + amountA < q * total + total
    ensures CheckAsset(vaultA, vaultB, amountA, amountB) != Done ==>
      CheckAsset(vaultA, vaultB, amountA, amountB) == Err(Program(NotValidAsset))
  {
    var q := vaultA / vaultB;
    DivBounds(vaultA + amountA, vaultB + amountB);
    if q * (vaultB + amountB) <= vaultA + amountA < q * (vaultB + amountB) + (vaultB + amountB) {
      DivUnique(vaultA + amountA, vaultB + amountB, q);
    }
  }

  /** The exact (rational) ratio of the reserves is unchanged by adding the amounts. */
  predicate SameRatio(vaultA: nat, vaultB: nat, amountA: nat, amountB: nat)
  {
    amountA * vaultB == amountB * vaultA
  }

  /**
   * With vault B non-empty, a deposit in exactly the pool's proportion
   * always passes the check, unless a sum overflows.
   */
  lemma {:induction false} ProportionalDepositPasses(vaultA: U64, vaultB: U64, amountA: U64, amountB: U64)
    requires vaultB > 0
    requires vaultA + amountA <= U64_MAX && vaultB + amountB <= U64_MAX
    requires SameRatio(vaultA, vaultB, amountA, amountB)
    ensures CheckAsset(vaultA, vaultB, amountA, amountB) == Done
  {
    ProportionalQuotient(vaultA, vaultB, amountA, amountB);
  }

  /** Scaling both reserves in the same proportion keeps their quotient. */
  lemma {:induction false} ProportionalQuotient(x: nat, y: nat, dx: nat, dy: nat)
    requires y > 0 && dx * y == dy * x
    ensures (x + dx) / (y + dy) == x / y
  {
    var q := x / y;
    DivBounds(x, y);
    assert (x + dx) * y == x * (y + dy);
    // q * y <= x, scaled by y + dy and then divided by y
    MulMonotone(q * y, x, y + dy);
    assert q * (y + dy) * y <= (x + dx) * y by {
      assert q * y * (y + dy) == q * (y + dy) * y;
    }
    CancelLe(q * (y + dy), x + dx, y);
    // x < (q + 1) * y, scaled the same way
    MulStrict(x, (q + 1) * y, y + dy);
    assert (x + dx) * y < (q + 1) * (y + dy) * y by {
      assert (q + 1) * y * (y + dy) == (q + 1) * (y + dy) * y;
    }
    CancelLt(x + dx, (q + 1) * (y + dy), y);
    DivUnique(x + dx, y + dy, q);
  }

  lemma CancelLe(a: nat, b: nat, c: nat)
    requires c > 0 && a * c <= b * c
    ensures a <= b
  {
    if a > b {
      MulStrict(b, a, c);
    }
  }

  lemma CancelLt(a: nat, b: nat, c: nat)
    requires a * c < b * c
    ensures a < b
  {
    if a >= b {
      MulMonotone(b, a, c);
    }
  }

  /**
   * The check compares truncated quotients only: whenever vault A holds less
   * than vault B before and after the deposit and `vault_b + amount_b` fits
   * in `u64`, both quotients are 0 and the deposit passes, whatever its own
   * proportion.
   */
  lemma {:induction false} RatioCheckIsCoarse(vaultA: U64, vaultB: U64, amountA: U64, amountB: U64)
    requires vaultA < vaultB && vaultA + amountA < vaultB + amountB
    requires vaultB + amountB <= U64_MAX
    ensures CheckAsset(vaultA, vaultB, amountA, amountB) == Done
  {
    DivUnique(vaultA, vaultB, 0);
    DivUnique(vaultA + amountA, vaultB + amountB, 0);
  }

  /** Reserves (1000, 2000) accept a deposit of (10, 19), which is not in their proportion. */
  lemma SkewedDepositAccepted()
    ensures CheckAsset(1000, 2000, 10, 19) == Done
    ensures !SameRatio(1000, 2000, 10, 19)
  {
    RatioCheckIsCoarse(1000, 2000, 10, 19);
  }

  /**
   * `calculate_lp_tokens!`: `(amount_a / vault_a) * supply`, with the
   * quotient truncated before the multiplication. `amount_b` is accepted
   * and ignored.
   */
  function CalculateLpTokens(amountA: U64, amountB: U64, vaultA: U64, supply: U64): (r: Result<U64>)
    ensures vaultA == 0 <==> r == Err(DivisionByZero)
    ensures r.Err? ==> r.failure in {DivisionByZero, ArithmeticOverflow}
    ensures vaultA > 0 && (supply == 0 || amountA < vaultA) ==> r == Ok(0)
    // never more than the exact proportional share amount_a / vault_a of the supply ...
    ensures r.Ok? ==> r.value * vaultA <= amountA * supply
    // ... and short of it by less than one whole supply
    ensures r.Ok? ==> amountA * supply < (r.value + supply) * vaultA || supply == 0
  {
    if vaultA == 0 then Err(DivisionByZero)
    else
      var q := amountA / vaultA;
      ShareBounds(amountA, vaultA, supply);
      if q * supply > U64_MAX then Err(ArithmeticOverflow) else Ok(q * supply)
  }

  lemma {:induction false} ShareBounds(amountA: nat, vaultA: nat, supply: nat)
    requires vaultA > 0
    ensures (amountA / vaultA) * supply * vaultA <= amountA * supply
    ensures supply == 0 || amountA * supply < ((amountA / vaultA) * supply + supply) * vaultA
    ensures amountA < vaultA ==> amountA / vaultA == 0
  {
    var q := amountA / vaultA;
    if amountA < vaultA {
      DivUnique(amountA, vaultA, 0);
    }
    DivBounds(amountA, vaultA);
    MulMonotone(q * vaultA, amountA, supply);
    assert q * supply * vaultA == q * vaultA * supply;
    if supply > 0 {
      assert amountA * supply < (q * vaultA + vaultA) * supply by {
        MulStrict(amountA, q * vaultA + vaultA, supply);
      }
      assert (q * vaultA + vaultA) * supply == (q * supply + supply) * vaultA;
    }
  }

  lemma MulStrict(a: nat, b: nat, c: nat)
    requires a < b && c > 0
    ensures a * c < b * c
  {
  }

  /** The LP share grows with `amount_a` and does not depend on `amount_b`. */
  lemma {:induction false} LpTokensMonotone(amountA1: U64, amountB1: U64, amountA2: U64, amountB2: U64, vaultA: U64, supply: U64)
    requires amountA1 <= amountA2
    requires CalculateLpTokens(amountA2, amountB2, vaultA, supply).Ok?
    ensures CalculateLpTokens(amountA1, amountB1, vaultA, supply).Ok?
    ensures CalculateLpTokens(amountA1, amountB1, vaultA, supply).value
         <= CalculateLpTokens(amountA2, amountB2, vaultA, supply).value
  {
    var q1, q2 := amountA1 / vaultA, amountA2 / vaultA;
    DivMonotone(amountA1, amountA2, vaultA);
    MulMonotone(q1, q2, supply);
    ShareValue(amountA1, amountB1, vaultA, supply);
    ShareValue(amountA2, amountB2, vaultA, supply);
  }

  /** The share formula unfolded for a non-empty vault A. */
  lemma ShareValue(amountA: U64, amountB: U64, vaultA: U64, supply: U64)
    requires vaultA > 0
    ensures var share := (amountA / vaultA) * supply;
      CalculateLpTokens(amountA, amountB, vaultA, supply) == if share > U64_MAX then Err(ArithmeticOverflow) else Ok(share)
  {
  }

  /**
   * A deposit of 10% of the reserves into a pool with reserves (1000, 1000)
   * and supply 1000 mints nothing: the quotient 100 / 1000 truncates to 0.
   */
  lemma TenthOfPoolMintsNothing()
    ensures CalculateLpTokens(100, 100, 1000, 1000) == Ok(0)
  {
  }
}
