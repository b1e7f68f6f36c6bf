/**
 * The gas pricing policy: the price offered per unit of gas at each retry
 * attempt, and the conversions of a real-valued amount to the `u64` the
 * node is sent. Floating point is modelled by the reals.
 */
module Gas {
  import opened Chain
  import opened Text

  /**
   * Price per unit of gas at `attempt` (0 is the first): linear from the low
   * price in `gasPriceRetryAttempts` equal steps, and the high price from
   * attempt `gasPriceRetryAttempts` on.
   */
  function GasPrice(config: CosmosConfig, attempt: nat): (price: real)
    ensures config.gasPriceRetryAttempts == 0 ==> price == config.gasPriceHigh
    ensures attempt == 0 < config.gasPriceRetryAttempts ==> price == config.gasPriceLow
    ensures config.gasPriceLow <= config.gasPriceHigh ==>
      config.gasPriceLow <= price <= config.gasPriceHigh
  {
    var attempts := config.gasPriceRetryAttempts;
    var low, high := config.gasPriceLow, config.gasPriceHigh;
    if attempt >= attempts then high
    else
      var step := (high - low) / attempts as real;
      StepsBelowTotal(low, high, attempts, attempt);
      low + step * attempt as real
  }

  /** `k` steps of `(high - low) / n` from `low` stay within `[low, high]` when `k <= n`. */
  lemma StepsBelowTotal(low: real, high: real, n: nat, k: nat)
    requires 0 < n && k <= n
    ensures low <= high ==> low <= low + (high - low) / n as real * k as real <= high
  {
    if low <= high {
      var step := (high - low) / n as real;
      assert step >= 0.0;
      assert step * n as real == high - low;
      assert step * k as real <= step * n as real;
    }
  }

  /** The interpolated price grows with the attempt number when `low <= high`. */
  lemma InterpolationMonotonic(low: real, high: real, n: nat, i: nat, j: nat)
    requires low <= high && 0 < n && i <= j
    ensures low + (high - low) / n as real * i as real <= low + (high - low) / n as real * j as real
  {
    var step := (high - low) / n as real;
    assert step >= 0.0;
    ScaleMonotonic(step, i as real, j as real);
  }

  /** With `low <= high` the price never decreases from one attempt to a later one. */
  lemma {:induction false} GasPriceMonotonic(config: CosmosConfig, i: nat, j: nat)
    requires config.gasPriceLow <= config.gasPriceHigh
    requires i <= j
    ensures GasPrice(config, i) <= GasPrice(config, j)
  {
    var n := config.gasPriceRetryAttempts;
    if j < n {
      InterpolationMonotonic(config.gasPriceLow, config.gasPriceHigh, n, i, j);
    }
  }

  /**
   * Rust's `f64 as u64` on a real value: the fraction is dropped (toward
   * zero), and values outside the `u64` range saturate at 0 and `U64_MAX`.
   */
  function SaturatingU64(x: real): (r: nat)
    ensures r <= U64_MAX
    ensures x < 1.0 ==> r == 0
    ensures 0.0 <= x < U64_MAX as real ==> r as real <= x < r as real + 1.0
    ensures x >= U64_MAX as real ==> r == U64_MAX
  {
    if x <= 0.0 then 0
    else if x >= U64_MAX as real then U64_MAX
    else x.Floor
  }

  lemma {:induction false} SaturatingU64Monotonic(x: real, y: real)
    requires x <= y
    ensures SaturatingU64(x) <= SaturatingU64(y)
  {
    if 0.0 < x && y < U64_MAX as real {
      assert x.Floor as real <= x <= y;
    }
  }

  lemma ScaleMonotonic(a: real, x: real, y: real)
    requires 0.0 <= a && x <= y
    ensures a * x <= a * y
  {
    assert a * y - a * x == a * (y - x);
  }

  /**
   * `(gas as f64 * factor) as u64`: an amount of gas scaled by a factor. It is
   * the fee at a price per unit, and the padded gas limit after a simulation.
   */
  function Scaled(gas: nat, factor: real): (amount: nat)
    ensures amount <= U64_MAX
    ensures 0.0 <= gas as real * factor < U64_MAX as real ==>
      amount as real <= gas as real * factor < amount as real + 1.0
  {
    SaturatingU64(gas as real * factor)
  }

  /** A higher factor never gives a lower amount. */
  lemma ScaledMonotonic(gas: nat, p: real, q: real)
    requires p <= q
    ensures Scaled(gas, p) <= Scaled(gas, q)
  {
    ScaleMonotonic(gas as real, p, q);
    SaturatingU64Monotonic(gas as real * p, gas as real * q);
  }

  /** `gas_to_coins`: the fee amount for `gas` units at the price of `attempt`. */
  function GasToCoins(config: CosmosConfig, gas: nat, attempt: nat): (amount: nat)
    ensures amount <= U64_MAX
    ensures attempt >= config.gasPriceRetryAttempts ==> amount == Scaled(gas, config.gasPriceHigh)
    ensures attempt == 0 < config.gasPriceRetryAttempts ==> amount == Scaled(gas, config.gasPriceLow)
  {
    Scaled(gas, GasPrice(config, attempt))
  }

  /** The fee offered never decreases over the attempts when `low <= high`. */
  lemma {:induction false} GasToCoinsMonotonic(config: CosmosConfig, gas: nat, i: nat, j: nat)
    requires config.gasPriceLow <= config.gasPriceHigh
    requires i <= j
    ensures GasToCoins(config, gas, i) <= GasToCoins(config, gas, j)
  {
    GasPriceMonotonic(config, i, j);
    ScaledMonotonic(gas, GasPrice(config, i), GasPrice(config, j));
  }

  /** The source's unit test of the gas estimate multiplier: 1234 units padded by 1.3 and by 4.2. */
  lemma PaddedGasExamples()
    ensures Scaled(1234, 1.3) == 1604
    ensures Scaled(1234, 4.2) == 5182
  {
    assert 1234.0 * 1.3 == 1604.2;
    assert 1234.0 * 4.2 == 5182.8;
  }
}
