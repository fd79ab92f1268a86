/**
 * The fee schedule: one percentage fee for deposits and two fixed fees,
 * all in integer minor currency units.
 */
module Fees {

  /** The deposit percentage, 0.01 exactly (a C# `decimal`, so no binary rounding). */
  const DepositPercentage: real := 0.01

  /** The fixed fee charged on every withdrawal. */
  const WithdrawFixed: int := 400

  /** The fixed fee charged to the source account of every transfer. */
  const TransferFixed: int := 100

  /** The least integer not below `x`. */
  function Ceiling(x: real): (c: int)
    ensures x <= c as real < x + 1.0
  {
    -((-x).Floor)
  }

  /**
   * The deposit fee: `amount * DepositPercentage` rounded up to a whole
   * unit, computed exactly. It coincides with integer ceiling division by 100.
   */
  function DepositFee(amount: int): (fee: int)
    ensures fee == (amount + 99) / 100
  {
    var exact := amount as real * DepositPercentage;
    var c := Ceiling(exact);
    CeilingOfHundredth(amount, c);
    c
  }

  /** The only integer `c` with `amount / 100 <= c < amount / 100 + 1` is `(amount + 99) / 100`. */
  lemma CeilingOfHundredth(amount: int, c: int)
    requires amount as real * 0.01 <= c as real < amount as real * 0.01 + 1.0
    ensures c == (amount + 99) / 100
  {
    var q := (amount + 99) / 100;
    assert 100 * q <= amount + 99 < 100 * q + 100;
    assert amount as real <= 100.0 * c as real < amount as real + 100.0;
    assert amount <= 100 * c < amount + 100;
  }

  /** The fee never falls short of the exact percentage and exceeds it by less than one unit. */
  lemma DepositFeeIsCeiling(amount: int)
    ensures (DepositFee(amount) - 1) * 100 < amount <= DepositFee(amount) * 100
  {
    var fee := DepositFee(amount);
    assert 100 * fee <= amount + 99 < 100 * fee + 100;
  }

  /** For every positive deposit the fee is at least one unit and never more than the deposit. */
  lemma DepositFeeBounds(amount: int)
    requires amount >= 1
    ensures 1 <= DepositFee(amount) <= amount
  {
    DepositFeeIsCeiling(amount);
  }

  /** The fee applied to the deposits 10000, 5000 and 200000. */
  lemma DepositFeeExamples()
    ensures DepositFee(10000) == 100
    ensures DepositFee(5000) == 50
    ensures DepositFee(200000) == 2000
    ensures DepositFee(1) == 1 && DepositFee(101) == 2
  {
  }
}
