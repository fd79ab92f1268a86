/**
 * The funds checks as the source writes them, in 64-bit `long` arithmetic.
 * `amount + fee` is computed without overflow checking, so for an amount within
 * the fee of `long.MaxValue` the total wraps to a large negative number and the
 * check `balance < totalAmount` no longer refuses anything.
 */
module Overflow {
  import opened Wrappers
  import opened Entries
  import opened Fees
  import opened Accounts
  import opened Service
  import opened Controller

  const MinLong: int := -0x8000_0000_0000_0000
  const MaxLong: int := 0x7FFF_FFFF_FFFF_FFFF
  const Modulus: int := 0x1_0000_0000_0000_0000

  predicate IsLong(x: int)
  {
    MinLong <= x <= MaxLong
  }

  /** Two's-complement wrap-around of an integer into the `long` range. */
  function Wrap(x: int): (r: int)
    ensures IsLong(r)
    ensures IsLong(x) ==> r == x
    ensures MaxLong < x <= MaxLong + Modulus ==> r == x - Modulus
  {
    (x - MinLong) % Modulus + MinLong
  }

  /** The withdrawal check as written: refuse only when `balance < amount + WithdrawFixed` in `long`. */
  predicate WithdrawPassesAsWritten(balance: int, amount: int)
  {
    !(balance < Wrap(amount + WithdrawFixed))
  }

  /** The transfer check as written: refuse only when `sourceBalance < amount + TransferFixed` in `long`. */
  predicate TransferPassesAsWritten(sourceBalance: int, amount: int)
  {
    !(sourceBalance < Wrap(amount + TransferFixed))
  }

  /** Where the sum does not overflow, the check as written is the intended one. */
  lemma WithdrawCheckAgreesBelowOverflow(balance: int, amount: int)
    requires IsLong(amount) && amount + WithdrawFixed <= MaxLong
    ensures WithdrawPassesAsWritten(balance, amount) == CanWithdraw(balance, amount)
  {
  }

  /** Where the sum overflows, the check as written passes for every non-negative balance. */
  lemma WithdrawCheckWrapsNearMax(balance: int, amount: int)
    requires IsLong(amount) && amount + WithdrawFixed > MaxLong
    requires IsLong(balance) && balance >= 0
    ensures WithdrawPassesAsWritten(balance, amount)
    ensures !CanWithdraw(balance, amount)
  {
  }

  lemma TransferCheckAgreesBelowOverflow(sourceBalance: int, amount: int)
    requires IsLong(amount) && amount + TransferFixed <= MaxLong
    ensures TransferPassesAsWritten(sourceBalance, amount) == CanTransfer(sourceBalance, amount)
  {
  }

  lemma TransferCheckWrapsNearMax(sourceBalance: int, amount: int)
    requires IsLong(amount) && amount + TransferFixed > MaxLong
    requires IsLong(sourceBalance) && sourceBalance >= 0
    ensures TransferPassesAsWritten(sourceBalance, amount)
    ensures !CanTransfer(sourceBalance, amount)
  {
  }

  /**
   * Withdrawing `long.MaxValue` from an empty account passes the endpoint and the
   * check as written, and the posted batch would leave the account overdrawn.
   */
  lemma WithdrawMaxLongOverdraws(log: seq<Entry>, firstId: nat, accountId: int)
    requires Balance(log, accountId) == 0
    ensures Gate(WithdrawRequest(accountId, MaxLong)) == None
    ensures WithdrawPassesAsWritten(Balance(log, accountId), MaxLong)
    ensures Balance(log + WithdrawBatch(firstId, accountId, MaxLong), accountId) < 0
    ensures !CanWithdraw(Balance(log, accountId), MaxLong)
  {
    WithdrawEffect(log, firstId, accountId, MaxLong, accountId);
  }

  /** Transferring `long.MaxValue` out of an empty account likewise passes the check as written. */
  lemma TransferMaxLongOverdraws(log: seq<Entry>, firstId: nat, sourceId: int, sourceName: string,
                                 destinationId: int, destinationName: string)
    requires sourceId != destinationId && Balance(log, sourceId) == 0
    ensures Gate(TransferRequest(sourceId, destinationId, MaxLong)) == None
    ensures TransferPassesAsWritten(Balance(log, sourceId), MaxLong)
    ensures Balance(log + TransferBatch(firstId, sourceId, sourceName, destinationId, destinationName, MaxLong), sourceId) < 0
    ensures !CanTransfer(Balance(log, sourceId), MaxLong)
  {
    TransferEffect(log, firstId, sourceId, sourceName, destinationId, destinationName, MaxLong, sourceId);
  }
}
