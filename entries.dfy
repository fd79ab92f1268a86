/**
 * Ledger entries. An entry is immutable once built: every field but the id is
 * fixed by its constructor, and the id is assigned once, when it is created.
 */
module Entries {

  /** The sign convention of an entry. */
  datatype TxType = Credit | Debit

  /** A classification only; it plays no part in balance arithmetic. */
  datatype Category = Withdraw | Deposit | Transfer | Fee | Reversal

  /**
   * One posting against one account. `id` stands for the globally unique
   * identifier; the creation date is not part of this model.
   */
  datatype Entry = Entry(
    id: nat,
    accountId: int,
    amount: int,
    description: string,
    txType: TxType,
    category: Category)
}
