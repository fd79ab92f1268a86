/**
 * The posting service. Deposit, Withdraw and Transfer look the account(s) up,
 * check funds, build a batch of two or three entries and append the batch to the
 * store in one call. Delete refuses a positive balance; Update renames the holder.
 */
module Service {
  import opened Wrappers
  import opened Entries
  import opened Fees
  import opened Accounts

  // ---------------------------------------------------------------------------
  // The decisions the service takes (integers are unbounded in this model)

  /** A withdrawal is covered when the balance pays the amount and the fixed fee. */
  predicate CanWithdraw(balance: int, amount: int)
  {
    balance >= amount + WithdrawFixed
  }

  /** A transfer is covered when the source balance pays the amount and the fixed fee. */
  predicate CanTransfer(sourceBalance: int, amount: int)
  {
    sourceBalance >= amount + TransferFixed
  }

  // ---------------------------------------------------------------------------
  // The batches the service posts, each numbered from the next free id

  function DepositBatch(firstId: nat, accountId: int, amount: int): seq<Entry>
  {
    [ Entry(firstId, accountId, amount, "Deposit", Credit, Category.Deposit),
      Entry(firstId + 1, accountId, DepositFee(amount), "Deposit fee", Debit, Fee) ]
  }

  function WithdrawBatch(firstId: nat, accountId: int, amount: int): seq<Entry>
  {
    [ Entry(firstId, accountId, amount, "Withdraw", Debit, Category.Withdraw),
      Entry(firstId + 1, accountId, WithdrawFixed, "Withdraw fee", Debit, Fee) ]
  }

  function TransferBatch(firstId: nat, sourceId: int, sourceName: string,
                         destinationId: int, destinationName: string, amount: int): seq<Entry>
  {
    [ Entry(firstId, sourceId, amount, "Transfer to " + destinationName, Debit, Category.Transfer),
      Entry(firstId + 1, sourceId, TransferFixed, "Transfer fee", Debit, Fee),
      Entry(firstId + 2, destinationId, amount, "Transfer from " + sourceName, Credit, Category.Transfer) ]
  }

  /** The log after the store cascades the deletion of an account to its entries. */
  function Without(log: seq<Entry>, accountId: int): (r: seq<Entry>)
    ensures |r| <= |log|
    ensures forall e :: e in r <==> e in log && e.accountId != accountId
  {
    if log == [] then []
    else if log[0].accountId == accountId then Without(log[1..], accountId)
    else [log[0]] + Without(log[1..], accountId)
  }

  // ---------------------------------------------------------------------------
  // What each batch does to the balances

  /** A deposit raises its account by the amount less the fee and leaves every other account alone. */
  lemma DepositEffect(log: seq<Entry>, firstId: nat, accountId: int, amount: int, other: int)
    ensures Balance(log + DepositBatch(firstId, accountId, amount), other)
         == Balance(log, other) + (if other == accountId then amount - DepositFee(amount) else 0)
  {
    var batch := DepositBatch(firstId, accountId, amount);
    BalanceAppend(log, batch, other);
    assert batch == [batch[0]] + ([batch[1]] + []);
    BalanceCons(batch[0], [batch[1]] + [], other);
    BalanceCons(batch[1], [], other);
  }

  /** `DepositEffect` for every account at once. */
  lemma DepositEffectEverywhere(log: seq<Entry>, batch: seq<Entry>, firstId: nat, accountId: int, amount: int)
    requires batch == DepositBatch(firstId, accountId, amount)
    ensures forall id :: Balance(log + batch, id)
              == Balance(log, id) + (if id == accountId then amount - DepositFee(amount) else 0)
  {
    forall id ensures Balance(log + batch, id)
                        == Balance(log, id) + (if id == accountId then amount - DepositFee(amount) else 0) {
      DepositEffect(log, firstId, accountId, amount, id);
    }
  }

  /** A positive deposit never lowers the balance. */
  lemma DepositNeverLowers(log: seq<Entry>, firstId: nat, accountId: int, amount: int)
    requires amount >= 1
    ensures Balance(log, accountId) <= Balance(log + DepositBatch(firstId, accountId, amount), accountId)
  {
    DepositEffect(log, firstId, accountId, amount, accountId);
    DepositFeeBounds(amount);
  }

  /** A withdrawal lowers its account by the amount and the fee and leaves every other account alone. */
  lemma WithdrawEffect(log: seq<Entry>, firstId: nat, accountId: int, amount: int, other: int)
    ensures Balance(log + WithdrawBatch(firstId, accountId, amount), other)
         == Balance(log, other) - (if other == accountId then amount + WithdrawFixed else 0)
  {
    var batch := WithdrawBatch(firstId, accountId, amount);
    BalanceAppend(log, batch, other);
    assert batch == [batch[0]] + ([batch[1]] + []);
    BalanceCons(batch[0], [batch[1]] + [], other);
    BalanceCons(batch[1], [], other);
  }

  /** `WithdrawEffect` for every account at once. */
  lemma WithdrawEffectEverywhere(log: seq<Entry>, batch: seq<Entry>, firstId: nat, accountId: int, amount: int)
    requires batch == WithdrawBatch(firstId, accountId, amount)
    ensures forall id :: Balance(log + batch, id)
              == Balance(log, id) - (if id == accountId then amount + WithdrawFixed else 0)
  {
    forall id ensures Balance(log + batch, id)
                        == Balance(log, id) - (if id == accountId then amount + WithdrawFixed else 0) {
      WithdrawEffect(log, firstId, accountId, amount, id);
    }
  }

  /** A withdrawal that passes the funds check leaves a balance that is not negative. */
  lemma WithdrawKeepsFunds(log: seq<Entry>, firstId: nat, accountId: int, amount: int)
    requires CanWithdraw(Balance(log, accountId), amount)
    ensures Balance(log + WithdrawBatch(firstId, accountId, amount), accountId) >= 0
  {
    WithdrawEffect(log, firstId, accountId, amount, accountId);
  }

  /** A transfer lowers the source by the amount and the fee, raises the destination by the amount. */
  lemma TransferEffect(log: seq<Entry>, firstId: nat, sourceId: int, sourceName: string,
                       destinationId: int, destinationName: string, amount: int, other: int)
    ensures Balance(log + TransferBatch(firstId, sourceId, sourceName, destinationId, destinationName, amount), other)
         == Balance(log, other)
            - (if other == sourceId then amount + TransferFixed else 0)
            + (if other == destinationId then amount else 0)
  {
    var batch := TransferBatch(firstId, sourceId, sourceName, destinationId, destinationName, amount);
    BalanceAppend(log, batch, other);
    assert batch == [batch[0]] + ([batch[1]] + ([batch[2]] + []));
    BalanceCons(batch[0], [batch[1]] + ([batch[2]] + []), other);
    BalanceCons(batch[1], [batch[2]] + [], other);
    BalanceCons(batch[2], [], other);
  }

  /** `TransferEffect` for every account at once. */
  lemma TransferEffectEverywhere(log: seq<Entry>, batch: seq<Entry>, firstId: nat, sourceId: int, sourceName: string,
                                 destinationId: int, destinationName: string, amount: int)
    requires batch == TransferBatch(firstId, sourceId, sourceName, destinationId, destinationName, amount)
    ensures forall id :: Balance(log + batch, id)
              == Balance(log, id)
                 - (if id == sourceId then amount + TransferFixed else 0)
                 + (if id == destinationId then amount else 0)
  {
    forall id ensures Balance(log + batch, id) == Balance(log, id)
                        - (if id == sourceId then amount + TransferFixed else 0)
                        + (if id == destinationId then amount else 0) {
      TransferEffect(log, firstId, sourceId, sourceName, destinationId, destinationName, amount, id);
    }
  }

  /** A transfer that passes the funds check leaves the source balance not negative. */
  lemma TransferKeepsFunds(log: seq<Entry>, firstId: nat, sourceId: int, sourceName: string,
                           destinationId: int, destinationName: string, amount: int)
    requires sourceId != destinationId
    requires CanTransfer(Balance(log, sourceId), amount)
    ensures Balance(log + TransferBatch(firstId, sourceId, sourceName, destinationId, destinationName, amount), sourceId) >= 0
  {
    TransferEffect(log, firstId, sourceId, sourceName, destinationId, destinationName, amount, sourceId);
  }

  /** The service does not refuse a transfer to the same account: it then only charges the fee. */
  lemma SelfTransferChargesFee(log: seq<Entry>, firstId: nat, accountId: int, name: string, amount: int)
    ensures Balance(log + TransferBatch(firstId, accountId, name, accountId, name, amount), accountId)
         == Balance(log, accountId) - TransferFixed
  {
    TransferEffect(log, firstId, accountId, name, accountId, name, amount, accountId);
  }

  /** Across all accounts together, a transfer creates no money and destroys only the fee. */
  lemma TransferConservesUpToFee(log: seq<Entry>, firstId: nat, sourceId: int, sourceName: string,
                                 destinationId: int, destinationName: string, amount: int)
    ensures Sum(log + TransferBatch(firstId, sourceId, sourceName, destinationId, destinationName, amount))
         == Sum(log) - TransferFixed
  {
    var batch := TransferBatch(firstId, sourceId, sourceName, destinationId, destinationName, amount);
    SumAppend(log, batch);
    assert batch[1..][1..][1..] == [];
    assert Sum(batch) == Signed(batch[0]) + Sum(batch[1..]);
    assert Sum(batch[1..]) == Signed(batch[1]) + Sum(batch[1..][1..]);
  }

  /** The cascade removes the deleted account's balance and keeps every other balance. */
  lemma {:induction false} WithoutEffect(log: seq<Entry>, accountId: int, other: int)
    ensures Balance(Without(log, accountId), other) == if other == accountId then 0 else Balance(log, other)
  {
    if log != [] {
      var w := Without(log[1..], accountId);
      WithoutEffect(log[1..], accountId, other);
      assert log == [log[0]] + log[1..];
      BalanceCons(log[0], log[1..], other);
      if log[0].accountId != accountId {
        BalanceCons(log[0], w, other);
      }
    }
  }

  // ---------------------------------------------------------------------------
  // Entry ids: every id in the log is below the counter and no two entries share one

  ghost predicate FreshIds(log: seq<Entry>, nextId: nat)
  {
    && (forall i :: 0 <= i < |log| ==> log[i].id < nextId)
    && (forall i, j :: 0 <= i < j < |log| ==> log[i].id != log[j].id)
  }

  /** Appending a batch numbered consecutively from the counter keeps ids fresh. */
  lemma AppendKeepsFreshIds(log: seq<Entry>, nextId: nat, batch: seq<Entry>)
    requires FreshIds(log, nextId)
    requires forall k :: 0 <= k < |batch| ==> batch[k].id == nextId + k
    ensures FreshIds(log + batch, nextId + |batch|)
  {
    var r := log + batch;
    forall i, j | 0 <= i < j < |r| ensures r[i].id != r[j].id {
      if j >= |log| {
        assert r[j] == batch[j - |log|];
        if i >= |log| { assert r[i] == batch[i - |log|]; }
      }
    }
  }

  /** The tail of a log with fresh ids has fresh ids, none equal to the head's. */
  lemma FreshIdsTail(log: seq<Entry>, nextId: nat)
    requires log != [] && FreshIds(log, nextId)
    ensures FreshIds(log[1..], nextId)
    ensures log[0].id < nextId
    ensures forall e :: e in log[1..] ==> e.id != log[0].id
  {
    var tail := log[1..];
    forall i, j | 0 <= i < j < |tail| ensures tail[i].id != tail[j].id {
      assert tail[i] == log[i + 1] && tail[j] == log[j + 1];
    }
    forall e | e in tail ensures e.id != log[0].id {
      var k :| 0 <= k < |tail| && tail[k] == e;
      assert log[k + 1] == e;
    }
  }

  /** An entry with a new id below the counter may be put in front of a log with fresh ids. */
  lemma FreshIdsCons(e: Entry, rest: seq<Entry>, nextId: nat)
    requires FreshIds(rest, nextId) && e.id < nextId
    requires forall x :: x in rest ==> x.id != e.id
    ensures FreshIds([e] + rest, nextId)
  {
    var r := [e] + rest;
    forall i, j | 0 <= i < j < |r| ensures r[i].id != r[j].id {
      assert r[j] == rest[j - 1];
      if i > 0 { assert r[i] == rest[i - 1]; }
    }
    forall i | 0 <= i < |r| ensures r[i].id < nextId {
      if i > 0 { assert r[i] == rest[i - 1]; }
    }
  }

  /** The cascade only removes entries, so ids stay fresh. */
  lemma {:induction false} WithoutKeepsFreshIds(log: seq<Entry>, nextId: nat, accountId: int)
    requires FreshIds(log, nextId)
    ensures FreshIds(Without(log, accountId), nextId)
  {
    if log != [] {
      FreshIdsTail(log, nextId);
      WithoutKeepsFreshIds(log[1..], nextId, accountId);
      if log[0].accountId != accountId {
        FreshIdsCons(log[0], Without(log[1..], accountId), nextId);
      }
    }
  }

  // ---------------------------------------------------------------------------
  // The service over its store

  /**
   * The service together with the in-memory store it works on: the accounts with
   * their holder names, the log of every committed entry, and the counter that
   * gives each new entry its id.
   */
  class Ledger {
    var holders: map<int, string>
    var log: seq<Entry>
    var nextId: nat

    ghost predicate Valid()
      reads this
    {
      FreshIds(log, nextId)
    }

    /** A ledger holding the given accounts and no entries. */
    constructor (accounts: map<int, string>)
      ensures Valid()
      ensures holders == accounts && log == [] && nextId == 0
    {
      holders := accounts;
      log := [];
      nextId := 0;
    }

    /** Builds one entry, giving it the next unused id. */
    method NewEntry(accountId: int, amount: int, description: string, txType: TxType, category: Category)
      returns (e: Entry)
      modifies this`nextId
      ensures e == Entry(old(nextId), accountId, amount, description, txType, category)
      ensures nextId == old(nextId) + 1
    {
      e := Entry(nextId, accountId, amount, description, txType, category);
      nextId := nextId + 1;
    }

    /** The store's "add transactions": the whole batch is appended in one step. */
    method AddTransactions(transactions: seq<Entry>)
      modifies this`log
      ensures log == old(log) + transactions
    {
      log := log + transactions;
    }

    method Deposit(accountId: int, amount: int) returns (ok: bool)
      requires Valid()
      modifies this
      ensures Valid()
      ensures holders == old(holders)
      ensures ok <==> accountId in old(holders)
      ensures ok ==> log == old(log) + DepositBatch(old(nextId), accountId, amount) && nextId == old(nextId) + 2
      ensures !ok ==> log == old(log) && nextId == old(nextId)
      ensures forall id :: Balance(log, id)
                == Balance(old(log), id) + (if ok && id == accountId then amount - DepositFee(amount) else 0)
    {
      var transactions: seq<Entry> := [];
      if accountId !in holders {
        return false;
      }
      var credit := NewEntry(accountId, amount, "Deposit", Credit, Category.Deposit);
      transactions := transactions + [credit];
      var fee := NewEntry(accountId, DepositFee(amount), "Deposit fee", Debit, Fee);
      transactions := transactions + [fee];
      assert transactions == DepositBatch(old(nextId), accountId, amount);
      AddTransactions(transactions);
      AppendKeepsFreshIds(old(log), old(nextId), transactions);
      DepositEffectEverywhere(old(log), transactions, old(nextId), accountId, amount);
      return true;
    }

    method Withdraw(accountId: int, amount: int) returns (ok: bool)
      requires Valid()
      modifies this
      ensures Valid()
      ensures holders == old(holders)
      ensures ok <==> accountId in old(holders) && CanWithdraw(Balance(old(log), accountId), amount)
      ensures ok ==> log == old(log) + WithdrawBatch(old(nextId), accountId, amount) && nextId == old(nextId) + 2
      ensures !ok ==> log == old(log) && nextId == old(nextId)
      ensures forall id :: Balance(log, id)
                == Balance(old(log), id) - (if ok && id == accountId then amount + WithdrawFixed else 0)
      ensures ok ==> Balance(log, accountId) >= 0
    {
      var transactions: seq<Entry> := [];
      if accountId !in holders {
        return false;
      }
      var totalAmount := amount + WithdrawFixed;
      if Balance(log, accountId) < totalAmount {
        return false;
      }
      var debit := NewEntry(accountId, amount, "Withdraw", Debit, Category.Withdraw);
      transactions := transactions + [debit];
      var fee := NewEntry(accountId, WithdrawFixed, "Withdraw fee", Debit, Fee);
      transactions := transactions + [fee];
      assert transactions == WithdrawBatch(old(nextId), accountId, amount);
      AddTransactions(transactions);
      AppendKeepsFreshIds(old(log), old(nextId), transactions);
      WithdrawEffectEverywhere(old(log), transactions, old(nextId), accountId, amount);
      WithdrawKeepsFunds(old(log), old(nextId), accountId, amount);
      return true;
    }

    method Transfer(sourceId: int, destinationId: int, amount: int) returns (ok: bool)
      requires Valid()
      modifies this
      ensures Valid()
      ensures holders == old(holders)
      ensures ok <==> sourceId in old(holders) && destinationId in old(holders)
                      && CanTransfer(Balance(old(log), sourceId), amount)
      ensures ok ==> log == old(log) + TransferBatch(old(nextId), sourceId, holders[sourceId],
                                                     destinationId, holders[destinationId], amount)
      ensures ok ==> nextId == old(nextId) + 3
      ensures !ok ==> log == old(log) && nextId == old(nextId)
      ensures forall id :: Balance(log, id)
                == Balance(old(log), id)
                   - (if ok && id == sourceId then amount + TransferFixed else 0)
                   + (if ok && id == destinationId then amount else 0)
    {
      if sourceId !in holders || destinationId !in holders {
        return false;
      }
      var sourceName, destinationName := holders[sourceId], holders[destinationId];
      var totalAmount := amount + TransferFixed;
      if Balance(log, sourceId) < totalAmount {
        return false;
      }
      var debit := NewEntry(sourceId, amount, "Transfer to " + destinationName, Debit, Category.Transfer);
      var fee := NewEntry(sourceId, TransferFixed, "Transfer fee", Debit, Fee);
      var credit := NewEntry(destinationId, amount, "Transfer from " + sourceName, Credit, Category.Transfer);
      var transactions := [debit, fee, credit];
      assert transactions == TransferBatch(old(nextId), sourceId, sourceName, destinationId, destinationName, amount);
      AddTransactions(transactions);
      AppendKeepsFreshIds(old(log), old(nextId), transactions);
      TransferEffectEverywhere(old(log), transactions, old(nextId), sourceId, sourceName,
                               destinationId, destinationName, amount);
      return true;
    }

    /**
     * Deletes an account whose balance is not positive. An absent account gives
     * `false`, never `null`; a negative balance does not block the deletion.
     */
    method DeleteAccount(accountId: int) returns (r: Option<bool>)
      requires Valid()
      modifies this
      ensures Valid()
      ensures r == Some(accountId in old(holders) && Balance(old(log), accountId) <= 0)
      ensures r == Some(true) ==> holders == old(holders) - {accountId} && log == Without(old(log), accountId)
      ensures r == Some(false) ==> holders == old(holders) && log == old(log)
      ensures nextId == old(nextId)
      ensures forall id :: id != accountId ==> Balance(log, id) == Balance(old(log), id)
    {
      if accountId !in holders {
        return Some(false);
      }
      if Balance(log, accountId) > 0 {
        return Some(false);
      }
      holders := holders - {accountId};
      WithoutKeepsFreshIds(log, nextId, accountId);
      forall id | id != accountId ensures Balance(Without(log, accountId), id) == Balance(log, id) {
        WithoutEffect(log, accountId, id);
      }
      log := Without(log, accountId);
      return Some(true);
    }

    /** Renames the holder of an existing account; absent accounts give `null`. */
    method UpdateAccount(accountId: int, holderName: string) returns (r: Option<bool>)
      requires Valid()
      modifies this`holders
      ensures Valid()
      ensures r == (if accountId in old(holders) then Some(true) else None)
      ensures log == old(log) && nextId == old(nextId)
      ensures holders == if accountId in old(holders) then old(holders)[accountId := holderName] else old(holders)
    {
      if accountId !in holders {
        return None;
      }
      holders := holders[accountId := holderName];
      return Some(true);
    }
  }
}
