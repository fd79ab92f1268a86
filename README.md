# Ledger posting model of BankAccountAPI

BankAccountAPI keeps accounts and a table of transactions. An account stores no
balance: its `CurrentBalance` is always derived from its transactions, with
credits counted positive and debits negative. A migration dropped the old
stored `CurrentBalance` column
(`BankAccountAPI/Migrations/20250620235545_RemoveCurrentBalanceColumn.cs:13-15`).
The account service posts money movements:

- A deposit posts the amount as a credit and a 1% fee, rounded up, as a debit.
- A withdrawal posts the amount and a fixed fee of 400 as two debits.
- A transfer posts the amount and a fixed fee of 100 as debits on the source,
  and the amount as a credit on the destination.

Each batch goes to the store in one call. The transactions endpoint rejects bad
requests before the service is called.

This project models that core in Dafny:

| module | file | models |
|---|---|---|
| `Wrappers` | `wrappers.dfy` | `Option`, the model of C#'s `bool?` |
| `Fees` | `fees.dfy` | `TransactionFees`: the three constants and the deposit-fee rule |
| `Entries` | `entries.dfy` | the `Transaction` record and its `TransactionType` / `TransactionCategory` enums, as an immutable datatype |
| `Accounts` | `accounts.dfy` | `Account.CurrentBalance` as a recursive fold `Sum`, and `Balance(log, id)` over the whole log |
| `Service` | `service.dfy` | `AccountService` as the class `Ledger`, over an in-memory store: `holders` (account id to holder name), `log` (every committed entry) and `nextId` (the id counter) |
| `Controller` | `controller.dfy` | `TransactionsController`: the request gate, the answer, and the endpoint composed with the service |
| `Overflow` | `overflow.dfy` | the funds checks in the source's 64-bit arithmetic (see Findings) |

Modelling choices:

- Amounts are unbounded integers. The `Overflow` module models the one place
  where the `long` width changes behaviour.
- `DepositPercentage` is `decimal` 0.01. It is modelled as the exact `real`
  0.01, and the fee is proved equal to the integer ceiling division
  `(amount + 99) / 100`.
- Entry ids come from a counter instead of `Guid.NewGuid()`. The ledger
  invariant `Valid()` says that every id is below the counter and that no two
  entries share an id.
- `AddTransactionsAsync` is one sequence append, so a batch is always
  committed whole.
- The relationship from account to transactions is required
  (`BankAccountAPI/Data/BankDbContext.cs:23-27`). Entity Framework's default
  for a required relationship is cascade delete. So deleting an account also
  removes that account's entries from the log. The model shows this with
  `Service.Without`, and proves that every other account's balance is unchanged.

Where the intended design and the code disagree, the model follows the code, with one exception: the 64-bit funds check, which `Service.Ledger` states in unbounded arithmetic. See `## Left out` and `## Findings`.

- The service does not check `amount > 0` or `source != destination`. Only the
  endpoint does. A same-account transfer that reaches the service costs that
  account exactly the 100 fee.
- Delete refuses only a positive balance. A negative balance does not block it.
- An absent account makes Delete return `false`, not `null`.
- Failures are booleans, not error kinds. The endpoint returns BadRequest for
  every failure.
- There is no concurrency guard.

## Model

| member | source | states |
|---|---|---|
| `Fees.Ceiling` | BankAccountAPI/Services/AccountService.cs:77 | `Math.Ceiling`: the result is the least integer not below its argument |
| `Fees.DepositFee` | BankAccountAPI/Services/AccountService.cs:77 | the fee `ceil(amount * 0.01)`, computed exactly, equals integer ceiling division `(amount + 99) / 100`, for every amount, negative included |
| `Fees.CeilingOfHundredth` | BankAccountAPI/Domain/Constants/TransactionFees.cs:5 | the only integer between `amount * 0.01` and that plus one is `(amount + 99) / 100` |
| `Fees.DepositFeeIsCeiling` | BankAccountAPI/Domain/Constants/TransactionFees.cs:5 | the fee is never below the exact 1% and exceeds it by less than one unit |
| `Fees.DepositFeeBounds` | BankAccountAPI/Services/AccountService.cs:75-81 | for every amount of at least 1, the fee is at least 1 and at most the amount |
| `Fees.DepositFeeExamples` | BankAccountAPI.Tests/Controllers/TransactionsControllerTests.cs:58-62 | the fees on 10000, 5000 and 200000 are 100, 50 and 2000 |
| `Accounts.Signed` | BankAccountAPI/Domain/Entities/Account.cs:18 | definition: a credit contributes its amount, a debit its negated amount |
| `Accounts.Sum` | BankAccountAPI/Domain/Entities/Account.cs:13-20 | definition of `CurrentBalance`: the fold of `Signed` over the entries; its meaning is stated by `SumIsCreditsMinusDebits`, `SumAppend` and `SumPermutation` |
| `Accounts.Balance` | BankAccountAPI/Domain/Entities/Account.cs:13-20 | definition: `CurrentBalance` of the account loaded with its entries, that is `Sum(EntriesOf(log, id))` |
| `Accounts.EntriesOf` | BankAccountAPI/Repositories/AccountRepository.cs:25-28 | an entry is among an account's transactions exactly when it is in the log and carries the account's id |
| `Accounts.EntriesOfCounts` | BankAccountAPI/Repositories/AccountRepository.cs:25-28 | each entry of the account occurs among its transactions exactly as often as in the log; entries of other accounts never |
| `Accounts.BalanceIgnoresLoadOrder` | BankAccountAPI/Repositories/AccountRepository.cs:27 | any list holding the account's entries, each as often as in the log, in any order, folds to the same balance; the balance does not depend on the order in which the transactions are loaded |
| `Accounts.SumIsCreditsMinusDebits` | BankAccountAPI/Domain/Entities/Account.cs:17-19 | the balance fold equals the total of credit amounts minus the total of debit amounts |
| `Accounts.SumAppend` | BankAccountAPI/Domain/Entities/Account.cs:17-19 | the fold is additive over concatenation |
| `Accounts.SumRemove` | BankAccountAPI/Domain/Entities/Account.cs:17-19 | removing one entry removes exactly its signed amount from the fold |
| `Accounts.SumPermutation` | BankAccountAPI/Domain/Entities/Account.cs:17-19 | two lists that are permutations of each other have the same balance |
| `Accounts.SumIgnoresCategory` | BankAccountAPI/Domain/Entities/Account.cs:18 | only amount and type matter: lists that agree on those, whatever their ids, descriptions and categories, have the same balance |
| `Accounts.EntriesOfAppend` | BankAccountAPI/Domain/Entities/Account.cs:10 | an account's entries in a concatenated log are its entries in each part, concatenated |
| `Accounts.BalanceCons` | BankAccountAPI/Domain/Entities/Account.cs:17-19 | an entry in front of the log adds its signed amount to its own account and nothing to the others |
| `Accounts.BalanceAppend` | BankAccountAPI/Domain/Entities/Account.cs:13-20 | appending a batch changes each account's balance by the batch's balance for that account |
| `Accounts.BalanceWithoutEntries` | BankAccountAPI/Domain/Entities/Account.cs:10-19 | an account with no entries in the log has balance 0 |
| `Service.CanWithdraw` | BankAccountAPI/Services/AccountService.cs:95-97 | definition: the withdrawal is covered when `balance >= amount + 400`, in unbounded arithmetic; equality passes |
| `Service.CanTransfer` | BankAccountAPI/Services/AccountService.cs:132-134 | definition: the transfer is covered when `sourceBalance >= amount + 100`, in unbounded arithmetic; equality passes |
| `Service.DepositBatch` | BankAccountAPI/Services/AccountService.cs:67-81 | definition: Credit `amount` (Deposit, "Deposit") then Debit `DepositFee(amount)` (Fee, "Deposit fee"), with consecutive ids |
| `Service.WithdrawBatch` | BankAccountAPI/Services/AccountService.cs:99-113 | definition: Debit `amount` (Withdraw, "Withdraw") then Debit 400 (Fee, "Withdraw fee"), with consecutive ids |
| `Service.TransferBatch` | BankAccountAPI/Services/AccountService.cs:136-159 | definition: Debit `amount` from the source ("Transfer to" the destination's holder), Debit 100 from the source (Fee), then Credit `amount` to the destination ("Transfer from" the source's holder) |
| `Service.Without` | BankAccountAPI/Data/BankDbContext.cs:23-27 | the cascade keeps exactly the entries of other accounts |
| `Service.DepositEffect` | BankAccountAPI/Services/AccountService.cs:67-83 | a deposit batch raises its account by `amount - DepositFee(amount)` and leaves every other balance unchanged |
| `Service.DepositNeverLowers` | BankAccountAPI/Services/AccountService.cs:67-83 | a deposit of at least 1 never lowers its account's balance |
| `Service.WithdrawEffect` | BankAccountAPI/Services/AccountService.cs:99-115 | a withdrawal batch lowers its account by `amount + 400` and leaves every other balance unchanged |
| `Service.WithdrawKeepsFunds` | BankAccountAPI/Services/AccountService.cs:95-115 | after a withdrawal that passes the funds check, the balance is not negative |
| `Service.TransferEffect` | BankAccountAPI/Services/AccountService.cs:136-161 | a transfer batch lowers the source by `amount + 100`, raises the destination by `amount`, and leaves every other balance unchanged |
| `Service.TransferKeepsFunds` | BankAccountAPI/Services/AccountService.cs:132-161 | after a transfer between two accounts that passes the funds check, the source balance is not negative |
| `Service.SelfTransferChargesFee` | BankAccountAPI/Services/AccountService.cs:120-163 | when source and destination are the same account, its net change is `-100` |
| `Service.TransferConservesUpToFee` | BankAccountAPI/Services/AccountService.cs:136-161 | summed over all accounts, a transfer destroys exactly the fee and creates nothing |
| `Service.WithoutEffect` | BankAccountAPI/Data/BankDbContext.cs:23-27 | after the cascade, the deleted account reads 0 and every other account's balance is unchanged |
| `Service.AppendKeepsFreshIds` | BankAccountAPI/Domain/Entities/Transaction.cs:16 | a batch numbered from the counter keeps every id in the log distinct and below the counter |
| `Service.WithoutKeepsFreshIds` | BankAccountAPI/Domain/Entities/Transaction.cs:16 | removing entries keeps the ids distinct |
| `Service.Ledger.constructor` | BankAccountAPI/Data/BankDbContext.cs:10-11 | a store that holds the given accounts, no entries, and an unused id counter; the id invariant holds |
| `Service.Ledger.NewEntry` | BankAccountAPI/Domain/Entities/Transaction.cs:14-22 | the new entry stores account, amount, description, type and category exactly as given; its id is the counter's next value |
| `Service.Ledger.AddTransactions` | BankAccountAPI/Repositories/TransactionRepository.cs:11-15 | the whole batch is appended to the log in one step |
| `Service.Ledger.Deposit` | BankAccountAPI/Services/AccountService.cs:60-86 | succeeds exactly when the account exists. On success it appends Credit `amount` (Deposit) then Debit `DepositFee(amount)` (Fee), and only that account changes, by `amount - fee`. On failure nothing is appended |
| `Service.Ledger.Withdraw` | BankAccountAPI/Services/AccountService.cs:88-118 | succeeds exactly when the account exists and `balance >= amount + 400`; equality succeeds. On success it appends Debit `amount` (Withdraw) then Debit 400 (Fee), the balance falls by `amount + 400` and stays non-negative. On failure nothing changes |
| `Service.Ledger.Transfer` | BankAccountAPI/Services/AccountService.cs:120-164 | succeeds exactly when both accounts exist and `sourceBalance >= amount + 100`. On success it appends the three entries in order. The source falls by `amount + 100`, the destination rises by `amount`, and every other balance is unchanged. On failure nothing is appended |
| `Service.Ledger.DeleteAccount` | BankAccountAPI/Services/AccountService.cs:42-55 | returns `false`, never null, for an absent account or a positive balance. Otherwise it removes the account and its entries and returns `true`. Other balances are unchanged |
| `Service.Ledger.UpdateAccount` | BankAccountAPI/Services/AccountService.cs:29-41 | returns null for an absent account. Otherwise it returns `true` and changes only that holder name; the log and every balance are unchanged |
| `Controller.Gate` | BankAccountAPI/Controllers/TransactionsController.cs:62-69 | a request passes exactly when its amount is positive and it is not a same-account transfer. The amount is checked first. A positive same-account transfer is refused as SameAccount |
| `Controller.Respond` | BankAccountAPI/Controllers/TransactionsController.cs:23-28 | definition: the gate's rejection if there is one, otherwise Ok when the service returned true and BadRequest when it returned false; the same branch stands at lines 46-51 and 72-77 |
| `Controller.Accepted` | BankAccountAPI/Services/AccountService.cs:60-164 | definition: what the service returns for a request, read off the state before the call; `Controller.Handle` proves it equal to the return values of the three posting methods |
| `Controller.Posted` | BankAccountAPI/Services/AccountService.cs:60-164 | definition: the batch the service appends for an accepted request |
| `Controller.Delta` | BankAccountAPI/Services/AccountService.cs:60-164 | definition: the change an accepted request makes to each balance |
| `Controller.PostedEffect` | BankAccountAPI/Services/AccountService.cs:60-164 | the posted batch changes every balance by exactly `Delta` |
| `Controller.RespondOkIff` | BankAccountAPI/Controllers/TransactionsController.cs:14-83 | the answer is Ok exactly when the gate passes and the service returns true |
| `Controller.RefusalIgnoresService` | BankAccountAPI/Controllers/TransactionsController.cs:16-19 | a refused request gets its BadRequest whatever the service would return, so the service is not consulted |
| `Controller.Handle` | BankAccountAPI/Controllers/TransactionsController.cs:13-83 | the endpoint over the ledger. A request the gate refuses leaves the ledger untouched, and any answer other than Ok leaves the log unchanged. On Ok, the log grows by exactly the batch for the request, and every balance changes by exactly `Delta`. The answer equals `Respond` applied to whether the service succeeded |
| `Controller.DepositEndToEnd` | BankAccountAPI/Controllers/TransactionsController.cs:14-34 | a deposit request succeeds exactly when the amount is positive and the account exists |
| `Controller.WithdrawEndToEnd` | BankAccountAPI/Controllers/TransactionsController.cs:37-57 | a withdraw request succeeds exactly when the amount is positive, the account exists and `balance >= amount + 400` |
| `Controller.TransferEndToEnd` | BankAccountAPI/Controllers/TransactionsController.cs:60-83 | a transfer request succeeds exactly when the amount is positive, the accounts differ and exist, and `sourceBalance >= amount + 100` |
| `Controller.WithdrawFrom5000` | BankAccountAPI.Tests/Controllers/TransactionsControllerTests.cs:149-229 | from balance 5000, withdrawing 4601 is refused; withdrawing 4600 succeeds and leaves 0 |
| `Controller.TransferFrom500` | BankAccountAPI.Tests/Controllers/TransactionsControllerTests.cs:328-363 | from balance 500, transferring 401 is refused; transferring 400 succeeds, leaves the source at 0 and adds 400 to the destination |
| `Controller.WithdrawScenario` | BankAccountAPI.Tests/Controllers/TransactionsControllerTests.cs:178-229 | through the endpoint, from balance 5000: withdrawing 4601 gets BadRequest (the tests' case), then withdrawing 4600 gets Ok and leaves balance 0 (the boundary that the funds check's `>=` lets pass, as in the tests' 10000/9600 case) |
| `Controller.TransferScenario` | BankAccountAPI.Tests/Controllers/TransactionsControllerTests.cs:328-363 | through the endpoint, from source balance 500: transferring 401 gets BadRequest (the tests' case), then transferring 400 gets Ok (the boundary that the funds check's `>=` lets pass). The source then ends at 0 and the destination gains 400 |
| `Controller.GateExamples` | BankAccountAPI.Tests/Controllers/TransactionsControllerTests.cs:28-35 | zero-amount requests and a same-account transfer get BadRequest with their own reason |
| `Overflow.Wrap` | BankAccountAPI/Services/AccountService.cs:95 | two's-complement wrap into the `long` range: the identity inside the range, minus `2^64` just above it |
| `Overflow.WithdrawPassesAsWritten` | BankAccountAPI/Services/AccountService.cs:95-97 | definition: the check as written, `!(balance < totalAmount)` with `totalAmount` the wrapped 64-bit `amount + 400` |
| `Overflow.TransferPassesAsWritten` | BankAccountAPI/Services/AccountService.cs:132-134 | definition: the check as written, `!(sourceBalance < totalAmount)` with `totalAmount` the wrapped 64-bit `amount + 100` |
| `Overflow.WithdrawCheckAgreesBelowOverflow` | BankAccountAPI/Services/AccountService.cs:95-97 | when `amount + 400` fits a `long`, the 64-bit check is the intended one |
| `Overflow.WithdrawCheckWrapsNearMax` | BankAccountAPI/Services/AccountService.cs:95-97 | when `amount + 400` overflows, the 64-bit check passes for every non-negative balance, though the balance cannot cover the amount |
| `Overflow.TransferCheckAgreesBelowOverflow` | BankAccountAPI/Services/AccountService.cs:132-134 | when `amount + 100` fits a `long`, the 64-bit check is the intended one |
| `Overflow.TransferCheckWrapsNearMax` | BankAccountAPI/Services/AccountService.cs:132-134 | when `amount + 100` overflows, the 64-bit check passes for every non-negative source balance |
| `Overflow.WithdrawMaxLongOverdraws` | BankAccountAPI/Services/AccountService.cs:95-117 | a withdrawal of `long.MaxValue` from an empty account passes the endpoint and the 64-bit check, and its batch overdraws the account |
| `Overflow.TransferMaxLongOverdraws` | BankAccountAPI/Services/AccountService.cs:132-161 | a transfer of `long.MaxValue` out of an empty account passes the endpoint and the 64-bit check, and its batch overdraws the source |

## Left out

- Service.Ledger.Withdraw, Service.Ledger.Transfer: they compute `amount + fee` in unbounded arithmetic, which is the intended check. They agree with the source's 64-bit check only when `amount + fee` fits a `long` (`Overflow.WithdrawCheckAgreesBelowOverflow`, `Overflow.TransferCheckAgreesBelowOverflow`). For larger amounts the source passes where these methods refuse (`Overflow.WithdrawCheckWrapsNearMax`, `Overflow.TransferCheckWrapsNearMax`).
- Concurrency: `Task.WhenAll` in `TransferAsync`, and the check-then-act race between reading a balance and appending. The source has no lock, so each operation is one atomic step here and no concurrency guard is modelled.
- Entity Framework plumbing: `BankDbContext`, the repositories and the migrations. They are replaced by the `holders` map and the `log` sequence. Storage failures and the endpoint's `catch` blocks, which turn an exception into BadRequest, are not modelled.
- `Transaction.Date` (`DateTime.Now`) and the statement's newest-first order (`GetStatementAsync`, `OrderByDescending(t => t.Date)`): wall-clock time is not modelled.
- `GetAccountAsync`, `GetAllAccountsAsync` and `CreateAccountAsync` only read or insert rows through the repository, so they are not modelled. A `Ledger` starts from a given set of accounts and an empty log.
- `AccountsController`, HTTP result types and message strings. Outcomes are the `Outcome` datatype, with one `Rejection` per message of the transactions endpoint. `AccountsController` maps a `false` from Delete to "balance must be zero", so its "not found" branch for Delete can never be taken; that controller is not part of this model.
- Checked overflow of `Enumerable.Sum` over `long`: the fold is unbounded here, so the `OverflowException` a huge balance would raise is not modelled.
- Descriptions and holder names are kept as opaque strings.

## Findings

| source | as written | input that shows it | evidently intended | confidence | as-written member | corrected member |
|---|---|---|---|---|---|---|
| BankAccountAPI/Services/AccountService.cs:95-97 | `long totalAmount = amount + WithdrawFixed` is computed without overflow checking, then the code refuses when `CurrentBalance < totalAmount` | a withdrawal of `long.MaxValue` from an account with balance 0: the total wraps to `long.MinValue + 399`, the check passes, and 2^63 + 399 is debited | refuse whenever the balance cannot cover `amount + 400` | medium, not executed; depends on the project's overflow-checking setting, which is not part of this model | `Overflow.WithdrawMaxLongOverdraws` | `Service.WithdrawKeepsFunds` |
| BankAccountAPI/Services/AccountService.cs:132-134 | `long totalAmount = amount + TransferFixed` is unchecked in the same way | a transfer of `long.MaxValue` out of a source with balance 0: the total wraps negative, the check passes, and the source is overdrawn | refuse whenever the source balance cannot cover `amount + 100` | medium, not executed; same dependency | `Overflow.TransferMaxLongOverdraws` | `Service.TransferKeepsFunds` |
