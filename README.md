# Account ledger — a Dafny model

This project models the core of a small bank-account service: the two service
classes `AccountService` and `TransactionService`. Together they open and
close user-owned accounts, allocate account numbers, debit balances ("use"),
credit them back ("cancel") and keep an append-only log of transaction records.

Layout, one module per source component:

- `wrappers.dfy` (`Wrappers`): `Option`, `Result` (`Ok`/`Err`: a return value or a
  thrown `AccountException`), `Outcome` (`Pass`/`Fail`: a `void` method or a
  validation that throws).
- `error_code.dfy` (`ErrorCodes`): the `ErrorCode` enum.
- `decimal.dfy` (`Decimal`): account numbers as decimal strings. `Render` plays
  `int + ""` and `Parse` plays `Integer.parseInt`; their round trip is proved.
- `domain.dfy` (`Domain`): the entities. `Account` is a class because the
  services change its balance, status and unregistration time in place.
  `Transaction` is an immutable record.
- `store.dfy` (`Store`): the `Ledger` store. It holds the user ids, the accounts
  in insertion (id) order and the transaction log. It also has the repository
  queries the services use, and the invariant `Valid()` that every operation
  keeps, starting from an empty store.
- `account_service.dfy` (`AccountService`), `transaction_service.dfy`
  (`TransactionService`): each public service method is one method that changes
  the `Ledger`. It is proved against pure validation functions whose contracts
  state the check order (first failure wins).
- `scenarios.dfy` (`Scenarios`): properties that span several calls.

`Valid()` states, for every reachable store:
- account ids are 1, 2, 3, … in insertion order;
- account numbers are decimal strings whose values strictly increase with the
  id, so they are unique;
- no user owns more than 10 accounts;
- an account is `Unregistered` exactly when it has an unregistration time;
- every record refers to an existing account;
- transaction ids are unique.

"No balance is negative" is kept as a separate predicate, `BalancesNonNegative`.
The services accept a negative initial balance and negative amounts. So each
operation is proved to keep it only where the inputs allow that.

Behaviour of the code that its names do not suggest. The model follows the
code:
- The account ceiling test is `count == 10`, not `count >= 10`. Under `Valid()`
  (at most 10) the two agree.
- Allocation reads the account with the highest id, not the highest number.
  Under `Valid()` that account also has the highest number.
- `cancelBalance` does not check the account's status. It also does not check
  the original record's type or result. So a closed account can be credited and
  become positive again: `Scenarios.CancelAfterClose` shows it.
- `cancelBalance` does not check whether a use was already cancelled. So the
  same use can be cancelled again and again: `Scenarios.CancelTwice` uses 100
  of 100 and cancels it twice, ending at balance 200.
- Because the original record's result is not checked, a failed use (`USE`/`F`,
  written by `saveFailedUseTransaction`) can be cancelled, and that credits money
  that was never debited. `Scenarios.CancelFailedUse` opens an account with 100,
  records a failed use of 50, cancels it, and ends at balance 150.
- `deleteAccount` rejects only `balance > 0`, so an account with a negative balance
  can be closed.
- `getAccount` fails with `RuntimeException("Minus")` for a negative id, not with
  an `ErrorCode`. An unknown id makes `Optional.get` throw `NoSuchElementException`.
  Both are modelled as `GetAccountError`.
- `TransactionService.java` names `TRANSACTION_UN_MATCH_ACCOUT` and `ErrorCode.java`
  declares `TRANSACTION_UN_MATCH_ACCOUNT`. Both are the single variant
  `TransactionUnMatchAccount`.

## Model

| member | source | states |
|---|---|---|
| Decimal.Render | src/main/java/com/example/account/service/AccountService.java:41 | the rendering of a number is a non-empty digit string with no leading zero |
| Decimal.Parse | src/main/java/com/example/account/service/AccountService.java:41 | parsing a digit string without a leading zero gives a value of at least 1 |
| Decimal.RenderParse | src/main/java/com/example/account/service/AccountService.java:40-42 | rendering the parse of a digit string without a leading zero gives the string back, so Render and Parse are inverse on stored numbers |
| Decimal.ParseRender | src/main/java/com/example/account/service/AccountService.java:40-42 | parsing the rendering of any natural gives it back |
| Decimal.RenderInjective | src/main/java/com/example/account/service/AccountService.java:40-42 | distinct numbers render to distinct account-number strings |
| AccountService.NextAccountNumber | src/main/java/com/example/account/service/AccountService.java:40-42 | the new number is "1000000000" on an empty store, else a decimal string with no leading zero whose value is the last-created account's number plus one |
| AccountService.NextAfterExample | src/main/java/com/example/account/service/AccountService.java:40-42 | after "1000000012" the next number is "1000000013" |
| AccountService.ValidateCreateAccount | src/main/java/com/example/account/service/AccountService.java:55-59 | fails with MAX_ACCOUNT_PER_USER_10 exactly when the user owns exactly 10 accounts, closed ones included |
| AccountService.CreateAccount | src/main/java/com/example/account/service/AccountService.java:33-53 | USER_NOT_FOUND iff the user is unknown; MAX_ACCOUNT_PER_USER_10 iff the user owns 10; on failure nothing changes; on success exactly one fresh IN_USE account is appended, with the allocated number, the owner, the initial balance and registeredAt = now; its number is greater than every earlier one; the store invariant (ceiling, unique increasing numbers) is kept |
| AccountService.GetAccount | src/main/java/com/example/account/service/AccountService.java:61-67 | a negative id fails with "Minus" before any lookup; otherwise it returns the account with that id, or NoSuchElement when no account has it |
| AccountService.ValidateDeleteAccount | src/main/java/com/example/account/service/AccountService.java:88-100 | first failure wins: USER_ACCOUNT_UN_MATCH iff another owner; ACCOUNT_ALREADY_UNREGISTERED iff owner matches and closed; BALANCE_NOT_EMPTY iff owner matches, open and balance > 0; passes iff none applies |
| AccountService.DeleteAccount | src/main/java/com/example/account/service/AccountService.java:69-86 | USER_NOT_FOUND, then ACCOUNT_NOT_FOUND, then the validation's error; a failure changes nothing; success sets UNREGISTERED and unregisteredAt = now and leaves balance, number and owner alone, so the balance is at most 0 (0 when no balance is negative) |
| Store.FindAccountByNumber | src/main/java/com/example/account/service/AccountService.java:74-75 | finds the first account with the number, or reports that none has it |
| Store.FindsOwnNumber | src/main/java/com/example/account/service/AccountService.java:40-42 | with increasing numbers, the lookup by an account's number finds exactly that account (numbers are unique) |
| Store.CountOwnedBy | src/main/java/com/example/account/service/AccountService.java:56 | the number of accounts the user owns, closed ones included, is at most the number of accounts |
| Store.CountOwnedByZero | src/main/java/com/example/account/service/AccountService.java:56 | the count is 0 exactly when the user owns none of the accounts |
| Store.CeilingBoundsEveryUser | src/main/java/com/example/account/service/AccountService.java:55-59 | when no owner of a stored account holds more than 10, no user at all does, since users without accounts count 0 |
| Store.CountOwnedByAppend | src/main/java/com/example/account/service/AccountService.java:56 | inserting an account raises its owner's account count by one and leaves every other user's count alone |
| Store.LastCreatedNumber | src/main/java/com/example/account/service/AccountService.java:40 | gives the number of the account with the largest id, and nothing exactly when the store is empty |
| Store.AppendKeepsIncreasing | src/main/java/com/example/account/service/AccountService.java:40-42 | appending an account whose number is above the last one keeps every number a digit string and the numbers strictly increasing |
| Store.Ledger.Insert | src/main/java/com/example/account/service/AccountService.java:44-52 | saving a new row that takes the next id, belongs to a known user under the ceiling, is IN_USE and has a number above the last one appends exactly that row and keeps the store invariant |
| Store.FindTransaction | src/main/java/com/example/account/service/TransactionService.java:98-99 | finds the first record with the transaction id, or reports that none has it |
| Store.FindsAppended | src/main/java/com/example/account/service/TransactionService.java:83-92 | a record saved under a fresh id is found under that id, at the end of the log |
| Domain.Account.constructor | src/main/java/com/example/account/service/AccountService.java:45-51 | builds an account row with the given fields and no unregistration time |
| Domain.Account.UseBalance | src/main/java/com/example/account/service/TransactionService.java:51 | the balance drops by exactly the amount |
| Domain.Account.CancelBalance | src/main/java/com/example/account/service/TransactionService.java:108 | the balance rises by exactly the amount |
| TransactionService.TooOldPersists | src/main/java/com/example/account/service/TransactionService.java:124 | a record that is too old at some time is too old at every later time, so a cancel refused for age never becomes possible by waiting |
| TransactionService.AgeBoundary | src/main/java/com/example/account/service/TransactionService.java:115-127 | for a record of the account with the use's amount, one exactly one year old passes ValidateCancelBalance; one a day older fails with TOO_OLD_TRANSACTION |
| TransactionService.ValidateUseBalance | src/main/java/com/example/account/service/TransactionService.java:56-68 | first failure wins: USER_ACCOUNT_UN_MATCH iff another owner; ACCOUNT_ALREADY_UNREGISTERED iff owner matches and closed; BALANCE_IS_SMALLER_THAN_AMOUNT iff owner matches, open and balance < amount; passes iff none applies |
| TransactionService.ValidateCancelBalance | src/main/java/com/example/account/service/TransactionService.java:115-127 | first failure wins: TRANSACTION_UN_MATCH_ACCOUNT iff the record belongs to another account; CANCEL_AMOUNT_UN_MATCH_USE_AMOUNT iff the amounts differ; TOO_OLD_TRANSACTION iff transactedAt < now - 1 year (strict); passes iff none applies |
| TransactionService.SaveAndGetTransaction | src/main/java/com/example/account/service/TransactionService.java:78-93 | appends exactly one record with the given type, result and amount, the account's id, its current balance as snapshot, the fresh id and now; earlier records are untouched |
| TransactionService.UseBalance | src/main/java/com/example/account/service/TransactionService.java:38-54 | USER_NOT_FOUND, then ACCOUNT_NOT_FOUND, then the validation's error; a failure changes no balance and appends no record; success needs balance >= amount, lowers that account's balance by exactly amount (never below 0) and appends one USE/S record whose snapshot is the new balance |
| TransactionService.SaveFailedUseTransaction | src/main/java/com/example/account/service/TransactionService.java:70-76 | fails only with ACCOUNT_NOT_FOUND, appending nothing; otherwise appends exactly one USE/F record whose snapshot is the unchanged balance |
| TransactionService.CancelBalance | src/main/java/com/example/account/service/TransactionService.java:95-113 | TRANSACTION_NOT_FOUND, then ACCOUNT_NOT_FOUND, then the validation's error; a failure changes no balance and appends no record; success raises the balance by exactly amount and appends one CANCEL/S record whose snapshot is the new balance |
| TransactionService.SaveFailedCancelTransaction | src/main/java/com/example/account/service/TransactionService.java:129-135 | fails only with ACCOUNT_NOT_FOUND, appending nothing; otherwise appends exactly one CANCEL/F record whose snapshot is the unchanged balance |
| Scenarios.UseThenCancel | src/main/java/com/example/account/service/TransactionService.java:38-127 | a successful use can be cancelled at once with the same amount; together they restore the balance and append exactly those two records |
| Scenarios.OpenUseCancel | src/test/java/com/example/account/service/TransactionServiceTest.java:77-82 | on a fresh store: the first account gets "1000000000"; using 4000 of 10000 records USE/S with snapshot 6000; cancelling it records CANCEL/S with snapshot 10000 |
| Scenarios.CancelFailedUse | src/main/java/com/example/account/service/TransactionService.java:70-127 | a failed use, which debits nothing, can still be cancelled: an account opened with 100 ends at 150 after cancelling a failed use of 50 |
| Scenarios.CancelTwice | src/main/java/com/example/account/service/TransactionService.java:95-127 | cancelling the same use twice succeeds both times: an account opened with 100, emptied by a use of 100, ends at balance 200 |
| Scenarios.CancelAfterClose | src/main/java/com/example/account/service/TransactionService.java:115-127 | an account emptied by a use and then closed takes the cancel's credit: it stays UNREGISTERED with balance 100 |

## Left out

- Spring and JPA wiring: `@Transactional`, the repositories, entity auditing. The store is the `Ledger` class, and each public service method is one atomic step.
- Concurrency: two allocations racing for the same number, and two debits racing on one balance. The model is sequential.
- `UUID.randomUUID()` and `LocalDateTime.now()` become parameters. Each method that saves a record requires that its transaction id is not already in the log. That is what the random UUID is relied on for.
- `minusYears(1)` is calendar arithmetic. Here time is a count of days and one year is a fixed 365 days.
- `Integer.parseInt` and Java `int`/`long` widths: account numbers, balances and amounts are unbounded integers. There is no `NumberFormatException` past 2147483647 and no overflow.
- AccountService.NextAccountNumber: requires the previous number to be a digit string, because malformed numbers (which `parseInt` would reject) never reach the store.
- DTO projections (`AccountDto`, `TransactionDto`, `AccountInfo`): the services return the account object or the saved record instead.
- The descriptions carried by `ErrorCode`.
- Creating users, which happens outside these services: the `Ledger` constructor takes the set of existing user ids.
- Store-assigned ids: the model assigns 1, 2, 3, … in insertion order.
- `domain/Account.java` is not part of this model. Its `useBalance` and `cancelBalance` are taken to be a plain subtraction and addition.
- The controllers and the database-backed `getAccount` tests.
