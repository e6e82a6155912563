/** Properties that span several service calls, from the source's use and
    cancel flow and its service tests. */
module Scenarios {
  import opened Wrappers
  import opened ErrorCodes
  import opened Domain
  import opened Store
  import opened AccountService
  import opened TransactionService

  /** A successful use can be cancelled at once with the same amount, and the
      pair leaves the account's balance where it was, with two more records. */
  method UseThenCancel(l: Ledger, userId: UserId, accountNumber: string, amount: int,
                       useId: string, cancelId: string, now: Time)
    returns (used: Result<Transaction, ErrorCode>, cancelled: Option<Result<Transaction, ErrorCode>>)
    requires l.Valid()
    requires FindTransaction(l.transactions, useId).None?
    requires FindTransaction(l.transactions, cancelId).None?
    requires useId != cancelId
    modifies l`transactions, WithNumber(l.accounts, accountNumber)`balance
    ensures l.Valid()
    ensures used.Err? ==> cancelled.None? && l.transactions == old(l.transactions)
    ensures used.Err? ==> unchanged(WithNumber(l.accounts, accountNumber))
    ensures used.Ok? ==> FindAccountByNumber(l.accounts, accountNumber).Some?
    ensures used.Ok? && FindAccountByNumber(l.accounts, accountNumber).Some? ==>
      var a := l.accounts[FindAccountByNumber(l.accounts, accountNumber).value];
      && cancelled.Some? && cancelled.value.Ok?
      && a.balance == old(a.balance)
      && cancelled.value.value.balanceSnapshot == old(a.balance)
      && l.transactions == old(l.transactions) + [used.value, cancelled.value.value]
  {
    ghost var k := FindAccountByNumber(l.accounts, accountNumber);
    ghost var before := if k.Some? then l.accounts[k.value].balance else 0;
    used := UseBalance(l, userId, accountNumber, amount, useId, now);
    if used.Err? {
      return used, None;
    }
    ghost var mid := l.transactions;
    FindsAppended(old(l.transactions), used.value);
    var c := CancelBalance(l, useId, accountNumber, amount, cancelId, now);
    assert c.Ok? && l.accounts[k.value].balance == before;
    assert l.transactions == mid + [c.value];
    assert mid + [c.value] == old(l.transactions) + [used.value, c.value];
    cancelled := Some(c);
  }

  /** A fresh store whose only user, 7, has opened one account. */
  method OpenOne(initialBalance: int) returns (l: Ledger, a: Account)
    ensures fresh(l) && fresh(a) && l.Valid()
    ensures l.users == {7} && l.accounts == [a] && l.transactions == []
    ensures a.id == 1 && a.owner == 7 && a.accountNumber == FirstAccountNumber
    ensures a.accountStatus == InUse && a.balance == initialBalance
  {
    l := new Ledger({7});
    var created := CreateAccount(l, 7, initialBalance, 0);
    a := created.value;
  }

  /** Open an account with 10000, use 4000, cancel that use. */
  method OpenUseCancel() returns (number: string, use: Transaction, cancel: Transaction)
    ensures number == FirstAccountNumber
    ensures use == Transaction("use-1", Use, S, 1, 4000, 6000, 0)
    ensures cancel == Transaction("cancel-1", Cancel, S, 1, 4000, 10000, 0)
  {
    var l, a := OpenOne(10000);
    number := a.accountNumber;
    var used := UseBalance(l, 7, number, 4000, "use-1", 0);
    use := used.value;
    var cancelled := CancelBalance(l, "use-1", number, 4000, "cancel-1", 0);
    cancel := cancelled.value;
  }

  /** The cancel path does not look at the account's status: an account that
      was emptied and closed takes the credit and is left unregistered with a
      positive balance. */
  method CancelAfterClose() returns (closed: Account)
    ensures closed.accountStatus == Unregistered && closed.balance == 100
  {
    var l;
    l, closed := OpenOne(100);
    var used := UseBalance(l, 7, closed.accountNumber, 100, "use-1", 0);
    assert used.Ok? && closed.balance == 0;
    assert l.accounts == [closed] && l.transactions == [used.value];
    var deleted := DeleteAccount(l, 7, closed.accountNumber, 1);
    assert deleted.Ok? && closed.accountStatus == Unregistered;
    assert FindTransaction(l.transactions, "use-1") == Some(0);
    var cancelled := CancelBalance(l, "use-1", closed.accountNumber, 100, "cancel-1", 2);
    assert cancelled.Ok?;
  }

  /** The original record's type and result are not checked either: a failed
      use, which debited nothing, can be cancelled and credits the account. An
      account opened with 100 ends at 150 after cancelling a failed use of 50. */
  method CancelFailedUse() returns (a: Account)
    ensures a.balance == 150
  {
    var l;
    l, a := OpenOne(100);
    var failed := SaveFailedUseTransaction(l, a.accountNumber, 50, "failed-1", 0);
    assert failed.Pass? && a.balance == 100;
    assert FindTransaction(l.transactions, "failed-1") == Some(0);
    var cancelled := CancelBalance(l, "failed-1", a.accountNumber, 50, "cancel-1", 0);
    assert cancelled.Ok?;
  }

  /** Nothing marks a record as already cancelled: the same use can be
      cancelled twice, crediting the account each time. */
  method CancelTwice() returns (a: Account)
    ensures a.balance == 200
  {
    var l;
    l, a := OpenOne(100);
    var used := UseBalance(l, 7, a.accountNumber, 100, "use-1", 0);
    assert used.Ok? && a.balance == 0;
    assert l.accounts == [a] && l.transactions == [used.value];
    var first := CancelBalance(l, "use-1", a.accountNumber, 100, "cancel-1", 1);
    assert first.Ok? && a.balance == 100;
    assert FindTransaction(l.transactions, "use-1") == Some(0);
    var second := CancelBalance(l, "use-1", a.accountNumber, 100, "cancel-2", 2);
    assert second.Ok?;
  }
}
