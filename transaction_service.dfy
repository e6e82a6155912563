/** Transaction processing (service/TransactionService.java): debits ("use"),
    compensating credits ("cancel"), and the records of failed attempts. */
module TransactionService {
  import opened Wrappers
  import opened ErrorCodes
  import opened Domain
  import opened Store

  /** `minusYears(1)`, as a fixed number of days. */
  const OneYear: int := 365

  /** `transactedAt.isBefore(now.minusYears(1))`: strictly older than a year. */
  predicate TooOld(transactedAt: Time, now: Time)
  {
    transactedAt < now - OneYear
  }

  /** A record that is too old stays too old: a cancel refused for its age
      never becomes possible by waiting. */
  lemma TooOldPersists(transactedAt: Time, now: Time, later: Time)
    requires TooOld(transactedAt, now) && now <= later
    ensures TooOld(transactedAt, later)
  {
  }

  /** Among records of the right account and amount, one exactly a year old
      may still be cancelled; one a day older is refused as too old. */
  lemma AgeBoundary(t: Transaction, a: Account, now: Time)
    requires t.accountId == a.id
    ensures ValidateCancelBalance(t.(transactedAt := now - OneYear), a, t.amount, now) == Pass
    ensures ValidateCancelBalance(t.(transactedAt := now - OneYear - 1), a, t.amount, now)
         == Fail(TooOldTransaction)
  {
  }

  /** `validateUseBalance`: owner, then in use, then enough funds. */
  function ValidateUseBalance(userId: UserId, a: Account, amount: int): (r: Outcome<ErrorCode>)
    reads a
    ensures r == Pass
        <==> a.owner == userId && a.accountStatus != Unregistered && a.balance >= amount
    ensures r == Fail(UserAccountUnMatch) <==> a.owner != userId
    ensures r == Fail(AccountAlreadyUnregistered)
        <==> a.owner == userId && a.accountStatus == Unregistered
    ensures r == Fail(BalanceIsSmallerThanAmount)
        <==> a.owner == userId && a.accountStatus != Unregistered && a.balance < amount
  {
    if userId != a.owner then Fail(UserAccountUnMatch)
    else if a.accountStatus == Unregistered then Fail(AccountAlreadyUnregistered)
    else if a.balance < amount then Fail(BalanceIsSmallerThanAmount)
    else Pass
  }

  /** `validateCancelBalance`: same account, then the same amount, then not
      older than a year. The status of the account and the type and result of
      the original record are not checked. */
  function ValidateCancelBalance(t: Transaction, a: Account, amount: int, now: Time)
    : (r: Outcome<ErrorCode>)
    ensures r == Pass
        <==> t.accountId == a.id && t.amount == amount && t.transactedAt >= now - OneYear
    ensures r == Fail(TransactionUnMatchAccount) <==> t.accountId != a.id
    ensures r == Fail(CancelAmountUnMatchUseAmount) <==> t.accountId == a.id && t.amount != amount
    ensures r == Fail(TooOldTransaction)
        <==> t.accountId == a.id && t.amount == amount && t.transactedAt < now - OneYear
  {
    if t.accountId != a.id then Fail(TransactionUnMatchAccount)
    else if t.amount != amount then Fail(CancelAmountUnMatchUseAmount)
    else if TooOld(t.transactedAt, now) then Fail(TooOldTransaction)
    else Pass
  }

  /** `saveAndGetTransaction`: append one record carrying the account's
      current balance as its snapshot. `transactionId` stands for the fresh
      UUID the source generates. */
  method SaveAndGetTransaction(l: Ledger, transactionType: TransactionType,
                               result: TransactionResultType, amount: int,
                               a: Account, transactionId: string, now: Time)
    returns (t: Transaction)
    requires l.Valid() && a in l.accounts
    requires FindTransaction(l.transactions, transactionId).None?
    modifies l`transactions
    ensures l.Valid()
    ensures t == Transaction(transactionId, transactionType, result, a.id, amount, a.balance, now)
    ensures l.transactions == old(l.transactions) + [t]
  {
    t := Transaction(transactionId, transactionType, result, a.id, amount, a.balance, now);
    l.transactions := l.transactions + [t];
  }

  /** `useBalance`: look up the user and the account, validate, debit, and
      record a successful use. A failed check changes nothing. */
  method UseBalance(l: Ledger, userId: UserId, accountNumber: string, amount: int,
                    transactionId: string, now: Time)
    returns (r: Result<Transaction, ErrorCode>)
    requires l.Valid()
    requires FindTransaction(l.transactions, transactionId).None?
    modifies l`transactions, WithNumber(l.accounts, accountNumber)`balance
    ensures l.Valid()
    ensures r == Err(UserNotFound) <==> userId !in l.users
    ensures r == Err(AccountNotFound)
        <==> userId in l.users && FindAccountByNumber(l.accounts, accountNumber).None?
    ensures r.Err? ==> l.transactions == old(l.transactions)
    ensures r.Err? ==> unchanged(WithNumber(l.accounts, accountNumber))
    ensures var k := FindAccountByNumber(l.accounts, accountNumber);
      userId in l.users && k.Some? ==>
        var a := l.accounts[k.value];
        && (r.Ok? <==> old(ValidateUseBalance(userId, a, amount)) == Pass)
        && (r.Err? ==> old(ValidateUseBalance(userId, a, amount)) == Fail(r.error))
        && (r.Ok? ==>
              && old(a.balance) >= amount
              && a.balance == old(a.balance) - amount
              && a.balance >= 0
              && r.value == Transaction(transactionId, Use, S, a.id, amount, a.balance, now)
              && l.transactions == old(l.transactions) + [r.value])
    ensures old(l.BalancesNonNegative()) ==> l.BalancesNonNegative()
  {
    if userId !in l.users {
      return Err(UserNotFound);
    }
    var k := FindAccountByNumber(l.accounts, accountNumber);
    if k.None? {
      return Err(AccountNotFound);
    }
    var a := l.accounts[k.value];
    var check := ValidateUseBalance(userId, a, amount);
    if check.Fail? {
      return Err(check.error);
    }
    a.UseBalance(amount);
    var t := SaveAndGetTransaction(l, Use, S, amount, a, transactionId, now);
    r := Ok(t);
  }

  /** `saveFailedUseTransaction`: record a failed use against an existing
      account, leaving its balance alone. */
  method SaveFailedUseTransaction(l: Ledger, accountNumber: string, amount: int,
                                  transactionId: string, now: Time)
    returns (r: Outcome<ErrorCode>)
    requires l.Valid()
    requires FindTransaction(l.transactions, transactionId).None?
    modifies l`transactions
    ensures l.Valid()
    ensures r.Fail? <==> FindAccountByNumber(l.accounts, accountNumber).None?
    ensures r.Fail? ==> r.error == AccountNotFound && l.transactions == old(l.transactions)
    ensures r == Pass ==>
      var a := l.accounts[FindAccountByNumber(l.accounts, accountNumber).value];
      l.transactions == old(l.transactions)
        + [Transaction(transactionId, Use, F, a.id, amount, a.balance, now)]
  {
    var k := FindAccountByNumber(l.accounts, accountNumber);
    if k.None? {
      return Fail(AccountNotFound);
    }
    var _ := SaveAndGetTransaction(l, Use, F, amount, l.accounts[k.value], transactionId, now);
    r := Pass;
  }

  /** `cancelBalance`: look up the original record and the account, validate,
      credit, and record a successful cancel. A failed check changes nothing. */
  method CancelBalance(l: Ledger, transactionId: string, accountNumber: string, amount: int,
                       newTransactionId: string, now: Time)
    returns (r: Result<Transaction, ErrorCode>)
    requires l.Valid()
    requires FindTransaction(l.transactions, newTransactionId).None?
    modifies l`transactions, WithNumber(l.accounts, accountNumber)`balance
    ensures l.Valid()
    ensures r == Err(TransactionNotFound)
        <==> FindTransaction(old(l.transactions), transactionId).None?
    ensures r == Err(AccountNotFound)
        <==> (FindTransaction(old(l.transactions), transactionId).Some?
              && FindAccountByNumber(l.accounts, accountNumber).None?)
    ensures r.Err? ==> l.transactions == old(l.transactions)
    ensures r.Err? ==> unchanged(WithNumber(l.accounts, accountNumber))
    ensures var i := FindTransaction(old(l.transactions), transactionId);
      var k := FindAccountByNumber(l.accounts, accountNumber);
      i.Some? && k.Some? ==>
        var t := old(l.transactions)[i.value];
        var a := l.accounts[k.value];
        && (r.Ok? <==> ValidateCancelBalance(t, a, amount, now) == Pass)
        && (r.Err? ==> ValidateCancelBalance(t, a, amount, now) == Fail(r.error))
        && (r.Ok? ==>
              && a.balance == old(a.balance) + amount
              && r.value == Transaction(newTransactionId, Cancel, S, a.id, amount, a.balance, now)
              && l.transactions == old(l.transactions) + [r.value])
    ensures old(l.BalancesNonNegative()) && amount >= 0 ==> l.BalancesNonNegative()
  {
    var i := FindTransaction(l.transactions, transactionId);
    if i.None? {
      return Err(TransactionNotFound);
    }
    var k := FindAccountByNumber(l.accounts, accountNumber);
    if k.None? {
      return Err(AccountNotFound);
    }
    var t := l.transactions[i.value];
    var a := l.accounts[k.value];
    var check := ValidateCancelBalance(t, a, amount, now);
    if check.Fail? {
      return Err(check.error);
    }
    a.CancelBalance(amount);
    var saved := SaveAndGetTransaction(l, Cancel, S, amount, a, newTransactionId, now);
    r := Ok(saved);
  }

  /** `saveFailedCancelTransaction`: record a failed cancel against an
      existing account, leaving its balance alone. */
  method SaveFailedCancelTransaction(l: Ledger, accountNumber: string, amount: int,
                                     transactionId: string, now: Time)
    returns (r: Outcome<ErrorCode>)
    requires l.Valid()
    requires FindTransaction(l.transactions, transactionId).None?
    modifies l`transactions
    ensures l.Valid()
    ensures r.Fail? <==> FindAccountByNumber(l.accounts, accountNumber).None?
    ensures r.Fail? ==> r.error == AccountNotFound && l.transactions == old(l.transactions)
    ensures r == Pass ==>
      var a := l.accounts[FindAccountByNumber(l.accounts, accountNumber).value];
      l.transactions == old(l.transactions)
        + [Transaction(transactionId, Cancel, F, a.id, amount, a.balance, now)]
  {
    var k := FindAccountByNumber(l.accounts, accountNumber);
    if k.None? {
      return Fail(AccountNotFound);
    }
    var _ := SaveAndGetTransaction(l, Cancel, F, amount, l.accounts[k.value], transactionId, now);
    r := Pass;
  }
}
