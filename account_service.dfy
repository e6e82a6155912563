/** Account lifecycle (service/AccountService.java): opening an account with
    the next account number, looking an account up by id, and closing it. */
module AccountService {
  import opened Wrappers
  import opened ErrorCodes
  import opened Decimal
  import opened Domain
  import opened Store

  /** The number the first account ever opened receives. */
  const FirstAccountNumber: string := "1000000000"

  /** The number for a new account, given the number of the account with the
      largest id: one more than it, or `FirstAccountNumber` on an empty store. */
  function NextAccountNumber(last: Option<string>): (r: string)
    requires last.Some? ==> IsDecimal(last.value)
    ensures IsDecimal(r) && r[0] != '0'
    ensures last.None? ==> r == FirstAccountNumber
    ensures last.Some? ==> Parse(r) == Parse(last.value) + 1
  {
    match last
    case None => FirstAccountNumber
    case Some(n) =>
      ParseRender(Parse(n) + 1);
      Render(Parse(n) + 1)
  }

  /** The account after "1000000012" is "1000000013". */
  lemma NextAfterExample()
    ensures NextAccountNumber(Some("1000000012")) == "1000000013"
  {
    RenderStep(1, 0);
    RenderStep(10, 0);
    RenderStep(100, 0);
    RenderStep(1000, 0);
    RenderStep(10000, 0);
    RenderStep(100000, 0);
    RenderStep(1000000, 0);
    RenderStep(10000000, 0);
    RenderStep(10000000, 1);
    RenderStep(100000001, 2);
    RenderStep(100000001, 3);
    assert Render(1000000012) == "1000000012";
    ParseRender(1000000012);
  }

  /** `validateCreateAccount`: the user must not already own exactly ten
      accounts, closed ones included. */
  function ValidateCreateAccount(accounts: seq<Account>, user: UserId): (r: Outcome<ErrorCode>)
    ensures r == Fail(MaxAccountPerUser10) <==> CountOwnedBy(accounts, user) == MaxAccountsPerUser
    ensures r.Fail? ==> r.error == MaxAccountPerUser10
  {
    if CountOwnedBy(accounts, user) == MaxAccountsPerUser then Fail(MaxAccountPerUser10) else Pass
  }

  /** `createAccount`: look the user up, check the ceiling, allocate the next
      number and insert an in-use account. */
  method CreateAccount(l: Ledger, userId: UserId, initialBalance: int, now: Time)
    returns (r: Result<Account, ErrorCode>)
    requires l.Valid()
    modifies l`accounts
    ensures l.Valid()
    ensures r == Err(UserNotFound) <==> userId !in l.users
    ensures r == Err(MaxAccountPerUser10)
        <==> userId in l.users && CountOwnedBy(old(l.accounts), userId) == MaxAccountsPerUser
    ensures r.Err? ==> r.error == UserNotFound || r.error == MaxAccountPerUser10
    ensures r.Err? ==> l.accounts == old(l.accounts)
    ensures r.Ok? ==> fresh(r.value) && l.accounts == old(l.accounts) + [r.value]
    ensures r.Ok? ==>
      var a := r.value;
      && a.id == |old(l.accounts)| + 1
      && a.accountNumber == NextAccountNumber(LastCreatedNumber(old(l.accounts)))
      && a.owner == userId
      && a.accountStatus == InUse
      && a.balance == initialBalance
      && a.registeredAt == now
      && a.unregisteredAt == None
    ensures r.Ok? ==> forall b :: b in old(l.accounts) ==>
      Parse(b.accountNumber) < Parse(r.value.accountNumber)
    ensures old(l.BalancesNonNegative()) && initialBalance >= 0 ==> l.BalancesNonNegative()
  {
    if userId !in l.users {
      return Err(UserNotFound);
    }
    var check := ValidateCreateAccount(l.accounts, userId);
    if check.Fail? {
      return Err(check.error);
    }
    var oldAccounts := l.accounts;
    var newAccountNumber := NextAccountNumber(LastCreatedNumber(l.accounts));
    var a := new Account(|l.accounts| + 1, newAccountNumber, userId, InUse, initialBalance, now);
    CeilingBoundsEveryUser(l.accounts, userId);
    l.Insert(a);
    assert forall k :: 0 <= k < |oldAccounts| ==> l.accounts[k] == oldAccounts[k];
    r := Ok(a);
  }

  /** Why `getAccount` fails: `RuntimeException("Minus")` for a negative id,
      `NoSuchElementException` from `Optional.get` for an unknown one. */
  datatype GetAccountError = Minus | NoSuchElement

  /** `getAccount`: reject a negative id before the lookup, then look the id up. */
  function GetAccount(l: Ledger, id: int): (r: Result<Account, GetAccountError>)
    requires l.Valid()
    reads l, l.accounts
    ensures r == Err(Minus) <==> id < 0
    ensures r.Ok? ==> r.value in l.accounts && r.value.id == id
    ensures r == Err(NoSuchElement) <==> id >= 0 && forall a :: a in l.accounts ==> a.id != id
  {
    if id < 0 then Err(Minus)
    else if 1 <= id <= |l.accounts| then Ok(l.accounts[id - 1])
    else Err(NoSuchElement)
  }

  /** `validateDeleteAccount`: owner, then not already closed, then no
      positive balance. */
  function ValidateDeleteAccount(userId: UserId, a: Account): (r: Outcome<ErrorCode>)
    reads a
    ensures r == Pass <==> a.owner == userId && a.accountStatus != Unregistered && a.balance <= 0
    ensures r == Fail(UserAccountUnMatch) <==> a.owner != userId
    ensures r == Fail(AccountAlreadyUnregistered)
        <==> a.owner == userId && a.accountStatus == Unregistered
    ensures r == Fail(BalanceNotEmpty)
        <==> a.owner == userId && a.accountStatus != Unregistered && a.balance > 0
  {
    if userId != a.owner then Fail(UserAccountUnMatch)
    else if a.accountStatus == Unregistered then Fail(AccountAlreadyUnregistered)
    else if a.balance > 0 then Fail(BalanceNotEmpty)
    else Pass
  }

  /** `deleteAccount`: look up the user and the account, validate, then mark
      the account unregistered in place. Nothing is removed. */
  method DeleteAccount(l: Ledger, userId: UserId, accountNumber: string, now: Time)
    returns (r: Result<Account, ErrorCode>)
    requires l.Valid()
    modifies WithNumber(l.accounts, accountNumber)`accountStatus
    modifies WithNumber(l.accounts, accountNumber)`unregisteredAt
    ensures l.Valid()
    ensures r == Err(UserNotFound) <==> userId !in l.users
    ensures r == Err(AccountNotFound)
        <==> userId in l.users && FindAccountByNumber(l.accounts, accountNumber).None?
    ensures r.Err? ==> unchanged(WithNumber(l.accounts, accountNumber))
    ensures var k := FindAccountByNumber(l.accounts, accountNumber);
      userId in l.users && k.Some? ==>
        var a := l.accounts[k.value];
        && (r.Ok? <==> old(ValidateDeleteAccount(userId, a)) == Pass)
        && (r.Err? ==> old(ValidateDeleteAccount(userId, a)) == Fail(r.error))
        && (r.Ok? ==> r.value == a && a.accountStatus == Unregistered
                      && a.unregisteredAt == Some(now) && a.balance == old(a.balance))
    ensures r.Ok? ==> r.value.balance <= 0
    ensures r.Ok? && l.BalancesNonNegative() ==> r.value.balance == 0
    ensures old(l.BalancesNonNegative()) ==> l.BalancesNonNegative()
  {
    if userId !in l.users {
      return Err(UserNotFound);
    }
    var k := FindAccountByNumber(l.accounts, accountNumber);
    if k.None? {
      return Err(AccountNotFound);
    }
    var a := l.accounts[k.value];
    var check := ValidateDeleteAccount(userId, a);
    if check.Fail? {
      return Err(check.error);
    }
    a.accountStatus := Unregistered;
    a.unregisteredAt := Some(now);
    r := Ok(a);
  }
}
