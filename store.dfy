/** The backing store the two services share: users, account rows and the
    transaction log, with the queries the services issue against them
    (`findById`, `findByAccountNumber`, `findFirstByOrderByIdDesc`,
    `countByAccountUser`, `findByTransactionId`). */
module Store {
  import opened Wrappers
  import opened Decimal
  import opened Domain

  /** The per-user account ceiling of `validateCreateAccount`. */
  const MaxAccountsPerUser: nat := 10

  /** The store assigns ids 1, 2, 3, ... in insertion order. */
  predicate IdsAreIndices(accounts: seq<Account>) {
    forall k :: 0 <= k < |accounts| ==> accounts[k].id == k + 1
  }

  predicate AllDecimal(accounts: seq<Account>) {
    forall k :: 0 <= k < |accounts| ==> IsDecimal(accounts[k].accountNumber)
  }

  /** Later accounts carry numerically larger account numbers. */
  predicate NumbersIncreasing(accounts: seq<Account>)
    requires AllDecimal(accounts)
  {
    forall i, j :: 0 <= i < j < |accounts| ==>
      Parse(accounts[i].accountNumber) < Parse(accounts[j].accountNumber)
  }

  predicate TransactionIdsUnique(log: seq<Transaction>) {
    forall i, j :: 0 <= i < j < |log| ==> log[i].transactionId != log[j].transactionId
  }

  /** `findByAccountNumber`: the position of the first account with `number`. */
  function FindAccountByNumber(accounts: seq<Account>, number: string): (r: Option<nat>)
    ensures r.Some? ==> r.value < |accounts| && accounts[r.value].accountNumber == number
    ensures r.Some? ==> forall j :: 0 <= j < r.value ==> accounts[j].accountNumber != number
    ensures r.None? ==> forall j :: 0 <= j < |accounts| ==> accounts[j].accountNumber != number
  {
    if |accounts| == 0 then None
    else if accounts[0].accountNumber == number then Some(0)
    else match FindAccountByNumber(accounts[1..], number)
      case None => None
      case Some(k) => Some(k + 1)
  }

  /** The accounts a service may touch when it is given `number`. */
  function WithNumber(accounts: seq<Account>, number: string): set<Account> {
    set a | a in accounts && a.accountNumber == number
  }

  /** `findByTransactionId`: the position of the first record with `transactionId`. */
  function FindTransaction(log: seq<Transaction>, transactionId: string): (r: Option<nat>)
    ensures r.Some? ==> r.value < |log| && log[r.value].transactionId == transactionId
    ensures r.Some? ==> forall j :: 0 <= j < r.value ==> log[j].transactionId != transactionId
    ensures r.None? ==> forall j :: 0 <= j < |log| ==> log[j].transactionId != transactionId
  {
    if |log| == 0 then None
    else if log[0].transactionId == transactionId then Some(0)
    else match FindTransaction(log[1..], transactionId)
      case None => None
      case Some(k) => Some(k + 1)
  }

  /** `countByAccountUser`: every account the user owns, in use or not. */
  function CountOwnedBy(accounts: seq<Account>, user: UserId): (r: nat)
    ensures r <= |accounts|
  {
    if |accounts| == 0 then 0
    else (if accounts[0].owner == user then 1 else 0) + CountOwnedBy(accounts[1..], user)
  }

  /** The count is zero exactly when the user owns none of the accounts. */
  lemma {:induction false} CountOwnedByZero(accounts: seq<Account>, user: UserId)
    ensures CountOwnedBy(accounts, user) == 0
        <==> forall k :: 0 <= k < |accounts| ==> accounts[k].owner != user
  {
    if |accounts| > 0 {
      CountOwnedByZero(accounts[1..], user);
      assert forall k :: 1 <= k < |accounts| ==> accounts[k] == accounts[1..][k - 1];
    }
  }

  /** Adding an account raises its owner's count by one and no one else's. */
  lemma {:induction false} CountOwnedByAppend(accounts: seq<Account>, a: Account, user: UserId)
    ensures CountOwnedBy(accounts + [a], user)
         == CountOwnedBy(accounts, user) + (if a.owner == user then 1 else 0)
  {
    if |accounts| > 0 {
      assert (accounts + [a])[1..] == accounts[1..] + [a];
      CountOwnedByAppend(accounts[1..], a, user);
    }
  }

  /** No owner of a stored account holds more than the ceiling. */
  predicate UnderCeiling(accounts: seq<Account>) {
    forall k :: 0 <= k < |accounts| ==>
      CountOwnedBy(accounts, accounts[k].owner) <= MaxAccountsPerUser
  }

  /** Users who own nothing count 0, so the ceiling bounds every user. */
  lemma CeilingBoundsEveryUser(accounts: seq<Account>, user: UserId)
    requires UnderCeiling(accounts)
    ensures CountOwnedBy(accounts, user) <= MaxAccountsPerUser
  {
  }

  /** `findFirstByOrderByIdDesc` mapped to the account number: the number of
      the account with the largest id, if there is one. */
  function LastCreatedNumber(accounts: seq<Account>): (r: Option<string>)
    requires IdsAreIndices(accounts)
    ensures r.None? <==> |accounts| == 0
    ensures r.Some? ==> exists k :: (0 <= k < |accounts| && accounts[k].accountNumber == r.value
      && forall j :: 0 <= j < |accounts| ==> accounts[j].id <= accounts[k].id)
  {
    if |accounts| == 0 then None else Some(accounts[|accounts| - 1].accountNumber)
  }

  /** Account numbers in the store are unique, so the lookup by number finds
      exactly the account that carries it. */
  lemma FindsOwnNumber(accounts: seq<Account>, k: nat)
    requires AllDecimal(accounts) && NumbersIncreasing(accounts)
    requires k < |accounts|
    ensures FindAccountByNumber(accounts, accounts[k].accountNumber) == Some(k)
  {
  }

  /** Appending an account whose number is above the last one keeps the
      numbers increasing. */
  lemma AppendKeepsIncreasing(accounts: seq<Account>, a: Account)
    requires AllDecimal(accounts) && NumbersIncreasing(accounts)
    requires IsDecimal(a.accountNumber)
    requires |accounts| > 0 ==>
      Parse(accounts[|accounts| - 1].accountNumber) < Parse(a.accountNumber)
    ensures AllDecimal(accounts + [a]) && NumbersIncreasing(accounts + [a])
  {
  }

  /** A record appended under a fresh id is found under that id. */
  lemma FindsAppended(log: seq<Transaction>, t: Transaction)
    requires FindTransaction(log, t.transactionId).None?
    ensures FindTransaction(log + [t], t.transactionId) == Some(|log|)
  {
    var s := log + [t];
    assert s[|log|] == t;
    var r := FindTransaction(s, t.transactionId);
    assert r.Some?;
    assert forall j :: 0 <= j < |log| ==> s[j] == log[j];
  }

  /** The ledger: users (created elsewhere, read only here), account rows in
      insertion order and the transaction log, which only grows. */
  class Ledger {
    var users: set<UserId>
    var accounts: seq<Account>
    var transactions: seq<Transaction>

    /** What every service operation keeps, starting from an empty store. */
    ghost predicate Valid()
      reads this, accounts
    {
      && IdsAreIndices(accounts)
      && (forall k :: 0 <= k < |accounts| ==> accounts[k].owner in users)
      && AllDecimal(accounts)
      && NumbersIncreasing(accounts)
      && UnderCeiling(accounts)
      && (forall k :: 0 <= k < |accounts| ==>
            (accounts[k].accountStatus == Unregistered <==> accounts[k].unregisteredAt.Some?))
      && (forall i :: 0 <= i < |transactions| ==> 1 <= transactions[i].accountId <= |accounts|)
      && TransactionIdsUnique(transactions)
    }

    /** No account is overdrawn. Not part of `Valid`: the services accept a
        negative initial balance and negative amounts. */
    ghost predicate BalancesNonNegative()
      reads this, accounts
    {
      forall k :: 0 <= k < |accounts| ==> accounts[k].balance >= 0
    }

    /** `accountRepository.save` of a new row: appending an account that
        takes the next id, belongs to a known user under the ceiling and
        carries a number above every earlier one keeps the invariant. */
    method Insert(a: Account)
      requires Valid()
      requires a.id == |accounts| + 1 && a.owner in users
      requires IsDecimal(a.accountNumber)
      requires |accounts| > 0 ==>
        Parse(accounts[|accounts| - 1].accountNumber) < Parse(a.accountNumber)
      requires CountOwnedBy(accounts, a.owner) < MaxAccountsPerUser
      requires a.accountStatus == InUse && a.unregisteredAt == None
      modifies this`accounts
      ensures accounts == old(accounts) + [a]
      ensures Valid()
      ensures old(BalancesNonNegative()) && a.balance >= 0 ==> BalancesNonNegative()
    {
      var before := accounts;
      AppendKeepsIncreasing(before, a);
      accounts := accounts + [a];
      forall k | 0 <= k < |accounts|
        ensures CountOwnedBy(accounts, accounts[k].owner) <= MaxAccountsPerUser
      {
        CountOwnedByAppend(before, a, accounts[k].owner);
        if k < |before| {
          assert accounts[k] == before[k];
        }
      }
    }

    constructor (users: set<UserId>)
      ensures Valid() && BalancesNonNegative()
      ensures this.users == users && accounts == [] && transactions == []
    {
      this.users := users;
      accounts := [];
      transactions := [];
    }
  }
}
