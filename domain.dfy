/** The entities the two services read and write: users are bare ids, an
    account is an entity updated in place, a transaction is an immutable
    record. */
module Domain {
  import opened Wrappers

  /** A user id (`AccountUser.getId()`, a Java `Long`). */
  type UserId = int

  /** A timestamp, counted in days; `LocalDateTime.now()` becomes a parameter. */
  type Time = int

  datatype AccountStatus = InUse | Unregistered

  datatype TransactionType = Use | Cancel

  /** `S` (succeeded) or `F` (failed). */
  datatype TransactionResultType = S | F

  /** An account row. The id, number, owner and registration time are fixed
      when the row is built; balance, status and unregistration time are
      changed in place by the services. */
  class Account {
    const id: nat
    const accountNumber: string
    const owner: UserId
    const registeredAt: Time
    var accountStatus: AccountStatus
    var balance: int
    var unregisteredAt: Option<Time>

    constructor (id: nat, accountNumber: string, owner: UserId,
                 accountStatus: AccountStatus, balance: int, registeredAt: Time)
      ensures this.id == id && this.accountNumber == accountNumber
      ensures this.owner == owner && this.registeredAt == registeredAt
      ensures this.accountStatus == accountStatus && this.balance == balance
      ensures this.unregisteredAt == None
    {
      this.id := id;
      this.accountNumber := accountNumber;
      this.owner := owner;
      this.registeredAt := registeredAt;
      this.accountStatus := accountStatus;
      this.balance := balance;
      this.unregisteredAt := None;
    }

    /** `Account.useBalance`: a plain debit; the service checks the funds. */
    method UseBalance(amount: int)
      modifies this`balance
      ensures balance == old(balance) - amount
    {
      balance := balance - amount;
    }

    /** `Account.cancelBalance`: a plain credit. */
    method CancelBalance(amount: int)
      modifies this`balance
      ensures balance == old(balance) + amount
    {
      balance := balance + amount;
    }
  }

  /** One attempted balance change. `accountId` is the id of the account the
      record belongs to; `balanceSnapshot` is that account's balance when the
      record was saved. */
  datatype Transaction = Transaction(
    transactionId: string,
    transactionType: TransactionType,
    transactionResultType: TransactionResultType,
    accountId: nat,
    amount: int,
    balanceSnapshot: int,
    transactedAt: Time)
}
