/** The closed set of domain errors raised by the two services
    (type/ErrorCode.java). The Korean descriptions are not modelled. */
module ErrorCodes {

  datatype ErrorCode =
    | InternalServerError
    | InvalidRequest
    | UserNotFound
    | AccountNotFound
    | TransactionNotFound
    | MaxAccountPerUser10
    | UserAccountUnMatch
    | AccountAlreadyUnregistered
    | BalanceNotEmpty
    | BalanceIsSmallerThanAmount
    | TransactionUnMatchAccount
    | CancelAmountUnMatchUseAmount
    | TooOldTransaction
}
