/** Shared vocabulary of the bank application: optional values, results,
    and the two value locks of the API configuration. */
module Base {

  /** Python's `None` versus a present value. */
  datatype Option<+T> = None | Some(value: T)

  /** A value, or the exception that was raised instead. */
  datatype Result<+T, +E> = Ok(value: T) | Err(error: E)

  /** A rejected request (status 400) or an exception that escapes a route (status 500). */
  datatype HttpError = BadRequest(detail: string) | ServerError(cause: string)

  const DebitKind: string := "debit"
  const CreditKind: string := "credit"
  /** The spelling of the transfer kind everywhere it is configured. */
  const TransferKind: string := "transfert"

  /** `available_transactions_types` of the API configuration. */
  const AvailableTransactionTypes: seq<string> := [DebitKind, CreditKind, TransferKind]

  /** `available_account_types` of the API configuration. */
  const AvailableAccountTypes: seq<string> := ["checking", "saving", "investment"]
}
