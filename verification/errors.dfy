/**
 * The three error kinds the audit-period gate throws, tagged with the
 * check that failed. Each tag stands for one of the source's user-facing
 * messages, so two errors are equal exactly when the source would throw
 * the same class with the same message.
 */
module Errors {

  /** Which audit-period lookup failed: the pair the request is about, or the pair derived from today's date. */
  datatype Branch = Requested | Current

  /** The record a lookup did not find. */
  datatype Missing =
    | NoCard
    | NoCardRecord
    | NoAccount
    | NoAccountRecord
    | NoTransaction
    | NoIncomeOrExpense    // the transaction names neither an income nor an expense
    | NoTransactionRecord
    | NoBudget
    | NoIncome
    | NoExpense
    | NoAuditPeriod(branch: Branch)

  /** Why the input was malformed. */
  datatype BadInput =
    | IncomeWithExpense    // the body names both an income and an expense
    | YearWithoutHalf      // only one of year and half was resolved

  datatype Error =
    | BadRequest(cause: BadInput)
    | NotFound(missing: Missing)
    | Validation(branch: Branch)    // today lies outside the audit period's window

  /** What the middleware does with a request: hand it on with `next()`, or throw. */
  datatype Outcome = Proceed | Reject(error: Error)
}
