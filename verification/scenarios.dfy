/**
 * The cases the middleware's own test suite exercises, stated over the
 * model: a spring 2023 audit period open from 2023-01-01 to 2023-06-30,
 * "now" on 2023-04-01 (inside) or 2023-08-01 (outside), and a store with
 * one record of each kind, all belonging to spring 2023.
 */
module Scenarios {
  import opened Wrappers
  import opened Errors
  import opened Records
  import opened Calendar
  import opened Resolver
  import opened Chains
  import opened Validator

  // Instants in milliseconds since the epoch (UTC midnight).
  const Jan1: int := 1672531200000
  const Jun30: int := 1688083200000

  const Spring2023 := PeriodKey(2023, Spring)
  const ValidDate := Clock(1680307200000, 2023, 3)     // 2023-04-01
  const InvalidDate := Clock(1690848000000, 2023, 7)   // 2023-08-01

  /** Only the spring 2023 audit period. */
  const Periods := Store(map[Spring2023 := AuditPeriod(Jan1, Jun30)],
                         map[], map[], map[], map[], map[], map[], map[], map[], map[])

  /** One record of each kind with id 1, every root of spring 2023. */
  const Fixture := Store(
    map[Spring2023 := AuditPeriod(Jan1, Jun30)],
    map[1 := Budget(2023, Spring)],
    map[1 := Income(Some(1))],
    map[1 := Expense(Some(1))],
    map[1 := Transaction(Some(1), None)],
    map[1 := TransactionRecord(Some(1))],
    map[1 := Card(2023, Spring)],
    map[1 := CardRecord(None, 2023, Spring)],
    map[1 := Account(2023, Spring)],
    map[1 := AccountRecord(Some(1))])

  const InParams := Request(Blank.(year := Some(2023), half := Some(Spring)), Blank)
  const InBody := Request(Blank, Blank.(year := Some(2023), half := Some(Spring)))

  /** A requested period that is open today lets the request through, from the route parameters or the body. */
  lemma OpenPeriodProceeds()
    ensures ValidateAuditPeriod(Periods, InParams, ValidDate) == Proceed
    ensures ValidateAuditPeriod(Periods, InBody, ValidDate) == Proceed
  {
  }

  /** A requested period with no record is not found. */
  lemma UnknownPeriodNotFound()
    ensures ValidateAuditPeriod(Periods.(auditPeriods := map[]), InParams, ValidDate) == Reject(NotFound(NoAuditPeriod(Requested)))
    ensures ValidateAuditPeriod(Periods.(auditPeriods := map[]), InBody, ValidDate) == Reject(NotFound(NoAuditPeriod(Requested)))
  {
  }

  /** A requested period that has closed fails validation. */
  lemma ClosedPeriodFailsValidation()
    ensures ValidateAuditPeriod(Periods, InParams, InvalidDate) == Reject(Validation(Requested))
    ensures ValidateAuditPeriod(Periods, InBody, InvalidDate) == Reject(Validation(Requested))
  {
  }

  /** An income and an expense together in the body are a bad request. */
  lemma IncomeWithExpenseIsBadRequest()
    ensures ValidateAuditPeriod(Periods, Request(Blank, Blank.(incomeId := Some(1), expenseId := Some(1))), ValidDate)
         == Reject(BadRequest(IncomeWithExpense))
  {
  }

  /** Every identifier the tests try resolves to spring 2023 in the fixture store. */
  lemma FixtureResolvesEveryId(source: Source)
    ensures FindYearAndHalf(Fixture, OnlyId(Params, BudgetKind, 1)) == Success(PairOf(2023, Spring))
    ensures FindYearAndHalf(Fixture, OnlyId(source, IncomeKind, 1)) == Success(PairOf(2023, Spring))
    ensures FindYearAndHalf(Fixture, OnlyId(source, ExpenseKind, 1)) == Success(PairOf(2023, Spring))
    ensures FindYearAndHalf(Fixture, OnlyId(source, TransactionKind, 1)) == Success(PairOf(2023, Spring))
    ensures FindYearAndHalf(Fixture, OnlyId(source, TransactionRecordKind, 1)) == Success(PairOf(2023, Spring))
    ensures FindYearAndHalf(Fixture, OnlyId(source, CardKind, 1)) == Success(PairOf(2023, Spring))
    ensures FindYearAndHalf(Fixture, OnlyId(source, CardRecordKind, 1)) == Success(PairOf(2023, Spring))
    ensures FindYearAndHalf(Fixture, OnlyId(source, AccountKind, 1)) == Success(PairOf(2023, Spring))
    ensures FindYearAndHalf(Fixture, OnlyId(source, AccountRecordKind, 1)) == Success(PairOf(2023, Spring))
  {
  }

  /**
   * The expense case passes only because income 1 shares the expense's
   * id and budget: move income 1 to another budget and the expense id
   * resolves to that budget's pair instead.
   */
  lemma ExpenseCaseFollowsIncomeTable()
    ensures var s := Fixture.(budgets := Fixture.budgets[2 := Budget(2022, Fall)], incomes := map[1 := Income(Some(2))]);
      FindYearAndHalf(s, OnlyId(Params, ExpenseKind, 1)) == Success(PairOf(2022, Fall))
  {
  }

  /**
   * With no identifier at all the request is checked against today's
   * period; on 2023-04-01 that is spring 2023, which is open, so the
   * request proceeds rather than being rejected as a bad request.
   */
  lemma NoIdentifiersProceedsInOpenPeriod()
    ensures ValidateAuditPeriod(Periods, Request(Blank, Blank), ValidDate) == Proceed
  {
  }

  /** A transaction whose income's budget is spring 2023 passes on 2023-04-01. */
  lemma TransactionThroughIncomeProceeds()
    ensures ValidateAuditPeriod(Fixture, OnlyId(Params, TransactionKind, 1), ValidDate) == Proceed
  {
  }

  /** The default period of the two example dates: 2023-04-01 is spring 2023, 2023-01-15 is fall 2022. */
  lemma DefaultPeriodExamples()
    ensures DefaultPeriod(2023, 3) == PeriodKey(2023, Spring)
    ensures DefaultPeriod(2023, 0) == PeriodKey(2022, Fall)
  {
  }
}
