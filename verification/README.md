# Audit-period gate

A Dafny model of the audit-period middleware of the student-organization
audit board back-end (`src/middleware/validate_audit_period.ts`). Before a
request may change budgets, incomes, expenses, transactions, cards or
accounts, the middleware:

1. rejects a body that names both an income and an expense (`sanitizeInput`);
2. works out which (year, half) the request is about (`findYearAndHalf`).
   It takes explicit `year` and `half` fields, or follows foreign keys from
   the referenced record up to a record that stores its own year and half.
   The chains are TransactionRecord → Transaction → Income or Expense →
   Budget and AccountRecord → Account; Card and CardRecord are roots;
3. uses the period today falls in when nothing is identified
   (`getAuditPeriodFromDate`);
4. loads the audit period for that pair and lets the request through only
   while now lies in its closed window [start, end].

The database becomes an immutable `Store` of maps from id to record, and
audit periods are keyed by (year, half). The clock becomes a `Clock` value
passed in. Calling `next()` is `Proceed`, and each thrown error is
`Reject(error)`. The error is tagged with its kind (BadRequest, NotFound,
Validation) and with the check that failed.

Fields follow JavaScript truthiness: a field that is null, undefined, `0`
or `""` counts as absent (`Records.Present`, `Records.PresentText`).

Modules: `Wrappers` (Option, Result), `Errors`, `Records` (entities,
store, request), `Calendar` (default period), `Resolver`
(`findYearAndHalf`, its chain helpers and the equivalent priority table),
`Chains` (chain properties), `Validator` (`sanitizeInput`,
`validateAuditPeriod`) and `Scenarios` (the cases the middleware's test
suite exercises).

Behaviour of the code worth noting:

- A request that carries only a year or only a half is not rejected.
  `findYearAndHalf` uses explicit fields only when both are truthy.
  Otherwise it moves on and, with nothing else identified, returns
  `{null, null}`, so today's period is used (`Resolver.LoneYearOrHalfSkipped`, `Validator.LoneYearOrHalfUsesDefault`).
  The "year and half must be used together" error arises only when a
  stored record has a falsy year or half
  (`Validator.IdentifiedRequestNeverDefaults`).
- With no identifiers the code uses today's period. It does not raise
  BadRequestError, which is what the test at
  test/middleware/validate_audit_period.spec.ts:511-520 expects
  (`Scenarios.NoIdentifiersProceedsInOpenPeriod`).
- `sanitizeInput` reads only the body. A route `income_id` together with a
  body `expense_id` is not a conflict.
- A card record answers with its own year and half. Its card is not consulted.
- The expense lookup reads the income table (see Findings). The gate is
  modelled as written.

## Model

| member | source | states |
|---|---|---|
| Calendar.DefaultPeriod | src/middleware/validate_audit_period.ts:129-146 | today's period is always spring or fall, and it is a period whose months (Feb–Jul or Aug–next Jan) contain today's month |
| Calendar.DefaultPeriodIsTheCoveringPeriod | src/middleware/validate_audit_period.ts:129-146 | the default period is the ONLY spring/fall period covering today's month (iff), so it is a function of year and month alone |
| Calendar.DefaultPeriodByMonth | src/middleware/validate_audit_period.ts:132-143 | January gives (year−1, fall), February–July (year, spring), August–December (year, fall) |
| Validator.SanitizeInput | src/middleware/validate_audit_period.ts:148-155 | a BadRequest is raised iff the body has both a truthy income_id and a truthy expense_id; route parameters play no part |
| Validator.CheckWindow | src/middleware/validate_audit_period.ts:25-41 | proceed iff the period exists and start ≤ now ≤ end; not found iff it does not exist; validation error iff now is outside the window |
| Validator.ValidateAuditPeriod | src/middleware/validate_audit_period.ts:16-69 | an income/expense conflict in the body is always a BadRequest; a request proceeds only if now lies inside some stored audit period's window |
| Validator.ConflictDecidedFirst | src/middleware/validate_audit_period.ts:21-23 | with a conflict the outcome is BadRequest whatever the store and the clock, so no lookup can influence it |
| Validator.RequestedWindowIsClosed | src/middleware/validate_audit_period.ts:24-41 | for a resolved (year, half): Proceed iff the period exists and start ≤ now ≤ end, NotFound iff it is missing, Validation iff now < start or now > end |
| Validator.DefaultWindowIsClosed | src/middleware/validate_audit_period.ts:45-67 | with no identifier, the same three-way iff holds for the period derived from today's month |
| Validator.PartialPairRejected | src/middleware/validate_audit_period.ts:42-44 | a resolved pair with exactly one truthy component is a BadRequest |
| Validator.ChainFailureIsFinal | src/middleware/validate_audit_period.ts:21-23 | a failed lookup along the chain is always a NotFound, and validation ends with exactly that error |
| Validator.IdentifiedRequestNeverDefaults | src/middleware/validate_audit_period.ts:24-46 | once any identifier is present, and stored pairs are truthy, the outcome is the same for any two clocks with the same instant, whatever their calendar year and month. So today's period is never consulted, and neither its errors nor the year/half error can occur |
| Validator.LoneYearOrHalfUsesDefault | src/middleware/validate_audit_period.ts:42-67 | a request with no identifier, even one carrying a lone year or a lone half in params or body, is checked against today's period and fares exactly as an empty request does |
| Resolver.LoneYearOrHalfSkipped | src/middleware/validate_audit_period.ts:72-81 | in params and in body alike, a year whose half is falsy, or a half whose year is falsy, is skipped as if absent, whatever else the request carries |
| Resolver.FindYearAndHalf | src/middleware/validate_audit_period.ts:71-127 | computes only. It equals the priority-table scan (Resolver.ChainIsTableScan), the first hit decides (Resolver.FirstHitDecides), and its outcomes are characterised by Resolver.ResolutionOutcomes |
| Resolver.ByCardId | src/middleware/validate_audit_period.ts:157-173 | computes only. Its round trip is Chains.CardChainRoundTrip and its miss is Chains.MissingRootIsNotFound |
| Resolver.ByCardRecordId | src/middleware/validate_audit_period.ts:175-191 | computes only. It answers with the record's own pair (Chains.CardRecordAnswersItself) and its miss is Chains.MissingRootIsNotFound |
| Resolver.ByAccountId | src/middleware/validate_audit_period.ts:193-209 | computes only. Its round trip is Chains.AccountChainRoundTrip and its miss is Chains.MissingRootIsNotFound |
| Resolver.ByAccountRecordId | src/middleware/validate_audit_period.ts:211-226 | computes only. Its round trip is Chains.AccountChainRoundTrip and its hops are Chains.AccountRecordChainHops. Its miss is Chains.MissingRootIsNotFound |
| Resolver.ByTransactionId | src/middleware/validate_audit_period.ts:228-245 | computes only. The income-first branching is Chains.TransactionPrefersIncome and its round trip is Chains.IncomeChainRoundTrip. Its miss is Chains.MissingRootIsNotFound |
| Resolver.ByTransactionRecordId | src/middleware/validate_audit_period.ts:247-261 | computes only. Its hops are Chains.TransactionRecordChainHops and its round trip is Chains.IncomeChainRoundTrip. Its miss is Chains.MissingRootIsNotFound |
| Resolver.ByBudgetId | src/middleware/validate_audit_period.ts:263-276 | computes only. Its round trip is Chains.IncomeChainRoundTrip and its miss is Chains.MissingRootIsNotFound |
| Resolver.ByIncomeId | src/middleware/validate_audit_period.ts:278-284 | computes only. Its round trip is Chains.IncomeChainRoundTrip and its hops are Chains.TransactionRecordChainHops. Its miss is Chains.MissingRootIsNotFound |
| Resolver.ByExpenseId | src/middleware/validate_audit_period.ts:286-292 | computes only, as written, reading the income table: Chains.ExpenseLookupReadsIncomes and Chains.ExpenseWithoutIncomeIsNotFound. Its miss is Chains.MissingRootIsNotFound |
| Resolver.ByExpenseIdIntended | src/middleware/validate_audit_period.ts:286-292 | computes only, reading the expense table. Its round trip is Chains.ExpenseChainRoundTripIntended. Its miss is Chains.MissingRootIsNotFound |
| Resolver.ChainIsTableScan | src/middleware/validate_audit_period.ts:71-127 | the if/else chain equals a scan of the fixed priority table: params year+half, body year+half, params budget_id, then income, expense, transaction, transaction record, card, card record, account, account record ids, each from params then body |
| Resolver.FirstHitDecides | src/middleware/validate_audit_period.ts:71-124 | first match wins: the first table entry the request hits decides the result |
| Resolver.LowerPriorityIgnored | src/middleware/validate_audit_period.ts:71-124 | two requests that agree on every entry up to one the first hits resolve identically, so lower-priority fields never change the result |
| Resolver.ResolutionOutcomes | src/middleware/validate_audit_period.ts:125-126 | `{null, null}` is returned iff the request has no identifier; any other success has both components; every failure is a NotFound of a chain record |
| Resolver.ExplicitParamsWin | src/middleware/validate_audit_period.ts:72-76 | truthy year and half in the route parameters are returned as they are, whatever else the request carries |
| Resolver.ZeroIdIsAbsent | src/middleware/validate_audit_period.ts:82-123 | an id field equal to 0 is treated exactly as a missing one |
| Resolver.FollowYieldsStoredPair | src/middleware/validate_audit_period.ts:157-292 | when every stored year and half is truthy, every chain that succeeds yields a truthy pair |
| Chains.IncomeChainRoundTrip | src/middleware/validate_audit_period.ts:228-284 | store a budget of (year, half) with an income, a transaction on it and a transaction record. Resolving the budget, income, transaction or record id then returns exactly (year, half) |
| Chains.AccountChainRoundTrip | src/middleware/validate_audit_period.ts:193-226 | after storing an account of (year, half) and a record of it, both the account id and the record id resolve to (year, half) |
| Chains.CardChainRoundTrip | src/middleware/validate_audit_period.ts:157-191 | after storing a card of (year, half) and a record stamped with that pair, both the card id and the record id resolve to (year, half) |
| Chains.CardRecordAnswersItself | src/middleware/validate_audit_period.ts:175-191 | a card record resolves to its own stored pair, whatever its card holds |
| Chains.BodyBudgetIdIgnored | src/middleware/validate_audit_period.ts:82-83 | a budget_id in the body is never read. Changing it leaves every request's resolution unchanged, and alone it identifies nothing |
| Chains.MissingRootIsNotFound | src/middleware/validate_audit_period.ts:157-292 | for every store, a record missing at any hop gives that hop's own NotFound: budget, card, card record, account, account record, income, transaction and transaction record. The as-written expense helper gives NotFound(NoExpense) when the income table lacks the id, and the intended one when the expense table lacks it |
| Chains.TransactionPrefersIncome | src/middleware/validate_audit_period.ts:239-244 | a transaction follows its truthy income id, else its truthy expense id, else it is NotFound |
| Chains.TransactionRecordChainHops | src/middleware/validate_audit_period.ts:228-284 | a missing transaction record, transaction, income or budget each gives its own NotFound, with no fallback |
| Chains.AccountRecordChainHops | src/middleware/validate_audit_period.ts:193-226 | a missing account record or account each gives its own NotFound |
| Chains.ExpenseLookupReadsIncomes | src/middleware/validate_audit_period.ts:286-292 | as written, the expense helper behaves like the intended one would on a store whose expense table is its income table |
| Chains.ExpenseWithoutIncomeIsNotFound | src/middleware/validate_audit_period.ts:286-292 | an expense with no income of the same id is NotFound as written, but resolves to its budget's pair as intended |
| Chains.ExpenseChainRoundTripIntended | src/middleware/validate_audit_period.ts:286-292 | with the intended lookup, an expense stored in a budget resolves to that budget's pair |
| Scenarios.OpenPeriodProceeds | test/middleware/validate_audit_period.spec.ts:34-70 | spring 2023 is requested from params or body on 2023-04-01 while it is open: the request proceeds |
| Scenarios.UnknownPeriodNotFound | test/middleware/validate_audit_period.spec.ts:72-108 | a requested period with no record is NotFound |
| Scenarios.ClosedPeriodFailsValidation | test/middleware/validate_audit_period.spec.ts:110-150 | the same request on 2023-08-01 is a ValidationError |
| Scenarios.IncomeWithExpenseIsBadRequest | test/middleware/validate_audit_period.spec.ts:152-166 | income_id and expense_id together in the body are a BadRequest |
| Scenarios.FixtureResolvesEveryId | test/middleware/validate_audit_period.spec.ts:303-509 | in the test fixture every identifier kind, from params or body, resolves to (2023, spring) |
| Scenarios.ExpenseCaseFollowsIncomeTable | test/middleware/validate_audit_period.spec.ts:342-366 | the expense cases pass only because income 1 shares the expense's id and budget |
| Scenarios.NoIdentifiersProceedsInOpenPeriod | test/middleware/validate_audit_period.spec.ts:511-520 | a request with no identifiers is checked against today's period and proceeds. It is not a BadRequest |
| Scenarios.TransactionThroughIncomeProceeds | test/middleware/validate_audit_period.spec.ts:368-379 | a transaction whose income's budget is spring 2023 passes on 2023-04-01 |
| Scenarios.DefaultPeriodExamples | src/middleware/validate_audit_period.ts:129-146 | 2023-04-01 falls in (2023, spring) and 2023-01-15 in (2022, fall) |

## Findings

| source | as written | input that shows it | evidently intended | confidence | as-written member | corrected member |
|---|---|---|---|---|---|---|
| src/middleware/validate_audit_period.ts:286-292 | `findYearAndHalfByExpenseId` looks the expense id up with `Income.findByPk` and follows that income's budget | expense 1 in a budget of (2023, spring) with no income 1 gives NotFoundError. An income 1 in a (2022, fall) budget gives (2022, fall) | look the id up in the Expense table and follow the expense's budget | high; not executed | Resolver.ByExpenseId (shown by Chains.ExpenseWithoutIncomeIsNotFound and Scenarios.ExpenseCaseFollowsIncomeTable) | Resolver.ByExpenseIdIntended (proved by Chains.ExpenseChainRoundTripIntended) |

The gate (`Resolver.FindYearAndHalf`, `Validator.ValidateAuditPeriod`)
keeps the as-written lookup, because the model follows the code. The
corrected helper and its round trip stand beside it.

## Left out

- Logging: the `logger` calls are side effects only.
- Express plumbing: `req`/`res`/`next` become `Request` and `Outcome`, and throwing becomes `Reject`.
- Async and ORM: `findOne` and `findByPk` are map lookups. `AuditPeriod.findOne` is a lookup in a map keyed by (year, half), so at most one period exists per pair.
- Error message text: each error carries a tag naming the failed check, one per message in the source, not the Korean string itself.
- `Date` internals: the instant compared against windows and the local year and month given by `getFullYear`/`getMonth` are independent fields of `Clock`. Time zones are not modelled.
- Field types: ids and years are numbers and halves are strings, in both params and body. Express delivers route parameters as strings, where `"0"` is truthy. The model applies the numeric falsy rule to params as well. The ORM's coercion of string keys is not modelled.
- Record columns: stored year and half are non-null. Foreign keys may be null, and a lookup by a null key finds nothing.
- Route handlers, routing and app set-up (`src/routes/*.ts`, `src/app.ts`), object storage (`src/config/s3.ts`), database connection and associations (`src/db/postgre.ts`), model re-exports (`src/model/index.ts`) and the user routes (`src/routes/user.ts`): they lie outside the gate.
- The transaction route's rule that a transaction names an income or an expense lives in a handler that is not part of this model. The store may therefore hold a transaction naming neither, which resolves to NotFound.
