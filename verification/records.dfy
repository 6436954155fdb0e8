/**
 * The persisted entities the gate reads, the store that holds them, and
 * the shape of an incoming request.
 *
 * Records keep only the columns the gate reads. Foreign keys are nullable,
 * so they are `Option<Id>`; an ORM lookup by a null key finds nothing.
 */
module Records {
  import opened Wrappers

  type Id = int

  /** JavaScript truthiness of an optional number: null, undefined and 0 are falsy. */
  predicate Present(v: Option<int>) {
    v.Some? && v.value != 0
  }

  /** JavaScript truthiness of an optional string: null, undefined and "" are falsy. */
  predicate PresentText(v: Option<string>) {
    v.Some? && v.value != ""
  }

  /** The natural key of an audit period: a year and a half ("spring" or "fall"). */
  datatype PeriodKey = PeriodKey(year: int, half: string)

  /** The open window of an audit period, as instants (milliseconds since the epoch). */
  datatype AuditPeriod = AuditPeriod(start: int, end: int)

  datatype Budget = Budget(year: int, half: string)
  datatype Income = Income(budgetId: Option<Id>)
  datatype Expense = Expense(budgetId: Option<Id>)
  datatype Transaction = Transaction(incomeId: Option<Id>, expenseId: Option<Id>)
  datatype TransactionRecord = TransactionRecord(transactionId: Option<Id>)
  datatype Card = Card(year: int, half: string)
  /** A card record stores its own year and half besides the card it belongs to. */
  datatype CardRecord = CardRecord(cardId: Option<Id>, year: int, half: string)
  datatype Account = Account(year: int, half: string)
  datatype AccountRecord = AccountRecord(accountId: Option<Id>)

  /** One table per entity, keyed by primary key; audit periods are keyed by (year, half), at most one per pair. */
  datatype Store = Store(
    auditPeriods: map<PeriodKey, AuditPeriod>,
    budgets: map<Id, Budget>,
    incomes: map<Id, Income>,
    expenses: map<Id, Expense>,
    transactions: map<Id, Transaction>,
    transactionRecords: map<Id, TransactionRecord>,
    cards: map<Id, Card>,
    cardRecords: map<Id, CardRecord>,
    accounts: map<Id, Account>,
    accountRecords: map<Id, AccountRecord>)

  /** Every record that stores a year and a half stores truthy ones: a nonzero year and a nonempty half. */
  ghost predicate StoredPairsTruthy(s: Store) {
    && (forall id :: id in s.budgets ==> s.budgets[id].year != 0 && s.budgets[id].half != "")
    && (forall id :: id in s.cards ==> s.cards[id].year != 0 && s.cards[id].half != "")
    && (forall id :: id in s.cardRecords ==> s.cardRecords[id].year != 0 && s.cardRecords[id].half != "")
    && (forall id :: id in s.accounts ==> s.accounts[id].year != 0 && s.accounts[id].half != "")
  }

  /** Lookup by primary key (`findByPk` / `findOne` on `id`); a null key finds nothing. */
  function Lookup<V>(table: map<Id, V>, id: Option<Id>): Option<V> {
    if id.Some? && id.value in table then Some(table[id.value]) else None
  }

  /** The identifying fields the gate reads from `req.params` or from `req.body`. */
  datatype Fields = Fields(
    year: Option<int>,
    half: Option<string>,
    budgetId: Option<Id>,
    incomeId: Option<Id>,
    expenseId: Option<Id>,
    transactionId: Option<Id>,
    transactionRecordId: Option<Id>,
    cardId: Option<Id>,
    cardRecordId: Option<Id>,
    accountId: Option<Id>,
    accountRecordId: Option<Id>)

  /** Fields that carry nothing. */
  const Blank := Fields(None, None, None, None, None, None, None, None, None, None, None)

  datatype Request = Request(params: Fields, body: Fields)
}
