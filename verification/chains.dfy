/**
 * Properties of the resolution chains: each identifier kind leads to the
 * (year, half) of the root record it belongs to, a missing record at any
 * hop is reported as not found, and the transaction step prefers income.
 */
module Chains {
  import opened Wrappers
  import opened Errors
  import opened Records
  import opened Resolver

  /** A request naming a single id in one place and nothing else. */
  function OnlyId(source: Source, kind: Kind, id: Id): Request {
    WithId(Request(Blank, Blank), source, kind, Some(id))
  }

  /** `s` with a budget chain added: budget `b` of (year, half), income `i` in it, transaction `t` on the income, record `r` of the transaction. */
  function WithIncomeChain(s: Store, year: int, half: string, b: Id, i: Id, t: Id, r: Id): Store {
    s.(budgets := s.budgets[b := Budget(year, half)],
       incomes := s.incomes[i := Income(Some(b))],
       transactions := s.transactions[t := Transaction(Some(i), None)],
       transactionRecords := s.transactionRecords[r := TransactionRecord(Some(t))])
  }

  /** `s` with an account `a` of (year, half) and a record `r` of that account. */
  function WithAccountChain(s: Store, year: int, half: string, a: Id, r: Id): Store {
    s.(accounts := s.accounts[a := Account(year, half)],
       accountRecords := s.accountRecords[r := AccountRecord(Some(a))])
  }

  /** `s` with a card `c` of (year, half) and a record `r` of that card stamped with the same pair. */
  function WithCardChain(s: Store, year: int, half: string, c: Id, r: Id): Store {
    s.(cards := s.cards[c := Card(year, half)],
       cardRecords := s.cardRecords[r := CardRecord(Some(c), year, half)])
  }

  /**
   * Round trip through the budget chain: after storing a chain rooted at a
   * budget of (year, half), resolving a request that names any link of the
   * chain gives back exactly (year, half). Budget ids are read only from
   * the route parameters; the other ids from either place.
   */
  lemma IncomeChainRoundTrip(s: Store, year: int, half: string, b: Id, i: Id, t: Id, r: Id, source: Source)
    requires b != 0 && i != 0 && t != 0 && r != 0
    ensures var s' := WithIncomeChain(s, year, half, b, i, t, r);
      && FindYearAndHalf(s', OnlyId(Params, BudgetKind, b)) == Success(PairOf(year, half))
      && FindYearAndHalf(s', OnlyId(source, IncomeKind, i)) == Success(PairOf(year, half))
      && FindYearAndHalf(s', OnlyId(source, TransactionKind, t)) == Success(PairOf(year, half))
      && FindYearAndHalf(s', OnlyId(source, TransactionRecordKind, r)) == Success(PairOf(year, half))
  {
  }

  /** Round trip through the account chain, from the account or from its record. */
  lemma AccountChainRoundTrip(s: Store, year: int, half: string, a: Id, r: Id, source: Source)
    requires a != 0 && r != 0
    ensures var s' := WithAccountChain(s, year, half, a, r);
      && FindYearAndHalf(s', OnlyId(source, AccountKind, a)) == Success(PairOf(year, half))
      && FindYearAndHalf(s', OnlyId(source, AccountRecordKind, r)) == Success(PairOf(year, half))
  {
  }

  /** Round trip through the card chain, from the card or from its record. */
  lemma CardChainRoundTrip(s: Store, year: int, half: string, c: Id, r: Id, source: Source)
    requires c != 0 && r != 0
    ensures var s' := WithCardChain(s, year, half, c, r);
      && FindYearAndHalf(s', OnlyId(source, CardKind, c)) == Success(PairOf(year, half))
      && FindYearAndHalf(s', OnlyId(source, CardRecordKind, r)) == Success(PairOf(year, half))
  {
  }

  /**
   * The budget id in the body is never consulted: replacing it leaves every
   * request's resolution unchanged, and a request naming only that
   * identifies nothing.
   */
  lemma BodyBudgetIdIgnored(s: Store, req: Request, b: Option<Id>)
    ensures FindYearAndHalf(s, req.(body := req.body.(budgetId := b))) == FindYearAndHalf(s, req)
    ensures b.Some? ==> FindYearAndHalf(s, OnlyId(Body, BudgetKind, b.value)) == Success(NoPair)
  {
  }

  /**
   * A record missing at any hop is reported as that hop's own not-found
   * error, for every store; the as-written expense helper misses when the
   * income table lacks the id.
   */
  lemma MissingRootIsNotFound(s: Store, id: Id)
    ensures id !in s.budgets ==> ByBudgetId(s, Some(id)) == Failure(NotFound(NoBudget))
    ensures id !in s.cards ==> ByCardId(s, Some(id)) == Failure(NotFound(NoCard))
    ensures id !in s.cardRecords ==> ByCardRecordId(s, Some(id)) == Failure(NotFound(NoCardRecord))
    ensures id !in s.accounts ==> ByAccountId(s, Some(id)) == Failure(NotFound(NoAccount))
    ensures id !in s.accountRecords ==> ByAccountRecordId(s, Some(id)) == Failure(NotFound(NoAccountRecord))
    ensures id !in s.incomes ==> ByIncomeId(s, Some(id)) == Failure(NotFound(NoIncome))
    ensures id !in s.incomes ==> ByExpenseId(s, Some(id)) == Failure(NotFound(NoExpense))
    ensures id !in s.expenses ==> ByExpenseIdIntended(s, Some(id)) == Failure(NotFound(NoExpense))
    ensures id !in s.transactions ==> ByTransactionId(s, Some(id)) == Failure(NotFound(NoTransaction))
    ensures id !in s.transactionRecords ==> ByTransactionRecordId(s, Some(id)) == Failure(NotFound(NoTransactionRecord))
  {
  }

  /**
   * A card record is a root: it answers with its own stored pair even when
   * the card it belongs to holds another pair, or is missing.
   */
  lemma CardRecordAnswersItself(s: Store, r: Id)
    requires r in s.cardRecords
    ensures ByCardRecordId(s, Some(r)) == Success(PairOf(s.cardRecords[r].year, s.cardRecords[r].half))
  {
  }

  /**
   * The transaction step: a truthy income id is followed; otherwise a
   * truthy expense id; with neither the transaction's income/expense item
   * is reported missing.
   */
  lemma TransactionPrefersIncome(s: Store, t: Id)
    requires t in s.transactions
    ensures var tx, r := s.transactions[t], ByTransactionId(s, Some(t));
      && (Present(tx.incomeId) ==> r == ByIncomeId(s, tx.incomeId))
      && (!Present(tx.incomeId) && Present(tx.expenseId) ==> r == ByExpenseId(s, tx.expenseId))
      && (!Present(tx.incomeId) && !Present(tx.expenseId) ==> r == Failure(NotFound(NoIncomeOrExpense)))
  {
  }

  /**
   * Every hop of the longest chain reports its own missing record:
   * transaction record, transaction, income, then budget.
   */
  lemma TransactionRecordChainHops(s: Store, r: Id)
    ensures var res := ByTransactionRecordId(s, Some(r));
      && (r !in s.transactionRecords ==> res == Failure(NotFound(NoTransactionRecord)))
      && (r in s.transactionRecords ==>
            var t := s.transactionRecords[r].transactionId;
            && (Lookup(s.transactions, t).None? ==> res == Failure(NotFound(NoTransaction)))
            && (Lookup(s.transactions, t).Some? && Present(s.transactions[t.value].incomeId) ==>
                  var i := s.transactions[t.value].incomeId;
                  && (Lookup(s.incomes, i).None? ==> res == Failure(NotFound(NoIncome)))
                  && (Lookup(s.incomes, i).Some? && Lookup(s.budgets, s.incomes[i.value].budgetId).None? ==>
                        res == Failure(NotFound(NoBudget)))))
  {
  }

  /** Each hop of the account chain reports its own missing record. */
  lemma AccountRecordChainHops(s: Store, r: Id)
    ensures var res := ByAccountRecordId(s, Some(r));
      && (r !in s.accountRecords ==> res == Failure(NotFound(NoAccountRecord)))
      && (r in s.accountRecords && Lookup(s.accounts, s.accountRecords[r].accountId).None? ==>
            res == Failure(NotFound(NoAccount)))
  {
  }

  // ---------------------------------------------------------------------
  // The expense lookup.
  // ---------------------------------------------------------------------

  /** The income table read as if it were the expense table. */
  function IncomesAsExpenses(s: Store): map<Id, Expense> {
    map id | id in s.incomes :: Expense(s.incomes[id].budgetId)
  }

  /** As written, the expense helper behaves as the intended one would on a store whose expense table is its income table. */
  lemma ExpenseLookupReadsIncomes(s: Store, id: Option<Id>)
    ensures ByExpenseId(s, id) == ByExpenseIdIntended(s.(expenses := IncomesAsExpenses(s)), id)
  {
  }

  /**
   * Counterexample: a store holding budget 1 of (2023, spring) and
   * expense 1 in it, and no income. The expense id resolves to nothing as
   * written, and to the budget's pair as intended.
   */
  lemma ExpenseWithoutIncomeIsNotFound()
    ensures var s := Store(map[], map[1 := Budget(2023, "spring")], map[], map[1 := Expense(Some(1))],
                           map[], map[], map[], map[], map[], map[]);
      && FindYearAndHalf(s, OnlyId(Body, ExpenseKind, 1)) == Failure(NotFound(NoExpense))
      && ByExpenseIdIntended(s, Some(1)) == Success(PairOf(2023, "spring"))
  {
  }

  /** `s` with a budget `b` of (year, half) and an expense `e` in it. */
  function WithExpenseChain(s: Store, year: int, half: string, b: Id, e: Id): Store {
    s.(budgets := s.budgets[b := Budget(year, half)],
       expenses := s.expenses[e := Expense(Some(b))])
  }

  /** The intended expense helper completes the round trip: an expense stored in a budget resolves to that budget's pair. */
  lemma ExpenseChainRoundTripIntended(s: Store, year: int, half: string, b: Id, e: Id)
    ensures ByExpenseIdIntended(WithExpenseChain(s, year, half, b, e), Some(e)) == Success(PairOf(year, half))
  {
  }
}
