/**
 * `findYearAndHalf` and its chain helpers: work out which (year, half) a
 * request is about, either from explicit fields or by following foreign
 * keys from the referenced record up to a record that stores its own year
 * and half (Budget, Card, CardRecord or Account).
 */
module Resolver {
  import opened Wrappers
  import opened Errors
  import opened Records

  /** The object `findYearAndHalf` returns: `{year, half}`, either of which may be null. */
  datatype Pair = Pair(year: Option<int>, half: Option<string>)

  /** `{year: null, half: null}`: the request identified nothing. */
  const NoPair := Pair(None, None)

  function PairOf(year: int, half: string): Pair {
    Pair(Some(year), Some(half))
  }

  // ---------------------------------------------------------------------
  // The chain helpers, one per identifier kind.
  // ---------------------------------------------------------------------

  function ByCardId(s: Store, id: Option<Id>): Result<Pair, Error> {
    match Lookup(s.cards, id)
    case None => Failure(NotFound(NoCard))
    case Some(card) => Success(PairOf(card.year, card.half))
  }

  /** A card record answers with its own year and half; its card is not consulted. */
  function ByCardRecordId(s: Store, id: Option<Id>): Result<Pair, Error> {
    match Lookup(s.cardRecords, id)
    case None => Failure(NotFound(NoCardRecord))
    case Some(record) => Success(PairOf(record.year, record.half))
  }

  function ByAccountId(s: Store, id: Option<Id>): Result<Pair, Error> {
    match Lookup(s.accounts, id)
    case None => Failure(NotFound(NoAccount))
    case Some(account) => Success(PairOf(account.year, account.half))
  }

  function ByAccountRecordId(s: Store, id: Option<Id>): Result<Pair, Error> {
    match Lookup(s.accountRecords, id)
    case None => Failure(NotFound(NoAccountRecord))
    case Some(record) => ByAccountId(s, record.accountId)
  }

  function ByBudgetId(s: Store, id: Option<Id>): Result<Pair, Error> {
    match Lookup(s.budgets, id)
    case None => Failure(NotFound(NoBudget))
    case Some(budget) => Success(PairOf(budget.year, budget.half))
  }

  function ByIncomeId(s: Store, id: Option<Id>): Result<Pair, Error> {
    match Lookup(s.incomes, id)
    case None => Failure(NotFound(NoIncome))
    case Some(income) => ByBudgetId(s, income.budgetId)
  }

  /**
   * The expense helper as written: it looks the id up in the INCOME table,
   * reports a miss as a missing expense, and follows the income's budget.
   */
  function ByExpenseId(s: Store, id: Option<Id>): Result<Pair, Error> {
    match Lookup(s.incomes, id)
    case None => Failure(NotFound(NoExpense))
    case Some(income) => ByBudgetId(s, income.budgetId)
  }

  /** The expense helper as evidently intended: it looks the id up in the expense table. */
  function ByExpenseIdIntended(s: Store, id: Option<Id>): Result<Pair, Error> {
    match Lookup(s.expenses, id)
    case None => Failure(NotFound(NoExpense))
    case Some(expense) => ByBudgetId(s, expense.budgetId)
  }

  /** A transaction follows its income when it names one, else its expense, else fails. */
  function ByTransactionId(s: Store, id: Option<Id>): Result<Pair, Error> {
    match Lookup(s.transactions, id)
    case None => Failure(NotFound(NoTransaction))
    case Some(t) =>
      if Present(t.incomeId) then ByIncomeId(s, t.incomeId)
      else if Present(t.expenseId) then ByExpenseId(s, t.expenseId)
      else Failure(NotFound(NoIncomeOrExpense))
  }

  function ByTransactionRecordId(s: Store, id: Option<Id>): Result<Pair, Error> {
    match Lookup(s.transactionRecords, id)
    case None => Failure(NotFound(NoTransactionRecord))
    case Some(record) => ByTransactionId(s, record.transactionId)
  }

  /**
   * `findYearAndHalf`: the first identifying field that is truthy decides,
   * in the fixed order below; with none, the pair is `{null, null}`.
   */
  function FindYearAndHalf(s: Store, req: Request): Result<Pair, Error> {
    var p, b := req.params, req.body;
    if Present(p.year) && PresentText(p.half) then Success(Pair(p.year, p.half))
    else if Present(b.year) && PresentText(b.half) then Success(Pair(b.year, b.half))
    else if Present(p.budgetId) then ByBudgetId(s, p.budgetId)
    else if Present(p.incomeId) then ByIncomeId(s, p.incomeId)
    else if Present(b.incomeId) then ByIncomeId(s, b.incomeId)
    else if Present(p.expenseId) then ByExpenseId(s, p.expenseId)
    else if Present(b.expenseId) then ByExpenseId(s, b.expenseId)
    else if Present(p.transactionId) then ByTransactionId(s, p.transactionId)
    else if Present(b.transactionId) then ByTransactionId(s, b.transactionId)
    else if Present(p.transactionRecordId) then ByTransactionRecordId(s, p.transactionRecordId)
    else if Present(b.transactionRecordId) then ByTransactionRecordId(s, b.transactionRecordId)
    else if Present(p.cardId) then ByCardId(s, p.cardId)
    else if Present(b.cardId) then ByCardId(s, b.cardId)
    else if Present(p.cardRecordId) then ByCardRecordId(s, p.cardRecordId)
    else if Present(b.cardRecordId) then ByCardRecordId(s, b.cardRecordId)
    else if Present(p.accountId) then ByAccountId(s, p.accountId)
    else if Present(b.accountId) then ByAccountId(s, b.accountId)
    else if Present(p.accountRecordId) then ByAccountRecordId(s, p.accountRecordId)
    else if Present(b.accountRecordId) then ByAccountRecordId(s, b.accountRecordId)
    else Success(NoPair)
  }

  // ---------------------------------------------------------------------
  // The same resolution as a priority table: a list of probes, each naming
  // where to look and what to follow, scanned until the first one that hits.
  // ---------------------------------------------------------------------

  datatype Source = Params | Body

  datatype Kind =
    | BudgetKind | IncomeKind | ExpenseKind | TransactionKind | TransactionRecordKind
    | CardKind | CardRecordKind | AccountKind | AccountRecordKind

  /** One entry of the priority order: explicit year and half, or an id of some kind. */
  datatype Probe = Explicit(source: Source) | ById(source: Source, kind: Kind)

  const Priority: seq<Probe> := [
    Explicit(Params), Explicit(Body),
    ById(Params, BudgetKind),
    ById(Params, IncomeKind), ById(Body, IncomeKind),
    ById(Params, ExpenseKind), ById(Body, ExpenseKind),
    ById(Params, TransactionKind), ById(Body, TransactionKind),
    ById(Params, TransactionRecordKind), ById(Body, TransactionRecordKind),
    ById(Params, CardKind), ById(Body, CardKind),
    ById(Params, CardRecordKind), ById(Body, CardRecordKind),
    ById(Params, AccountKind), ById(Body, AccountKind),
    ById(Params, AccountRecordKind), ById(Body, AccountRecordKind)
  ]

  function FieldsOf(req: Request, source: Source): Fields {
    match source
    case Params => req.params
    case Body => req.body
  }

  function IdOf(f: Fields, kind: Kind): Option<Id> {
    match kind
    case BudgetKind => f.budgetId
    case IncomeKind => f.incomeId
    case ExpenseKind => f.expenseId
    case TransactionKind => f.transactionId
    case TransactionRecordKind => f.transactionRecordId
    case CardKind => f.cardId
    case CardRecordKind => f.cardRecordId
    case AccountKind => f.accountId
    case AccountRecordKind => f.accountRecordId
  }

  /** The probe finds something on the request: both explicit fields, or its id, are truthy. */
  predicate Hits(req: Request, p: Probe) {
    var f := FieldsOf(req, p.source);
    match p
    case Explicit(_) => Present(f.year) && PresentText(f.half)
    case ById(_, kind) => Present(IdOf(f, kind))
  }

  /** The chain helper for each identifier kind. */
  function Follow(s: Store, kind: Kind, id: Option<Id>): Result<Pair, Error> {
    match kind
    case BudgetKind => ByBudgetId(s, id)
    case IncomeKind => ByIncomeId(s, id)
    case ExpenseKind => ByExpenseId(s, id)
    case TransactionKind => ByTransactionId(s, id)
    case TransactionRecordKind => ByTransactionRecordId(s, id)
    case CardKind => ByCardId(s, id)
    case CardRecordKind => ByCardRecordId(s, id)
    case AccountKind => ByAccountId(s, id)
    case AccountRecordKind => ByAccountRecordId(s, id)
  }

  /** What a probe that hits answers. */
  function Answer(s: Store, req: Request, p: Probe): Result<Pair, Error> {
    var f := FieldsOf(req, p.source);
    match p
    case Explicit(_) => Success(Pair(f.year, f.half))
    case ById(_, kind) => Follow(s, kind, IdOf(f, kind))
  }

  /** Scan the table from entry `i` on: the first entry that hits answers; past the end, nothing was identified. */
  function ResolveFrom(s: Store, req: Request, i: nat): Result<Pair, Error>
    requires i <= |Priority|
    decreases |Priority| - i
  {
    if i == |Priority| then Success(NoPair)
    else if Hits(req, Priority[i]) then Answer(s, req, Priority[i])
    else ResolveFrom(s, req, i + 1)
  }

  /** No entry of the table hits: the request carries no identifier at all. */
  predicate NoIdentifiers(req: Request) {
    forall j :: 0 <= j < |Priority| ==> !Hits(req, Priority[j])
  }

  /** The if/else chain of `findYearAndHalf` is exactly the table scan. */
  lemma {:induction false} ChainIsTableScan(s: Store, req: Request)
    ensures FindYearAndHalf(s, req) == ResolveFrom(s, req, 0)
  {
    assert Priority[0] == Explicit(Params);
    assert Priority[1] == Explicit(Body);
    assert Priority[2] == ById(Params, BudgetKind);
    assert Priority[3] == ById(Params, IncomeKind);
    assert Priority[4] == ById(Body, IncomeKind);
    assert Priority[5] == ById(Params, ExpenseKind);
    assert Priority[6] == ById(Body, ExpenseKind);
    assert Priority[7] == ById(Params, TransactionKind);
    assert Priority[8] == ById(Body, TransactionKind);
    assert Priority[9] == ById(Params, TransactionRecordKind);
    assert Priority[10] == ById(Body, TransactionRecordKind);
    assert Priority[11] == ById(Params, CardKind);
    assert Priority[12] == ById(Body, CardKind);
    assert Priority[13] == ById(Params, CardRecordKind);
    assert Priority[14] == ById(Body, CardRecordKind);
    assert Priority[15] == ById(Params, AccountKind);
    assert Priority[16] == ById(Body, AccountKind);
    assert Priority[17] == ById(Params, AccountRecordKind);
    assert Priority[18] == ById(Body, AccountRecordKind);
    forall k | 0 <= k < |Priority|
      ensures ResolveFrom(s, req, k) == if Hits(req, Priority[k]) then Answer(s, req, Priority[k]) else ResolveFrom(s, req, k + 1)
    {
    }
    assert ResolveFrom(s, req, |Priority|) == Success(NoPair);
  }

  /** Entries that miss can be skipped: the scan's answer is decided further on. */
  lemma {:induction false} SkipMisses(s: Store, req: Request, i: nat, k: nat)
    requires i <= k <= |Priority|
    requires forall j :: i <= j < k ==> !Hits(req, Priority[j])
    ensures ResolveFrom(s, req, i) == ResolveFrom(s, req, k)
    decreases k - i
  {
    if i < k {
      SkipMisses(s, req, i + 1, k);
    }
  }

  /** First match wins: the first entry of the priority order that the request hits decides the result. */
  lemma FirstHitDecides(s: Store, req: Request, i: nat)
    requires i < |Priority| && Hits(req, Priority[i])
    requires forall j :: 0 <= j < i ==> !Hits(req, Priority[j])
    ensures FindYearAndHalf(s, req) == Answer(s, req, Priority[i])
  {
    ChainIsTableScan(s, req);
    SkipMisses(s, req, 0, i);
  }

  /** The fields a probe reads are the same on both requests. */
  predicate Agree(req: Request, req': Request, p: Probe) {
    var f, g := FieldsOf(req, p.source), FieldsOf(req', p.source);
    match p
    case Explicit(_) => f.year == g.year && f.half == g.half
    case ById(_, kind) => IdOf(f, kind) == IdOf(g, kind)
  }

  lemma {:induction false} AgreeingScansAgree(s: Store, req: Request, req': Request, i: nat, k: nat)
    requires i <= k < |Priority| && Hits(req, Priority[k])
    requires forall j :: i <= j <= k ==> Agree(req, req', Priority[j])
    ensures ResolveFrom(s, req, i) == ResolveFrom(s, req', i)
    decreases k - i
  {
    assert Agree(req, req', Priority[i]);
    if !Hits(req, Priority[i]) {
      AgreeingScansAgree(s, req, req', i + 1, k);
    }
  }

  /**
   * Lower-priority fields never matter: a second request that agrees with
   * the first on every entry up to one the first request hits resolves the
   * same way, whatever it carries further down the order.
   */
  lemma LowerPriorityIgnored(s: Store, req: Request, req': Request, i: nat)
    requires i < |Priority| && Hits(req, Priority[i])
    requires forall j :: 0 <= j <= i ==> Agree(req, req', Priority[j])
    ensures FindYearAndHalf(s, req') == FindYearAndHalf(s, req)
  {
    ChainIsTableScan(s, req);
    ChainIsTableScan(s, req');
    AgreeingScansAgree(s, req, req', 0, i);
  }

  /**
   * A budget lookup that succeeds yields the budget's stored pair, truthy
   * when the store's are. The body only names the key so that the store's
   * quantified truthiness fact is instantiated.
   */
  lemma BudgetYieldsStoredPair(s: Store, id: Option<Id>)
    requires StoredPairsTruthy(s)
    ensures var r := ByBudgetId(s, id);
      r.Success? ==> Present(r.value.year) && PresentText(r.value.half)
  {
    if Lookup(s.budgets, id).Some? {
      var k := id.value;
      assert k in s.budgets;
    }
  }

  /** In a store whose roots hold truthy pairs, every chain that succeeds yields a truthy pair. */
  lemma FollowYieldsStoredPair(s: Store, kind: Kind, id: Option<Id>)
    requires StoredPairsTruthy(s)
    ensures var r := Follow(s, kind, id);
      r.Success? ==> Present(r.value.year) && PresentText(r.value.half)
  {
    match kind
    case BudgetKind =>
      BudgetYieldsStoredPair(s, id);
    case IncomeKind =>
      if Lookup(s.incomes, id).Some? {
        BudgetYieldsStoredPair(s, s.incomes[id.value].budgetId);
      }
    case ExpenseKind =>
      if Lookup(s.incomes, id).Some? {
        BudgetYieldsStoredPair(s, s.incomes[id.value].budgetId);
      }
    case TransactionKind =>
      TransactionYieldsStoredPair(s, id);
    case TransactionRecordKind =>
      if Lookup(s.transactionRecords, id).Some? {
        TransactionYieldsStoredPair(s, s.transactionRecords[id.value].transactionId);
      }
    case CardKind =>
      if Lookup(s.cards, id).Some? {
        var k := id.value;
        assert k in s.cards;
      }
    case CardRecordKind =>
      if Lookup(s.cardRecords, id).Some? {
        var k := id.value;
        assert k in s.cardRecords;
      }
    case AccountKind =>
      if Lookup(s.accounts, id).Some? {
        var k := id.value;
        assert k in s.accounts;
      }
    case AccountRecordKind =>
      if Lookup(s.accountRecords, id).Some? {
        var a := s.accountRecords[id.value].accountId;
        if Lookup(s.accounts, a).Some? {
          var k := a.value;
          assert k in s.accounts;
        }
      }
  }

  /**
   * The same for the transaction step. The body only walks to the budget
   * lookup so that `BudgetYieldsStoredPair` applies.
   */
  lemma TransactionYieldsStoredPair(s: Store, id: Option<Id>)
    requires StoredPairsTruthy(s)
    ensures var r := ByTransactionId(s, id);
      r.Success? ==> Present(r.value.year) && PresentText(r.value.half)
  {
    if Lookup(s.transactions, id).Some? {
      var t := s.transactions[id.value];
      if Present(t.incomeId) {
        if Lookup(s.incomes, t.incomeId).Some? {
          BudgetYieldsStoredPair(s, s.incomes[t.incomeId.value].budgetId);
        }
      } else if Lookup(s.incomes, t.expenseId).Some? {
        BudgetYieldsStoredPair(s, s.incomes[t.expenseId.value].budgetId);
      }
    }
  }

  /** What the scan from entry `i` can produce. */
  lemma {:induction false} ScanOutcome(s: Store, req: Request, i: nat)
    requires i <= |Priority|
    ensures var r := ResolveFrom(s, req, i);
      && (r == Success(NoPair) <==> forall j :: i <= j < |Priority| ==> !Hits(req, Priority[j]))
      && (r.Success? && r != Success(NoPair) ==> r.value.year.Some? && r.value.half.Some?)
      && (r.Failure? ==> r.error.NotFound? && !r.error.missing.NoAuditPeriod?)
    decreases |Priority| - i
  {
    if i < |Priority| && !Hits(req, Priority[i]) {
      ScanOutcome(s, req, i + 1);
    }
  }

  /** In a store whose roots hold truthy pairs, the scan yields truthy pairs or none. */
  lemma {:induction false} ScanYieldsTruthyPairs(s: Store, req: Request, i: nat)
    requires i <= |Priority|
    requires StoredPairsTruthy(s)
    ensures var r := ResolveFrom(s, req, i);
      r.Success? && r != Success(NoPair) ==> Present(r.value.year) && PresentText(r.value.half)
    decreases |Priority| - i
  {
    if i < |Priority| {
      var p := Priority[i];
      if !Hits(req, p) {
        ScanYieldsTruthyPairs(s, req, i + 1);
      } else if p.ById? {
        FollowYieldsStoredPair(s, p.kind, IdOf(FieldsOf(req, p.source), p.kind));
      }
    }
  }

  /**
   * `{null, null}` comes back exactly when the request carries no
   * identifier; any other success carries both a year and a half (truthy
   * ones when the stored records hold truthy ones), and every failure is a
   * record that was not found.
   */
  lemma ResolutionOutcomes(s: Store, req: Request)
    ensures var r := FindYearAndHalf(s, req);
      && (r == Success(NoPair) <==> NoIdentifiers(req))
      && (r.Success? && r != Success(NoPair) ==> r.value.year.Some? && r.value.half.Some?)
      && (r.Failure? ==> r.error.NotFound? && !r.error.missing.NoAuditPeriod?)
      && (StoredPairsTruthy(s) && r.Success? && r != Success(NoPair) ==> Present(r.value.year) && PresentText(r.value.half))
  {
    ChainIsTableScan(s, req);
    ScanOutcome(s, req, 0);
    if StoredPairsTruthy(s) {
      ScanYieldsTruthyPairs(s, req, 0);
    }
  }

  /** Explicit year and half in the route parameters win over every other field. */
  lemma ExplicitParamsWin(s: Store, req: Request)
    requires Present(req.params.year) && PresentText(req.params.half)
    ensures FindYearAndHalf(s, req) == Success(Pair(req.params.year, req.params.half))
  {
  }

  /** The request with one id field replaced. */
  function WithId(req: Request, source: Source, kind: Kind, id: Option<Id>): Request {
    var f := FieldsOf(req, source);
    var f' := match kind
      case BudgetKind => f.(budgetId := id)
      case IncomeKind => f.(incomeId := id)
      case ExpenseKind => f.(expenseId := id)
      case TransactionKind => f.(transactionId := id)
      case TransactionRecordKind => f.(transactionRecordId := id)
      case CardKind => f.(cardId := id)
      case CardRecordKind => f.(cardRecordId := id)
      case AccountKind => f.(accountId := id)
      case AccountRecordKind => f.(accountRecordId := id);
    match source
    case Params => req.(params := f')
    case Body => req.(body := f')
  }

  /** A zero id is falsy: it is skipped exactly as a missing one is. */
  lemma ZeroIdIsAbsent(s: Store, req: Request, i: nat)
    requires i < |Priority| && Priority[i].ById?
    ensures var p := Priority[i];
      FindYearAndHalf(s, WithId(req, p.source, p.kind, Some(0))) == FindYearAndHalf(s, WithId(req, p.source, p.kind, None))
  {
  }

  /**
   * Explicit fields are used only in pairs: a year whose half is falsy in
   * the same place, or a half whose year is falsy, is skipped exactly as if
   * it were absent, in the route parameters and in the body alike.
   */
  lemma LoneYearOrHalfSkipped(s: Store, req: Request)
    ensures !PresentText(req.params.half) ==>
      FindYearAndHalf(s, req) == FindYearAndHalf(s, req.(params := req.params.(year := None)))
    ensures !Present(req.params.year) ==>
      FindYearAndHalf(s, req) == FindYearAndHalf(s, req.(params := req.params.(half := None)))
    ensures !PresentText(req.body.half) ==>
      FindYearAndHalf(s, req) == FindYearAndHalf(s, req.(body := req.body.(year := None)))
    ensures !Present(req.body.year) ==>
      FindYearAndHalf(s, req) == FindYearAndHalf(s, req.(body := req.body.(half := None)))
  {
  }
}
