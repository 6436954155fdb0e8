/**
 * `validateAuditPeriod`: reject an income/expense conflict, work out the
 * (year, half) the request is about, fall back to today's period when it
 * names none, load that audit period and let the request through only
 * while today lies in its closed window [start, end].
 */
module Validator {
  import opened Wrappers
  import opened Errors
  import opened Records
  import opened Calendar
  import opened Resolver

  /** `sanitizeInput`: the body may not name an income and an expense at once; route parameters are not inspected. */
  function SanitizeInput(req: Request): (r: Option<Error>)
    ensures r.Some? <==> Present(req.body.incomeId) && Present(req.body.expenseId)
    ensures r.Some? ==> r.value == BadRequest(IncomeWithExpense)
  {
    if Present(req.body.incomeId) && Present(req.body.expenseId) then Some(BadRequest(IncomeWithExpense))
    else None
  }

  /** Today lies in the period's window, both ends included. */
  predicate InWindow(period: AuditPeriod, instant: int) {
    period.start <= instant <= period.end
  }

  /** Load the audit period named `key` and compare `now` with its window; `branch` tags the error messages. */
  function CheckWindow(s: Store, key: PeriodKey, now: int, branch: Branch): (r: Outcome)
    ensures r == Proceed <==> key in s.auditPeriods && InWindow(s.auditPeriods[key], now)
    ensures r == Reject(NotFound(NoAuditPeriod(branch))) <==> key !in s.auditPeriods
    ensures r == Reject(Validation(branch)) <==> key in s.auditPeriods && !InWindow(s.auditPeriods[key], now)
  {
    if key !in s.auditPeriods then Reject(NotFound(NoAuditPeriod(branch)))
    else
      var period := s.auditPeriods[key];
      if now < period.start || now > period.end then Reject(Validation(branch))
      else Proceed
  }

  /** `validateAuditPeriod` with the store and the clock made explicit. */
  function ValidateAuditPeriod(s: Store, req: Request, now: Clock): (r: Outcome)
    ensures Present(req.body.incomeId) && Present(req.body.expenseId) ==> r == Reject(BadRequest(IncomeWithExpense))
    ensures r == Proceed ==> exists key :: key in s.auditPeriods && InWindow(s.auditPeriods[key], now.instant)
  {
    match SanitizeInput(req)
    case Some(e) => Reject(e)
    case None =>
      match FindYearAndHalf(s, req)
      case Failure(e) => Reject(e)
      case Success(pair) =>
        if Present(pair.year) && PresentText(pair.half) then
          CheckWindow(s, PeriodKey(pair.year.value, pair.half.value), now.instant, Requested)
        else if Present(pair.year) || PresentText(pair.half) then
          Reject(BadRequest(YearWithoutHalf))
        else
          CheckWindow(s, DefaultPeriod(now.year, now.month), now.instant, Current)
  }

  /** The conflict is decided before any lookup: the outcome depends on neither the store nor the clock. */
  lemma ConflictDecidedFirst(s: Store, s': Store, req: Request, now: Clock, now': Clock)
    requires Present(req.body.incomeId) && Present(req.body.expenseId)
    ensures ValidateAuditPeriod(s, req, now) == ValidateAuditPeriod(s', req, now') == Reject(BadRequest(IncomeWithExpense))
  {
  }

  /**
   * The requested period's window is closed at both ends: the request
   * proceeds iff the period exists and start <= now <= end; it is not found
   * iff the period is missing; it fails validation iff now is outside.
   */
  lemma RequestedWindowIsClosed(s: Store, req: Request, now: Clock)
    requires !(Present(req.body.incomeId) && Present(req.body.expenseId))
    requires FindYearAndHalf(s, req).Success?
    requires var p := FindYearAndHalf(s, req).value; Present(p.year) && PresentText(p.half)
    ensures var p := FindYearAndHalf(s, req).value;
      var key, r := PeriodKey(p.year.value, p.half.value), ValidateAuditPeriod(s, req, now);
      && (r == Proceed <==> key in s.auditPeriods && s.auditPeriods[key].start <= now.instant <= s.auditPeriods[key].end)
      && (r == Reject(NotFound(NoAuditPeriod(Requested))) <==> key !in s.auditPeriods)
      && (r == Reject(Validation(Requested)) <==>
            key in s.auditPeriods && (now.instant < s.auditPeriods[key].start || now.instant > s.auditPeriods[key].end))
  {
  }

  /**
   * When nothing is identified the period is the one today's month falls
   * in, and its window is closed at both ends in the same way.
   */
  lemma DefaultWindowIsClosed(s: Store, req: Request, now: Clock)
    requires NoIdentifiers(req)
    ensures var key, r := DefaultPeriod(now.year, now.month), ValidateAuditPeriod(s, req, now);
      && (r == Proceed <==> key in s.auditPeriods && s.auditPeriods[key].start <= now.instant <= s.auditPeriods[key].end)
      && (r == Reject(NotFound(NoAuditPeriod(Current))) <==> key !in s.auditPeriods)
      && (r == Reject(Validation(Current)) <==>
            key in s.auditPeriods && (now.instant < s.auditPeriods[key].start || now.instant > s.auditPeriods[key].end))
  {
    ResolutionOutcomes(s, req);
  }

  /** A resolved pair with exactly one truthy component is a bad request. */
  lemma PartialPairRejected(s: Store, req: Request, now: Clock)
    requires !(Present(req.body.incomeId) && Present(req.body.expenseId))
    requires FindYearAndHalf(s, req).Success?
    requires var p := FindYearAndHalf(s, req).value; Present(p.year) != PresentText(p.half)
    ensures ValidateAuditPeriod(s, req, now) == Reject(BadRequest(YearWithoutHalf))
  {
  }

  /** A failed lookup along the chain ends validation with that same not-found error. */
  lemma ChainFailureIsFinal(s: Store, req: Request, now: Clock)
    requires !(Present(req.body.incomeId) && Present(req.body.expenseId))
    requires FindYearAndHalf(s, req).Failure?
    ensures var e := FindYearAndHalf(s, req).error;
      e.NotFound? && ValidateAuditPeriod(s, req, now) == Reject(e)
  {
    ResolutionOutcomes(s, req);
  }

  /**
   * Once the request names an identifier, today's period is never
   * consulted and the year/half error cannot arise, provided the stored
   * records hold truthy years and halves: the outcome does not depend on
   * today's calendar year and month, only on the instant.
   */
  lemma IdentifiedRequestNeverDefaults(s: Store, req: Request, now: Clock, other: Clock)
    requires StoredPairsTruthy(s)
    requires !NoIdentifiers(req)
    requires other.instant == now.instant
    ensures ValidateAuditPeriod(s, req, now) == ValidateAuditPeriod(s, req, other)
    ensures var r := ValidateAuditPeriod(s, req, now);
      && r != Reject(NotFound(NoAuditPeriod(Current)))
      && r != Reject(Validation(Current))
      && r != Reject(BadRequest(YearWithoutHalf))
  {
    ResolutionOutcomes(s, req);
  }

  /**
   * A year without a half, or a half without a year, on the request is not
   * an error. In the route parameters or the body, the explicit branch
   * skips it. With no identifier the request is checked against today's
   * period, and the lone field makes no difference to the outcome.
   */
  lemma LoneYearOrHalfUsesDefault(s: Store, req: Request, now: Clock)
    requires NoIdentifiers(req)
    ensures ValidateAuditPeriod(s, req, now) == CheckWindow(s, DefaultPeriod(now.year, now.month), now.instant, Current)
    ensures ValidateAuditPeriod(s, req, now) == ValidateAuditPeriod(s, Request(Blank, Blank), now)
  {
    ResolutionOutcomes(s, req);
    ResolutionOutcomes(s, Request(Blank, Blank));
  }
}
