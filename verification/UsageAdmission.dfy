/** Which requests the governor admits, read off the registry, the limits and the usage snapshots; and what it then charges. */
module UsageAdmission {
  import opened Prelude
  import opened UsageSpec
  import opened UsageConservation
  import opened UsageBudgets
  import opened UsageConcurrency
  import CircuitBreaker

  /** One more such request stays within the limit of a scope that has used this much. */
  predicate Fits(l: LimitRecord, used: Consumption, monthly: real, r: RequestRecord) {
    && r.inputTokens <= l.maxInputTokens && r.outputTokens <= l.maxOutputTokens
    && used.requests + 1 <= l.maxRequestsDaily && used.active + 1 <= l.maxConcurrency
    && used.cost + r.cost <= l.dailyCost && monthly + r.cost <= l.monthlyCost
    && used.gpu + r.gpu <= l.gpuDaily && used.runtime + r.runtime <= l.runtimeDaily
    && r.retryNumber <= l.maxRetries && r.retryCost <= l.maxRetryCost
  }

  lemma {:induction false} ChecksExactly(limits: map<Scope, Limits>, b: Books, r: Request, day: int, month: int, scopes: seq<Scope>)
    ensures CheckScopes(limits, b, r, day, month, scopes).1.None?
       <==> forall s :: s in scopes ==> s in limits && Fits(limits[s], b.Daily((s, day)), b.Monthly((s, month)), r)
    decreases |scopes|
  {
    if scopes != [] {
      var x := scopes[0];
      var touched := b.Touch(x, day, month);
      assert forall s :: s in scopes <==> s == x || s in scopes[1..];
      assert forall s :: touched.Daily((s, day)) == b.Daily((s, day)) && touched.Monthly((s, month)) == b.Monthly((s, month));
      ChecksExactly(limits, touched, r, day, month, scopes[1..]);
    }
  }

  /** The model is known, it and its provider are enabled, and the request fits it. */
  predicate Servable(c: Config, r: RequestRecord) {
    && r.model in c.models && c.models[r.model].enabled
    && c.models[r.model].provider in c.providers && c.providers[c.models[r.model].provider].enabled
    && r.inputTokens + r.outputTokens <= c.models[r.model].contextWindow && r.outputTokens <= c.models[r.model].maxOutputTokens
  }

  /** The provider's circuit does not hold requests back. */
  predicate CircuitLets(u: Usage, provider: string, now: int) {
    provider in u.circuits && u.circuits[provider].openUntil.Some? ==> u.circuits[provider].openUntil.value <= now
  }

  /** A request is admitted exactly if it is new, servable, let through, and fits the limit of every scope it lists. */
  lemma AdmitsExactly(c: Config, u: Usage, r: Request, now: int)
    ensures Admit(c, u, r, now).1.Ok? <==>
              && r.id !in u.requests && Servable(c, r) && CircuitLets(u, c.models[r.model].provider, now)
              && forall s :: s in r.scopes ==>
                   s in c.limits && Fits(c.limits[s], u.books.Daily((s, Day(now))), u.books.Monthly((s, c.monthOf(Day(now)))), r)
  {
    ChecksExactly(c.limits, u.books, r, Day(now), c.monthOf(Day(now)), r.scopes);
    hide CheckScopes, ChargeScopes, Fits, Day;
  }

  /** The same in terms of what `usage_snapshot` shows of each listed scope at that time. */
  lemma SnapshotsDecide(c: Config, u: Usage, r: Request, now: int)
    ensures Admit(c, u, r, now).1.Ok? <==>
              && r.id !in u.requests && Servable(c, r) && CircuitLets(u, c.models[r.model].provider, now)
              && forall s :: s in r.scopes ==>
                   s in c.limits && Fits(c.limits[s], Snapshot(c, u, s, now).0, Snapshot(c, u, s, now).1, r)
  {
    AdmitsExactly(c, u, r, now);
    hide Fits, Admit;
  }

  // ----- why a request was refused -----

  /** What a refusal at one scope says is so. */
  predicate Breaks(l: LimitRecord, used: Consumption, monthly: real, r: RequestRecord, error: GovernanceError) {
    match error
    case InputCeiling => r.inputTokens > l.maxInputTokens
    case OutputCeiling => r.outputTokens > l.maxOutputTokens
    case RequestQuota => used.requests + 1 > l.maxRequestsDaily
    case Concurrency => used.active + 1 > l.maxConcurrency
    case DailyBudget => used.cost + r.cost > l.dailyCost
    case MonthlyBudget => monthly + r.cost > l.monthlyCost
    case GpuBudget => used.gpu + r.gpu > l.gpuDaily
    case RuntimeBudget => used.runtime + r.runtime > l.runtimeDaily
    case RetryLimit => r.retryNumber > l.maxRetries
    case RetryCost => r.retryCost > l.maxRetryCost
    case _ => false
  }

  /** Some listed scope has no limit of that kind, or is over its limit in that way. */
  predicate ScopeRefuses(limits: map<Scope, Limits>, b: Books, day: int, month: int, r: RequestRecord, scopes: seq<Scope>, error: GovernanceError) {
    exists i :: 0 <= i < |scopes| &&
      if scopes[i] in limits then Breaks(limits[scopes[i]], b.Daily((scopes[i], day)), b.Monthly((scopes[i], month)), r, error)
      else error == NoLimit(scopes[i].kind)
  }

  lemma {:induction false} CheckErrorIsTrue(limits: map<Scope, Limits>, b: Books, r: Request, day: int, month: int, scopes: seq<Scope>)
    requires CheckScopes(limits, b, r, day, month, scopes).1.Some?
    ensures ScopeRefuses(limits, b, day, month, r, scopes, CheckScopes(limits, b, r, day, month, scopes).1.value)
    decreases |scopes|
  {
    var x := scopes[0];
    var touched := b.Touch(x, day, month);
    var error := CheckScopes(limits, b, r, day, month, scopes).1.value;
    if x in limits && Check(limits[x], touched.Daily((x, day)), touched.Monthly((x, month)), r).None? {
      CheckErrorIsTrue(limits, touched, r, day, month, scopes[1..]);
      assert forall s :: touched.Daily((s, day)) == b.Daily((s, day)) && touched.Monthly((s, month)) == b.Monthly((s, month));
      hide Breaks, Check;
      var i :| 0 <= i < |scopes[1..]| &&
        if scopes[1..][i] in limits then
          Breaks(limits[scopes[1..][i]], touched.Daily((scopes[1..][i], day)), touched.Monthly((scopes[1..][i], month)), r, error)
        else error == NoLimit(scopes[1..][i].kind);
      assert scopes[i + 1] == scopes[1..][i];
    } else {
      assert scopes[0] == x;
    }
  }

  /** What each refusal of a request says is so. */
  lemma RefusalIsTrue(c: Config, u: Usage, r: Request, now: int)
    requires Admit(c, u, r, now).1.Err?
    ensures var day := Day(now);
            match Admit(c, u, r, now).1.error
            case DuplicateRequest => r.id in u.requests
            case UnknownModel => r.model !in c.models
            case UnknownProvider => r.model in c.models && c.models[r.model].provider !in c.providers
            case Disabled =>
              && r.model in c.models && c.models[r.model].provider in c.providers
              && (!c.models[r.model].enabled || !c.providers[c.models[r.model].provider].enabled)
            case CircuitOpen => r.model in c.models && !CircuitLets(u, c.models[r.model].provider, now)
            case ContextExceeded => r.model in c.models && r.inputTokens + r.outputTokens > c.models[r.model].contextWindow
            case OutputExceeded => r.model in c.models && r.outputTokens > c.models[r.model].maxOutputTokens
            case error => ScopeRefuses(c.limits, u.books, day, c.monthOf(day), r, r.scopes, error)
  {
    var day := Day(now);
    if CheckScopes(c.limits, u.books, r, day, c.monthOf(day), r.scopes).1.Some? {
      CheckErrorIsTrue(c.limits, u.books, r, day, c.monthOf(day), r.scopes);
      ScopeErrorsApart(c.limits, u.books, day, c.monthOf(day), r, r.scopes);
    }
    hide CheckScopes, ChargeScopes, Day, ScopeRefuses;
  }

  lemma ScopeErrorsApart(limits: map<Scope, Limits>, b: Books, day: int, month: int, r: RequestRecord, scopes: seq<Scope>)
    ensures forall error :: ScopeRefuses(limits, b, day, month, r, scopes, error) ==>
              error !in {DuplicateRequest, UnknownModel, UnknownProvider, Disabled, CircuitOpen, ContextExceeded, OutputExceeded}
  {
  }

  // ----- what an admission charges -----

  /** The daily, or the monthly, cost of a listed scope has reached the fraction of its limit that warns. */
  predicate WarnsDaily(limits: map<Scope, Limits>, b: Books, day: int, scopes: seq<Scope>) {
    exists s :: s in scopes && s in limits && b.Daily((s, day)).cost >= limits[s].dailyCost * limits[s].warningFraction
  }

  predicate WarnsMonthly(limits: map<Scope, Limits>, b: Books, month: int, scopes: seq<Scope>) {
    exists s :: s in scopes && s in limits && b.Monthly((s, month)) >= limits[s].monthlyCost * limits[s].warningFraction
  }

  lemma {:induction false} WarningsExactly(limits: map<Scope, Limits>, b: Books, r: Request, day: int, month: int, scopes: seq<Scope>, warnings: set<Warning>)
    requires ListedOnce(scopes) && forall s :: s in scopes ==> s in limits
    ensures var (after, all) := ChargeScopes(limits, b, r, day, month, scopes, warnings);
            && (DailyCostWarning in all <==> DailyCostWarning in warnings || WarnsDaily(limits, after, day, scopes))
            && (MonthlyCostWarning in all <==> MonthlyCostWarning in warnings || WarnsMonthly(limits, after, month, scopes))
    decreases |scopes|
  {
    if scopes != [] {
      var x, rest := scopes[0], scopes[1..];
      var charged := Charge(b, r, x, day, month);
      var more := WarningsOf(limits[x], charged.Daily((x, day)).cost, charged.Monthly((x, month)));
      WarningsExactly(limits, charged, r, day, month, rest, warnings + more);
      ChargedOnce(limits, charged, r, day, month, rest, warnings + more);
      var after := ChargeScopes(limits, charged, r, day, month, rest, warnings + more).0;
      assert x !in rest;
      assert after.Daily((x, day)) == charged.Daily((x, day)) && after.Monthly((x, month)) == charged.Monthly((x, month));
      FirstOrRest(limits, after, day, month, scopes);
      hide Charge, WarnsDaily, WarnsMonthly, ChargedExactly;
    }
  }

  lemma FirstOrRest(limits: map<Scope, Limits>, b: Books, day: int, month: int, scopes: seq<Scope>)
    requires scopes != [] && scopes[0] in limits
    ensures WarnsDaily(limits, b, day, scopes) <==>
            b.Daily((scopes[0], day)).cost >= limits[scopes[0]].dailyCost * limits[scopes[0]].warningFraction || WarnsDaily(limits, b, day, scopes[1..])
    ensures WarnsMonthly(limits, b, month, scopes) <==>
            b.Monthly((scopes[0], month)) >= limits[scopes[0]].monthlyCost * limits[scopes[0]].warningFraction || WarnsMonthly(limits, b, month, scopes[1..])
  {
    assert forall s :: s in scopes <==> s == scopes[0] || s in scopes[1..];
    hide Books.Daily, Books.Monthly;
  }

  /** An admitted request is charged once to each scope it lists, on that day and month, and its evidence says what it reserved. */
  lemma AdmitCharges(c: Config, u: Usage, r: Request, now: int)
    requires ListedOnce(r.scopes) && Admit(c, u, r, now).1.Ok?
    ensures var (u', e) := Admit(c, u, r, now);
            var day := Day(now);
            && ChargedExactly(u.books, u'.books, r, day, c.monthOf(day), r.scopes)
            && u'.requests == u.requests + {r.id} && u'.reconciled == u.reconciled
            && e.value == Evidence(r.id, r.tenant, c.models[r.model].id, c.models[r.model].provider, r.scopes, r.inputTokens, r.outputTokens,
                                   r.cost, r.gpu, r.runtime, now, e.value.warnings)
            && (DailyCostWarning in e.value.warnings <==> WarnsDaily(c.limits, u'.books, day, r.scopes))
            && (MonthlyCostWarning in e.value.warnings <==> WarnsMonthly(c.limits, u'.books, c.monthOf(day), r.scopes))
  {
    var day := Day(now);
    var touched := CheckScopes(c.limits, u.books, r, day, c.monthOf(day), r.scopes).0;
    AdmittedExactly(c, u, r, now);
    ChecksCoverScopes(c.limits, u.books, r, day, c.monthOf(day), r.scopes);
    WarningsExactly(c.limits, touched, r, day, c.monthOf(day), r.scopes, {});
    hide CheckScopes, ChargeScopes, ChargedExactly, Recorded, WarnsDaily, WarnsMonthly, Day, ListedOnce;
  }

  /** Two times are charged to the same daily record exactly if they lie between the same two midnights. */
  lemma SameDayExactly(a: int, b: int)
    ensures Day(a) == Day(b) <==> exists midnight :: midnight % 86400 == 0 && midnight <= a < midnight + 86400 && midnight <= b < midnight + 86400
  {
    if Day(a) == Day(b) {
      var midnight := 86400 * Day(a);
      assert midnight % 86400 == 0 && midnight <= a < midnight + 86400 && midnight <= b < midnight + 86400;
    }
  }
}
