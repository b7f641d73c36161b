/** Admission, reconciliation and completion of the usage governor, as functions of its books. */
module UsageSpec {
  import opened Prelude
  import CircuitBreaker

  datatype ScopeKind = User | Tenant | Project | Job | ProviderKind | ModelKind

  datatype Scope = Scope(kind: ScopeKind, id: string)

  datatype Provider = Provider(id: string, enabled: bool)

  datatype Model = Model(
    id: string, provider: string, contextWindow: int, maxOutputTokens: int, enabled: bool)

  /** `UsageLimits`; decimals are exact reals. */
  datatype LimitRecord = LimitRecord(
    maxInputTokens: int, maxOutputTokens: int, maxRequestsDaily: int, maxConcurrency: int,
    dailyCost: real, monthlyCost: real, gpuDaily: real, runtimeDaily: real,
    warningFraction: real, maxRetries: int, maxRetryCost: real)
  {
    predicate Valid() {
      && maxInputTokens > 0 && maxOutputTokens > 0 && maxRequestsDaily > 0 && maxConcurrency > 0
      && dailyCost >= 0.0 && monthlyCost >= 0.0 && gpuDaily >= 0.0 && runtimeDaily >= 0.0
      && maxRetries >= 0 && maxRetryCost >= 0.0 && 0.0 < warningFraction <= 1.0
    }
  }

  type Limits = l: LimitRecord | l.Valid() witness LimitRecord(1, 1, 1, 1, 0.0, 0.0, 0.0, 0.0, 0.8, 0, 0.0)

  /** `UsageRequest`. */
  datatype RequestRecord = RequestRecord(
    id: string, tenant: string, scopes: seq<Scope>, model: string, inputTokens: int, outputTokens: int,
    cost: real, gpu: real, runtime: real, retryNumber: int, retryCost: real)
  {
    predicate Valid() {
      && HasTenant(scopes)
      && inputTokens >= 0 && outputTokens >= 0 && retryNumber >= 0
      && cost >= 0.0 && gpu >= 0.0 && runtime >= 0.0 && retryCost >= 0.0
    }
  }

  predicate HasTenant(scopes: seq<Scope>) {
    exists i :: 0 <= i < |scopes| && scopes[i].kind == Tenant
  }

  const A_TENANT := Scope(Tenant, "t")

  type Request = r: RequestRecord | r.Valid()
    ghost witness (var r := RequestRecord("r", "t", [A_TENANT], "m", 0, 0, 0.0, 0.0, 0.0, 0, 0.0);
                   assert r.scopes[0].kind == Tenant; r)

  datatype Warning = DailyCostWarning | MonthlyCostWarning

  /** `UsageEvidence`. */
  datatype Evidence = Evidence(
    id: string, tenant: string, model: string, provider: string, scopes: seq<Scope>,
    inputTokens: int, outputTokens: int, cost: real, gpu: real, runtime: real,
    admittedAt: int, warnings: set<Warning>)

  datatype GovernanceError =
    | DuplicateRequest | UnknownModel | UnknownProvider | Disabled | CircuitOpen
    | ContextExceeded | OutputExceeded | NoLimit(kind: ScopeKind)
    | InputCeiling | OutputCeiling | RequestQuota | Concurrency | DailyBudget | MonthlyBudget
    | GpuBudget | RuntimeBudget | RetryLimit | RetryCost
    | NegativeActual | ActualExceedsReserved | AlreadyReconciled | ReservationUnavailable
    | AccountingNegative | NotActive

  /** `_Consumption` of one scope on one day. */
  datatype Consumption = Consumption(requests: int, cost: real, gpu: real, runtime: real, active: int)

  const ZERO := Consumption(0, 0.0, 0.0, 0.0, 0)

  type Key = (Scope, int)

  /** The day and month buckets; of a month record only the cost is ever used. */
  datatype Books = Books(daily: map<Key, Consumption>, monthly: map<Key, real>) {
    function Daily(k: Key): Consumption { if k in daily then daily[k] else ZERO }

    function Monthly(k: Key): real { if k in monthly then monthly[k] else 0.0 }

    /** `setdefault` of both records of a scope. */
    function Touch(s: Scope, day: int, month: int): Books {
      Books(daily[(s, day) := Daily((s, day))], monthly[(s, month) := Monthly((s, month))])
    }
  }

  datatype Config = Config(
    models: map<string, Model>, providers: map<string, Provider>, limits: map<Scope, Limits>,
    circuit: CircuitBreaker.Policy, monthOf: int -> int)

  function Day(now: int): int { now / 86400 }

  datatype Usage = Usage(
    books: Books, requests: set<string>, reconciled: set<string>,
    circuits: map<string, CircuitBreaker.Circuit>)

  const EMPTY := Usage(Books(map[], map[]), {}, {}, map[])

  function CircuitOf(circuits: map<string, CircuitBreaker.Circuit>, provider: string): CircuitBreaker.Circuit {
    if provider in circuits then circuits[provider] else CircuitBreaker.FRESH
  }

  /** What `provider_health` returns. */
  datatype ProviderHealth = ProviderHealth(id: string, enabled: bool, circuit: CircuitBreaker.Health)

  // ----- admission -----

  /** `_check`, in source order. */
  function Check(limit: Limits, daily: Consumption, monthly: real, r: Request): Option<GovernanceError> {
    if r.inputTokens > limit.maxInputTokens then Some(InputCeiling)
    else if r.outputTokens > limit.maxOutputTokens then Some(OutputCeiling)
    else if daily.requests + 1 > limit.maxRequestsDaily then Some(RequestQuota)
    else if daily.active + 1 > limit.maxConcurrency then Some(Concurrency)
    else if daily.cost + r.cost > limit.dailyCost then Some(DailyBudget)
    else if monthly + r.cost > limit.monthlyCost then Some(MonthlyBudget)
    else if daily.gpu + r.gpu > limit.gpuDaily then Some(GpuBudget)
    else if daily.runtime + r.runtime > limit.runtimeDaily then Some(RuntimeBudget)
    else if r.retryNumber > limit.maxRetries then Some(RetryLimit)
    else if r.retryCost > limit.maxRetryCost then Some(RetryCost)
    else None
  }

  /** The checking loop: it leaves empty records behind, and stops at the first violation. */
  function CheckScopes(limits: map<Scope, Limits>, b: Books, r: Request, day: int, month: int, scopes: seq<Scope>)
    : (Books, Option<GovernanceError>)
    decreases |scopes|
  {
    if scopes == [] then (b, None)
    else
      var s := scopes[0];
      if s !in limits then (b, Some(NoLimit(s.kind)))
      else
        var touched := b.Touch(s, day, month);
        var error := Check(limits[s], touched.Daily((s, day)), touched.Monthly((s, month)), r);
        if error.Some? then (touched, error)
        else CheckScopes(limits, touched, r, day, month, scopes[1..])
  }

  function Charge(b: Books, r: Request, s: Scope, day: int, month: int): Books {
    var d := b.Daily((s, day));
    Books(b.daily[(s, day) := Consumption(d.requests + 1, d.cost + r.cost, d.gpu + r.gpu, d.runtime + r.runtime, d.active + 1)],
          b.monthly[(s, month) := b.Monthly((s, month)) + r.cost])
  }

  function WarningsOf(limit: Limits, dailyCost: real, monthlyCost: real): set<Warning> {
    (if dailyCost >= limit.dailyCost * limit.warningFraction then {DailyCostWarning} else {})
    + (if monthlyCost >= limit.monthlyCost * limit.warningFraction then {MonthlyCostWarning} else {})
  }

  /** The committing loop. */
  function ChargeScopes(limits: map<Scope, Limits>, b: Books, r: Request, day: int, month: int, scopes: seq<Scope>, warnings: set<Warning>)
    : (Books, set<Warning>)
    requires forall s :: s in scopes ==> s in limits
    decreases |scopes|
  {
    if scopes == [] then (b, warnings)
    else
      var s := scopes[0];
      var charged := Charge(b, r, s, day, month);
      var more := WarningsOf(limits[s], charged.Daily((s, day)).cost, charged.Monthly((s, month)));
      ChargeScopes(limits, charged, r, day, month, scopes[1..], warnings + more)
  }

  /** `admit`. A refusal may still have touched records and closed an elapsed circuit. */
  function Admit(c: Config, u: Usage, r: Request, now: int): (Usage, Result<Evidence, GovernanceError>) {
    if r.id in u.requests then (u, Err(DuplicateRequest))
    else if r.model !in c.models then (u, Err(UnknownModel))
    else
      var model := c.models[r.model];
      if model.provider !in c.providers then (u, Err(UnknownProvider))
      else if !model.enabled || !c.providers[model.provider].enabled then (u, Err(Disabled))
      else
        var circuit := CircuitOf(u.circuits, model.provider);
        var gated := u.(circuits := u.circuits[model.provider := CircuitBreaker.Gate(circuit, now)]);
        if CircuitBreaker.Open(circuit, now) then (gated, Err(CircuitOpen))
        else if r.inputTokens + r.outputTokens > model.contextWindow then (gated, Err(ContextExceeded))
        else if r.outputTokens > model.maxOutputTokens then (gated, Err(OutputExceeded))
        else AdmitScopes(c, gated, r, now, model)
  }

  function AdmitScopes(c: Config, u: Usage, r: Request, now: int, model: Model): (Usage, Result<Evidence, GovernanceError>) {
    var day := Day(now);
    var month := c.monthOf(day);
    var (touched, error) := CheckScopes(c.limits, u.books, r, day, month, r.scopes);
    if error.Some? then (u.(books := touched), Err(error.value))
    else
      ChecksCoverScopes(c.limits, u.books, r, day, month, r.scopes);
      var (charged, warnings) := ChargeScopes(c.limits, touched, r, day, month, r.scopes, {});
      (u.(books := charged, requests := u.requests + {r.id}),
       Ok(Evidence(r.id, r.tenant, model.id, model.provider, r.scopes, r.inputTokens, r.outputTokens,
                   r.cost, r.gpu, r.runtime, now, warnings)))
  }

  lemma {:induction false} ChecksCoverScopes(limits: map<Scope, Limits>, b: Books, r: Request, day: int, month: int, scopes: seq<Scope>)
    requires CheckScopes(limits, b, r, day, month, scopes).1 == None
    ensures forall s :: s in scopes ==> s in limits
    decreases |scopes|
  {
    if scopes != [] {
      ChecksCoverScopes(limits, b.Touch(scopes[0], day, month), r, day, month, scopes[1..]);
    }
  }

  // ----- reconciliation and completion -----

  function ReconcileScopes(b: Books, difference: real, day: int, month: int, scopes: seq<Scope>)
    : (Books, Option<GovernanceError>)
    decreases |scopes|
  {
    if scopes == [] then (b, None)
    else
      var d, m := (scopes[0], day), (scopes[0], month);
      if d !in b.daily || m !in b.monthly then (b, Some(ReservationUnavailable))
      else if b.daily[d].cost < difference || b.monthly[m] < difference then (b, Some(AccountingNegative))
      else ReconcileScopes(Refund(b, difference, d, m), difference, day, month, scopes[1..])
  }

  function Refund(b: Books, difference: real, d: Key, m: Key): Books {
    Books(b.daily[d := b.Daily(d).(cost := b.Daily(d).cost - difference)],
          b.monthly[m := b.Monthly(m) - difference])
  }

  /** `reconcile_cost`; a failing loop keeps what it has already refunded. */
  function Reconcile(c: Config, u: Usage, e: Evidence, actual: real): (Usage, Option<GovernanceError>) {
    if actual < 0.0 then (u, Some(NegativeActual))
    else if actual > e.cost then (u, Some(ActualExceedsReserved))
    else if e.id in u.reconciled then (u, Some(AlreadyReconciled))
    else
      var day := Day(e.admittedAt);
      var (books, error) := ReconcileScopes(u.books, e.cost - actual, day, c.monthOf(day), e.scopes);
      (u.(books := books, reconciled := if error.None? then u.reconciled + {e.id} else u.reconciled), error)
  }

  function CompleteScopes(b: Books, day: int, scopes: seq<Scope>): (Books, Option<GovernanceError>)
    decreases |scopes|
  {
    if scopes == [] then (b, None)
    else
      var d := (scopes[0], day);
      if d !in b.daily || b.daily[d].active <= 0 then (b, Some(NotActive))
      else CompleteScopes(Release(b, d), day, scopes[1..])
  }

  function Release(b: Books, d: Key): Books {
    b.(daily := b.daily[d := b.Daily(d).(active := b.Daily(d).active - 1)])
  }

  /** `complete`. */
  function Complete(u: Usage, e: Evidence): (Usage, Option<GovernanceError>) {
    var (books, error) := CompleteScopes(u.books, Day(e.admittedAt), e.scopes);
    (u.(books := books), error)
  }

  /** `usage_snapshot` of a configured scope. */
  function Snapshot(c: Config, u: Usage, s: Scope, now: int): (Consumption, real) {
    (u.books.Daily((s, Day(now))), u.books.Monthly((s, c.monthOf(Day(now)))))
  }
}
