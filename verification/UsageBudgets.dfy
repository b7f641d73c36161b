/** Budgets of the governor: which requests keep them, and what a refusal or an open circuit means. */
module UsageBudgets {
  import opened Prelude
  import opened UsageSpec
  import opened UsageConservation
  import CircuitBreaker

  predicate Within(limit: Limits, d: Consumption, monthly: real) {
    && d.requests <= limit.maxRequestsDaily && d.active <= limit.maxConcurrency
    && d.cost <= limit.dailyCost && monthly <= limit.monthlyCost
    && d.gpu <= limit.gpuDaily && d.runtime <= limit.runtimeDaily
  }

  /** No counter of a configured scope exceeds its limit, on any day of any month. */
  ghost predicate WithinLimits(c: Config, b: Books) {
    forall s, d, m :: s in c.limits ==> Within(c.limits[s], b.Daily((s, d)), b.Monthly((s, m)))
  }

  predicate ListedOnce(scopes: seq<Scope>) {
    forall i, j :: 0 <= i < j < |scopes| ==> scopes[i] != scopes[j]
  }

  function Charged(d: Consumption, r: Request): Consumption {
    Consumption(d.requests + 1, d.cost + r.cost, d.gpu + r.gpu, d.runtime + r.runtime, d.active + 1)
  }

  // ----- admission -----

  /** Exactly the listed scopes are charged, each with one request. */
  ghost predicate ChargedExactly(b: Books, after: Books, r: Request, day: int, month: int, scopes: seq<Scope>) {
    && (forall s, d :: after.Daily((s, d)) == if s in scopes && d == day then Charged(b.Daily((s, d)), r) else b.Daily((s, d)))
    && (forall s, m :: after.Monthly((s, m)) == if s in scopes && m == month then b.Monthly((s, m)) + r.cost else b.Monthly((s, m)))
  }

  lemma ChargeExact(b: Books, r: Request, s: Scope, day: int, month: int)
    ensures ChargedExactly(b, Charge(b, r, s, day, month), r, day, month, [s])
  {
  }

  lemma ChargeThenRest(b: Books, mid: Books, after: Books, r: Request, day: int, month: int, scopes: seq<Scope>)
    requires scopes != [] && ListedOnce(scopes)
    requires ChargedExactly(b, mid, r, day, month, [scopes[0]]) && ChargedExactly(mid, after, r, day, month, scopes[1..])
    ensures ChargedExactly(b, after, r, day, month, scopes)
  {
    hide Books.Daily, Books.Monthly, Charged;
    assert forall x :: x in scopes <==> x == scopes[0] || x in scopes[1..];
    assert scopes[0] !in scopes[1..];
  }

  lemma {:induction false} ChargedOnce(limits: map<Scope, Limits>, b: Books, r: Request, day: int, month: int, scopes: seq<Scope>, warnings: set<Warning>)
    requires (forall s :: s in scopes ==> s in limits) && ListedOnce(scopes)
    ensures ChargedExactly(b, ChargeScopes(limits, b, r, day, month, scopes, warnings).0, r, day, month, scopes)
    decreases |scopes|
  {
    hide ChargedExactly, Charge;
    if scopes == [] {
      assert ChargedExactly(b, b, r, day, month, []) by { ChargedNothing(b, r, day, month); }
    } else {
      var s := scopes[0];
      var charged := Charge(b, r, s, day, month);
      var more := WarningsOf(limits[s], charged.Daily((s, day)).cost, charged.Monthly((s, month)));
      ChargeExact(b, r, s, day, month);
      ChargedOnce(limits, charged, r, day, month, scopes[1..], warnings + more);
      ChargeThenRest(b, charged, ChargeScopes(limits, b, r, day, month, scopes, warnings).0, r, day, month, scopes);
    }
  }

  lemma ChargedNothing(b: Books, r: Request, day: int, month: int)
    ensures ChargedExactly(b, b, r, day, month, [])
  {
  }

  lemma {:induction false} ChecksPassed(limits: map<Scope, Limits>, b: Books, r: Request, day: int, month: int, scopes: seq<Scope>)
    requires CheckScopes(limits, b, r, day, month, scopes).1 == None
    ensures forall s :: s in scopes ==> s in limits && Check(limits[s], b.Daily((s, day)), b.Monthly((s, month)), r) == None
    decreases |scopes|
  {
    if scopes != [] {
      var touched := b.Touch(scopes[0], day, month);
      assert Extends(b, touched);
      ChecksPassed(limits, touched, r, day, month, scopes[1..]);
    }
  }

  lemma AdmitScopesKeepsLimits(c: Config, u: Usage, r: Request, now: int, model: Model)
    requires WithinLimits(c, u.books) && ListedOnce(r.scopes)
    ensures WithinLimits(c, AdmitScopes(c, u, r, now, model).0.books)
  {
    hide Check, ChargeScopes, CheckScopes;
    var day := Day(now);
    var month := c.monthOf(day);
    ChecksKeepBuckets(c.limits, u.books, r, day, month, r.scopes);
    var (touched, error) := CheckScopes(c.limits, u.books, r, day, month, r.scopes);
    if error.None? {
      ChecksPassed(c.limits, u.books, r, day, month, r.scopes);
      ChargedOnce(c.limits, touched, r, day, month, r.scopes, {});
      var after := AdmitScopes(c, u, r, now, model).0.books;
      forall s, d, m | s in c.limits ensures Within(c.limits[s], after.Daily((s, d)), after.Monthly((s, m))) {
        assert Within(c.limits[s], u.books.Daily((s, d)), u.books.Monthly((s, m)));
        if s in r.scopes { PassedFits(c.limits[s], u.books.Daily((s, day)), u.books.Monthly((s, month)), r); }
      }
    }
  }

  /** A passed check leaves room for the request in every counter. */
  lemma PassedFits(limit: Limits, d: Consumption, monthly: real, r: Request)
    requires Check(limit, d, monthly, r) == None
    ensures Within(limit, Charged(d, r), monthly + r.cost)
  {
  }

  lemma AdmitKeepsLimits(c: Config, u: Usage, r: Request, now: int)
    requires WithinLimits(c, u.books) && ListedOnce(r.scopes)
    ensures WithinLimits(c, Admit(c, u, r, now).0.books)
  {
    hide AdmitScopes, Within;
    if r.model in c.models {
      AdmitScopesKeepsLimits(c, u.(circuits := Admit(c, u, r, now).0.circuits), r, now, c.models[r.model]);
      AdmitIsScopes(c, u, r, now);
    }
  }

  lemma AdmitIsScopes(c: Config, u: Usage, r: Request, now: int)
    requires r.model in c.models
    ensures var after := Admit(c, u, r, now).0;
            after.books == u.books
            || after.books == AdmitScopes(c, u.(circuits := after.circuits), r, now, c.models[r.model]).0.books
  {
  }

  // ----- the other calls only lower counters -----

  ghost predicate Lowers(b: Books, after: Books) {
    && (forall k :: var x, y := b.Daily(k), after.Daily(k);
          y.cost <= x.cost && y.active <= x.active && y.requests == x.requests && y.gpu == x.gpu && y.runtime == x.runtime)
    && forall k :: after.Monthly(k) <= b.Monthly(k)
  }

  lemma {:induction false} ReconcileLowers(b: Books, x: real, day: int, month: int, scopes: seq<Scope>)
    requires x >= 0.0
    ensures Lowers(b, ReconcileScopes(b, x, day, month, scopes).0)
    decreases |scopes|
  {
    if scopes != [] {
      var d, m := (scopes[0], day), (scopes[0], month);
      if d in b.daily && m in b.monthly && b.daily[d].cost >= x && b.monthly[m] >= x {
        assert Lowers(b, Refund(b, x, d, m));
        ReconcileLowers(Refund(b, x, d, m), x, day, month, scopes[1..]);
      }
    }
  }

  lemma {:induction false} CompleteLowers(b: Books, day: int, scopes: seq<Scope>)
    ensures Lowers(b, CompleteScopes(b, day, scopes).0)
    decreases |scopes|
  {
    if scopes != [] && (scopes[0], day) in b.daily && b.daily[(scopes[0], day)].active > 0 {
      assert Lowers(b, Release(b, (scopes[0], day)));
      CompleteLowers(Release(b, (scopes[0], day)), day, scopes[1..]);
    }
  }

  lemma LoweringKeepsLimits(c: Config, b: Books, after: Books)
    requires WithinLimits(c, b) && Lowers(b, after)
    ensures WithinLimits(c, after)
  {
    forall s, d, m | s in c.limits ensures Within(c.limits[s], after.Daily((s, d)), after.Monthly((s, m))) {
      assert Within(c.limits[s], b.Daily((s, d)), b.Monthly((s, m)));
    }
  }

  predicate ScopesListedOnce(calls: seq<Call>) {
    forall i :: 0 <= i < |calls| && calls[i].AdmitCall? ==> ListedOnce(calls[i].request.scopes)
  }

  lemma StepKeepsLimits(c: Config, a: Account, call: Call)
    requires WithinLimits(c, a.usage.books)
    requires call.AdmitCall? ==> ListedOnce(call.request.scopes)
    ensures WithinLimits(c, Step(c, a, call).usage.books)
  {
    hide Admit, Within, ReconcileScopes, CompleteScopes, Lowers;
    match call
    case AdmitCall(r, now) => AdmitKeepsLimits(c, a.usage, r, now);
    case ReconcileCall(i, actual) =>
      if i < |a.ledger| {
        var e := a.ledger[i].evidence;
        var day := Day(e.admittedAt);
        if 0.0 <= actual <= e.cost {
          ReconcileLowers(a.usage.books, e.cost - actual, day, c.monthOf(day), e.scopes);
          LoweringKeepsLimits(c, a.usage.books, ReconcileScopes(a.usage.books, e.cost - actual, day, c.monthOf(day), e.scopes).0);
        }
      }
    case CompleteCall(i) =>
      if i < |a.ledger| {
        var e := a.ledger[i].evidence;
        CompleteLowers(a.usage.books, Day(e.admittedAt), e.scopes);
        LoweringKeepsLimits(c, a.usage.books, CompleteScopes(a.usage.books, Day(e.admittedAt), e.scopes).0);
      }
    case CircuitCall(_, _) =>
  }

  /** On every run whose requests list each scope once, no counter ever exceeds its limit. */
  lemma {:induction false} RunsStayWithinLimits(c: Config, calls: seq<Call>)
    requires ScopesListedOnce(calls)
    ensures WithinLimits(c, Run(c, calls).usage.books)
  {
    if calls == [] {
      assert forall s :: s in c.limits ==> Within(c.limits[s], ZERO, 0.0);
    } else {
      RunsStayWithinLimits(c, calls[..|calls| - 1]);
      StepKeepsLimits(c, Run(c, calls[..|calls| - 1]), calls[|calls| - 1]);
    }
  }

  // ----- exactly the requests that list each scope once are safe -----

  /** Admitting a request with these scopes keeps every limit, whatever the limits and the usage. */
  ghost predicate SafeToAdmit(scopes: seq<Scope>) {
    forall c: Config, u: Usage, r: Request, now: int :: r.scopes == scopes && WithinLimits(c, u.books) ==> WithinLimits(c, Admit(c, u, r, now).0.books)
  }

  function Listings(s: Scope, scopes: seq<Scope>): nat
    decreases |scopes|
  {
    if scopes == [] then 0 else (if scopes[0] == s then 1 else 0) + Listings(s, scopes[1..])
  }

  lemma {:induction false} RepeatedListings(scopes: seq<Scope>, i: nat, j: nat)
    requires i < j < |scopes| && scopes[i] == scopes[j]
    ensures Listings(scopes[i], scopes) >= 2
    decreases |scopes|
  {
    if i > 0 { RepeatedListings(scopes[1..], i - 1, j - 1); } else { ListedAtLeastOnce(scopes[1..], j - 1); }
  }

  lemma {:induction false} ListedAtLeastOnce(scopes: seq<Scope>, i: nat)
    requires i < |scopes|
    ensures Listings(scopes[i], scopes) >= 1
    decreases |scopes|
  {
    if i > 0 { ListedAtLeastOnce(scopes[1..], i - 1); }
  }

  lemma {:induction false} RequestsCounted(limits: map<Scope, Limits>, b: Books, r: Request, day: int, month: int, scopes: seq<Scope>, warnings: set<Warning>, s: Scope)
    requires forall x :: x in scopes ==> x in limits
    ensures ChargeScopes(limits, b, r, day, month, scopes, warnings).0.Daily((s, day)).requests
         == b.Daily((s, day)).requests + Listings(s, scopes)
    decreases |scopes|
  {
    if scopes != [] {
      var x := scopes[0];
      var charged := Charge(b, r, x, day, month);
      var more := WarningsOf(limits[x], charged.Daily((x, day)).cost, charged.Monthly((x, month)));
      RequestsCounted(limits, charged, r, day, month, scopes[1..], warnings + more, s);
    }
  }

  const TIGHT: Limits := LimitRecord(1, 1, 1, 1, 0.0, 0.0, 0.0, 0.0, 1.0, 0, 0.0)

  function TightConfig(scopes: seq<Scope>): Config {
    Config(map["m" := Model("m", "p", 1, 1, true)], map["p" := Provider("p", true)],
           map s | s in scopes :: TIGHT, CircuitBreaker.Policy(1, 0, 0), (d: int) => d)
  }

  lemma {:induction false} TightChecksPass(limits: map<Scope, Limits>, b: Books, r: Request, scopes: seq<Scope>)
    requires r.inputTokens == r.outputTokens == r.retryNumber == 0
    requires r.cost == r.gpu == r.runtime == r.retryCost == 0.0
    requires forall s :: s in scopes ==> s in limits && limits[s] == TIGHT && b.Daily((s, 0)) == ZERO && b.Monthly((s, 0)) == 0.0
    ensures CheckScopes(limits, b, r, 0, 0, scopes).1 == None
    decreases |scopes|
  {
    if scopes != [] {
      TightChecksPass(limits, b.Touch(scopes[0], 0, 0), r, scopes[1..]);
    }
  }

  /** A request that lists a scope twice overshoots a limit of one. */
  lemma RepeatOvershoots(scopes: seq<Scope>, i: nat, j: nat)
    requires HasTenant(scopes) && i < j < |scopes| && scopes[i] == scopes[j]
    ensures !SafeToAdmit(scopes)
  {
    hide Check, ChargeScopes, CheckScopes;
    var c := TightConfig(scopes);
    var request := RequestRecord("r", "t", scopes, "m", 0, 0, 0.0, 0.0, 0.0, 0, 0.0);
    var r: Request := request;
    assert WithinLimits(c, EMPTY.books);
    TightChecksPass(c.limits, EMPTY.books, r, scopes);
    ChecksKeepBuckets(c.limits, EMPTY.books, r, 0, 0, scopes);
    var touched := CheckScopes(c.limits, EMPTY.books, r, 0, 0, scopes).0;
    RequestsCounted(c.limits, touched, r, 0, 0, scopes, {}, scopes[i]);
    RepeatedListings(scopes, i, j);
    var after := Admit(c, EMPTY, r, 0).0.books;
    assert after == ChargeScopes(c.limits, touched, r, 0, 0, scopes, {}).0;
    assert after.Daily((scopes[i], 0)).requests >= 2;
    assert !Within(c.limits[scopes[i]], after.Daily((scopes[i], 0)), after.Monthly((scopes[i], 0)));
  }

  /** The limits hold after every admission exactly when the request lists no scope twice. */
  lemma SafeExactlyWhenListedOnce(scopes: seq<Scope>)
    requires HasTenant(scopes)
    ensures SafeToAdmit(scopes) <==> ListedOnce(scopes)
  {
    hide Admit, WithinLimits;
    if ListedOnce(scopes) {
      forall c: Config, u: Usage, r: Request, now: int | r.scopes == scopes && WithinLimits(c, u.books)
        ensures WithinLimits(c, Admit(c, u, r, now).0.books)
      {
        AdmitKeepsLimits(c, u, r, now);
      }
    } else {
      var i, j :| 0 <= i < j < |scopes| && scopes[i] == scopes[j];
      RepeatOvershoots(scopes, i, j);
    }
  }

  // ----- refusals -----

  /** A refused request changes no snapshot of any scope at any time. */
  lemma RefusalLeavesSnapshots(c: Config, u: Usage, r: Request, now: int, s: Scope, t: int)
    requires Admit(c, u, r, now).1.Err?
    ensures Snapshot(c, Admit(c, u, r, now).0, s, t) == Snapshot(c, u, s, t)
  {
    hide Admit;
    AdmitOutcome(c, u, r, now);
  }

  /** The request gets as far as the circuit of `provider`. */
  predicate Reaches(c: Config, u: Usage, r: Request, provider: string) {
    && r.id !in u.requests && r.model in c.models && c.models[r.model].provider == provider
    && provider in c.providers && c.models[r.model].enabled && c.providers[provider].enabled
  }

  /** What the circuit of `provider` sees of one call. */
  function CallEvents(c: Config, u: Usage, call: Call, provider: string): seq<CircuitBreaker.Event> {
    match call
    case AdmitCall(r, now) => if Reaches(c, u, r, provider) then [CircuitBreaker.Attempt(now)] else []
    case CircuitCall(p, event) => if p == provider && p in c.providers then [event] else []
    case _ => []
  }

  /** What the circuit of `provider` sees of a run. */
  function CircuitEvents(c: Config, calls: seq<Call>, provider: string): seq<CircuitBreaker.Event> {
    if calls == [] then []
    else
      var init := calls[..|calls| - 1];
      CircuitEvents(c, init, provider) + CallEvents(c, Run(c, init).usage, calls[|calls| - 1], provider)
  }

  lemma ApplyMore(c: Config, events: seq<CircuitBreaker.Event>, more: seq<CircuitBreaker.Event>)
    requires |more| <= 1
    ensures CircuitBreaker.Run(c.circuit, events + more) ==
            if more == [] then CircuitBreaker.Run(c.circuit, events)
            else CircuitBreaker.Apply(c.circuit, CircuitBreaker.Run(c.circuit, events), more[0])
  {
    if more == [] {
      assert events + more == events;
    } else {
      assert (events + more)[..|events|] == events;
    }
  }

  lemma AdmitCircuit(c: Config, u: Usage, r: Request, now: int, provider: string)
    ensures CircuitOf(Admit(c, u, r, now).0.circuits, provider) ==
            if Reaches(c, u, r, provider) then CircuitBreaker.Gate(CircuitOf(u.circuits, provider), now)
            else CircuitOf(u.circuits, provider)
    ensures Reaches(c, u, r, provider) && CircuitBreaker.Open(CircuitOf(u.circuits, provider), now)
            ==> Admit(c, u, r, now).1 == Err(CircuitOpen)
  {
    hide CheckScopes, ChargeScopes, Day;
  }

  lemma CallAppliesEvents(c: Config, a: Account, call: Call, provider: string)
    ensures var more := CallEvents(c, a.usage, call, provider);
            var circuit := CircuitOf(a.usage.circuits, provider);
            CircuitOf(Step(c, a, call).usage.circuits, provider) ==
            if more == [] then circuit else CircuitBreaker.Apply(c.circuit, circuit, more[0])
  {
    hide Admit, ReconcileScopes, CompleteScopes, Reaches, CircuitBreaker.Fail, CircuitBreaker.Inspect;
    if call.AdmitCall? { AdmitCircuit(c, a.usage, call.request, call.now, provider); }
  }

  /** The governor keeps for each provider the circuit of the events that reached it. */
  lemma {:induction false} CircuitFollowsEvents(c: Config, calls: seq<Call>, provider: string)
    ensures CircuitOf(Run(c, calls).usage.circuits, provider) == CircuitBreaker.Run(c.circuit, CircuitEvents(c, calls, provider))
  {
    hide Step, CircuitBreaker.Apply, CallEvents;
    if calls != [] {
      var init, last := calls[..|calls| - 1], calls[|calls| - 1];
      var more := CallEvents(c, Run(c, init).usage, last, provider);
      CircuitFollowsEvents(c, init, provider);
      CallAppliesEvents(c, Run(c, init), last, provider);
      AtMostOneEvent(c, Run(c, init).usage, last, provider);
      ApplyMore(c, CircuitEvents(c, init, provider), more);
    }
  }

  lemma AtMostOneEvent(c: Config, u: Usage, call: Call, provider: string)
    ensures |CallEvents(c, u, call, provider)| <= 1
  {
  }

  /** While the history says open, every request that reaches the provider is refused. */
  lemma OpenCircuitRefuses(c: Config, calls: seq<Call>, provider: string, r: Request, now: int)
    requires CircuitBreaker.Ordered(CircuitEvents(c, calls, provider))
    requires Reaches(c, Run(c, calls).usage, r, provider)
    ensures CircuitBreaker.OpenAt(c.circuit, CircuitBreaker.SinceReset(c.circuit, CircuitEvents(c, calls, provider)), now)
            ==> Admit(c, Run(c, calls).usage, r, now).1 == Err(CircuitOpen)
  {
    hide Admit, Run, CircuitEvents, Reaches, CircuitBreaker.Run, CircuitBreaker.SinceReset, CircuitBreaker.OpenAt;
    var events := CircuitEvents(c, calls, provider);
    CircuitFollowsEvents(c, calls, provider);
    CircuitBreaker.CircuitMatchesHistory(c.circuit, events);
    AdmitCircuit(c, Run(c, calls).usage, r, now, provider);
    var circuit := CircuitBreaker.Run(c.circuit, events);
    assert CircuitBreaker.Open(circuit, now) <==> CircuitBreaker.OpenAt(c.circuit, CircuitBreaker.SinceReset(c.circuit, events), now);
  }
}
