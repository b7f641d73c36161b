/** `UsageGovernor`: the dictionaries it updates in place, tied to the functions of UsageSpec. */
module UsageGovernor {
  import opened Prelude
  import opened UsageSpec
  import CircuitBreaker

  class Governor {
    const config: Config
    var daily: map<Key, Consumption>
    var monthly: map<Key, real>
    var requests: set<string>
    var reconciled: set<string>
    var circuits: map<string, CircuitBreaker.Circuit>

    function State(): Usage
      reads this
    {
      Usage(Books(daily, monthly), requests, reconciled, circuits)
    }

    constructor (config: Config)
      ensures this.config == config && State() == EMPTY
    {
      this.config := config;
      daily, monthly, requests, reconciled, circuits := map[], map[], {}, {}, map[];
    }

    /** The checking loop: records are created on the way, even when a later scope is refused. */
    method CheckAll(r: Request, day: int, month: int) returns (error: Option<GovernanceError>)
      modifies this`daily, this`monthly
      ensures (Books(daily, monthly), error) == CheckScopes(config.limits, old(Books(daily, monthly)), r, day, month, r.scopes)
    {
      ghost var start := Books(daily, monthly);
      var i := 0;
      while i < |r.scopes|
        invariant 0 <= i <= |r.scopes|
        invariant CheckScopes(config.limits, start, r, day, month, r.scopes)
               == CheckScopes(config.limits, Books(daily, monthly), r, day, month, r.scopes[i..])
      {
        var s := r.scopes[i];
        ghost var before := Books(daily, monthly);
        assert r.scopes[i..][1..] == r.scopes[i + 1..];
        if s !in config.limits {
          return Some(NoLimit(s.kind));
        }
        if (s, day) !in daily {
          daily := daily[(s, day) := ZERO];
        }
        if (s, month) !in monthly {
          monthly := monthly[(s, month) := 0.0];
        }
        assert daily == before.daily[(s, day) := before.Daily((s, day))];
        assert monthly == before.monthly[(s, month) := before.Monthly((s, month))];
        error := Check(config.limits[s], daily[(s, day)], monthly[(s, month)], r);
        if error.Some? {
          return;
        }
        i := i + 1;
      }
      return None;
    }

    /** The committing loop. */
    method ChargeAll(r: Request, day: int, month: int) returns (warnings: set<Warning>)
      requires forall s :: s in r.scopes ==> s in config.limits && (s, day) in daily && (s, month) in monthly
      modifies this`daily, this`monthly
      ensures (Books(daily, monthly), warnings)
           == ChargeScopes(config.limits, old(Books(daily, monthly)), r, day, month, r.scopes, {})
    {
      ghost var start := Books(daily, monthly);
      warnings := {};
      for i := 0 to |r.scopes|
        invariant forall s :: s in r.scopes ==> s in config.limits && (s, day) in daily && (s, month) in monthly
        invariant ChargeScopes(config.limits, start, r, day, month, r.scopes, {})
               == ChargeScopes(config.limits, Books(daily, monthly), r, day, month, r.scopes[i..], warnings)
      {
        var s := r.scopes[i];
        assert r.scopes[i..][1..] == r.scopes[i + 1..];
        var d := daily[(s, day)];
        daily := daily[(s, day) := Consumption(d.requests + 1, d.cost + r.cost, d.gpu + r.gpu, d.runtime + r.runtime, d.active + 1)];
        monthly := monthly[(s, month) := monthly[(s, month)] + r.cost];
        warnings := warnings + WarningsOf(config.limits[s], daily[(s, day)].cost, monthly[(s, month)]);
      }
    }

    method Admit(r: Request, now: int) returns (result: Result<Evidence, GovernanceError>)
      modifies this
      ensures (State(), result) == UsageSpec.Admit(config, old(State()), r, now)
    {
      if r.id in requests {
        return Err(DuplicateRequest);
      }
      if r.model !in config.models {
        return Err(UnknownModel);
      }
      var model := config.models[r.model];
      if model.provider !in config.providers {
        return Err(UnknownProvider);
      }
      if !model.enabled || !config.providers[model.provider].enabled {
        return Err(Disabled);
      }
      var circuit := CircuitOf(circuits, model.provider);
      circuits := circuits[model.provider := circuit];
      if circuit.openUntil.Some? {
        if now < circuit.openUntil.value {
          return Err(CircuitOpen);
        }
        circuits := circuits[model.provider := CircuitBreaker.Circuit([], None)];
      }
      assert circuits == old(circuits)[model.provider := CircuitBreaker.Gate(circuit, now)];
      if r.inputTokens + r.outputTokens > model.contextWindow {
        return Err(ContextExceeded);
      }
      if r.outputTokens > model.maxOutputTokens {
        return Err(OutputExceeded);
      }
      var day := Day(now);
      var month := config.monthOf(day);
      ghost var before := Books(daily, monthly);
      var error := CheckAll(r, day, month);
      if error.Some? {
        return Err(error.value);
      }
      ChecksCoverScopes(config.limits, before, r, day, month, r.scopes);
      ChecksRecord(config.limits, before, r, day, month, r.scopes);
      var warnings := ChargeAll(r, day, month);
      requests := requests + {r.id};
      result := Ok(Evidence(r.id, r.tenant, model.id, model.provider, r.scopes, r.inputTokens, r.outputTokens,
                            r.cost, r.gpu, r.runtime, now, warnings));
    }

    method ReconcileCost(e: Evidence, actual: real) returns (error: Option<GovernanceError>)
      modifies this`daily, this`monthly, this`reconciled
      ensures (State(), error) == Reconcile(config, old(State()), e, actual)
    {
      if actual < 0.0 {
        return Some(NegativeActual);
      }
      if actual > e.cost {
        return Some(ActualExceedsReserved);
      }
      if e.id in reconciled {
        return Some(AlreadyReconciled);
      }
      var difference := e.cost - actual;
      var day := Day(e.admittedAt);
      var month := config.monthOf(day);
      ghost var start := Books(daily, monthly);
      var i := 0;
      while i < |e.scopes|
        invariant 0 <= i <= |e.scopes| && reconciled == old(reconciled)
        invariant ReconcileScopes(start, difference, day, month, e.scopes)
               == ReconcileScopes(Books(daily, monthly), difference, day, month, e.scopes[i..])
      {
        assert e.scopes[i..][1..] == e.scopes[i + 1..];
        var d, m := (e.scopes[i], day), (e.scopes[i], month);
        if d !in daily || m !in monthly {
          return Some(ReservationUnavailable);
        }
        if daily[d].cost < difference || monthly[m] < difference {
          return Some(AccountingNegative);
        }
        daily := daily[d := daily[d].(cost := daily[d].cost - difference)];
        monthly := monthly[m := monthly[m] - difference];
        i := i + 1;
      }
      reconciled := reconciled + {e.id};
      error := None;
    }

    method CompleteRequest(e: Evidence) returns (error: Option<GovernanceError>)
      modifies this`daily
      ensures (State(), error) == Complete(old(State()), e)
    {
      var day := Day(e.admittedAt);
      ghost var start := Books(daily, monthly);
      var i := 0;
      while i < |e.scopes|
        invariant 0 <= i <= |e.scopes|
        invariant CompleteScopes(start, day, e.scopes) == CompleteScopes(Books(daily, monthly), day, e.scopes[i..])
      {
        assert e.scopes[i..][1..] == e.scopes[i + 1..];
        var d := (e.scopes[i], day);
        if d !in daily || daily[d].active <= 0 {
          return Some(NotActive);
        }
        daily := daily[d := daily[d].(active := daily[d].active - 1)];
        i := i + 1;
      }
      error := None;
    }

    /** `record_provider_failure`, `record_provider_success` and `provider_health`, which also reports. */
    method RecordProviderEvent(provider: string, event: CircuitBreaker.Event)
      returns (error: Option<GovernanceError>, health: Option<ProviderHealth>)
      requires !event.Attempt?
      modifies this`circuits
      ensures provider !in config.providers ==> error == Some(UnknownProvider) && circuits == old(circuits)
      ensures provider in config.providers ==>
        (&& error == None
         && circuits == old(circuits)[provider := CircuitBreaker.Apply(config.circuit, CircuitOf(old(circuits), provider), event)])
      ensures health == if event.Inspection? && provider in config.providers
                        then Some(ProviderHealth(config.providers[provider].id, config.providers[provider].enabled,
                                                 CircuitBreaker.Report(config.circuit, CircuitOf(old(circuits), provider), event.at)))
                        else None
    {
      health := None;
      if provider !in config.providers {
        return Some(UnknownProvider), None;
      }
      var circuit := CircuitOf(circuits, provider);
      match event {
      case Failure(now) =>
        var kept := CircuitBreaker.Prune(circuit.failures, now - config.circuit.window);
        circuit := circuit.(failures := kept + [now]);
        if |circuit.failures| >= config.circuit.threshold {
          circuit := circuit.(openUntil := Some(now + config.circuit.cooldown));
        }
      case Success(_) =>
        circuit := CircuitBreaker.Circuit([], None);
      case Inspection(now) =>
        circuit := circuit.(failures := CircuitBreaker.Prune(circuit.failures, now - config.circuit.window));
        var open := circuit.openUntil.Some? && now < circuit.openUntil.value;
        var known := config.providers[provider];
        health := Some(ProviderHealth(known.id, known.enabled,
                                      CircuitBreaker.Health(open, |circuit.failures|, if open then circuit.openUntil else None)));
      }
      circuits := circuits[provider := circuit];
      error := None;
    }
  }

  lemma {:induction false} ChecksRecord(limits: map<Scope, Limits>, b: Books, r: Request, day: int, month: int, scopes: seq<Scope>)
    ensures var (after, error) := CheckScopes(limits, b, r, day, month, scopes);
            && b.daily.Keys <= after.daily.Keys && b.monthly.Keys <= after.monthly.Keys
            && (error.None? ==> forall s :: s in scopes ==> (s, day) in after.daily && (s, month) in after.monthly)
    decreases |scopes|
  {
    if scopes != [] {
      ChecksRecord(limits, b.Touch(scopes[0], day, month), r, day, month, scopes[1..]);
    }
  }
}
