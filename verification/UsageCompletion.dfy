/** What the counters of running requests mean: the requests admitted and not yet completed, while none is completed twice. */
module UsageCompletion {
  import opened Prelude
  import opened UsageSpec
  import opened UsageConservation
  import opened UsageBudgets
  import opened UsageConcurrency
  import CircuitBreaker

  // ----- the completing loop, exactly -----

  /** Every listed scope has at least as many running requests as it is listed times. */
  predicate Enough(b: Books, day: int, scopes: seq<Scope>) {
    forall s :: s in scopes ==> b.Daily((s, day)).active >= Listings(s, scopes)
  }

  /** Each scope loses one running request for every time it is listed, and nothing else changes. */
  ghost predicate Freed(b: Books, after: Books, day: int, scopes: seq<Scope>) {
    && after.monthly == b.monthly
    && forall s, d :: after.Daily((s, d)) ==
         if d == day then b.Daily((s, d)).(active := b.Daily((s, d)).active - Listings(s, scopes)) else b.Daily((s, d))
  }

  lemma {:induction false} NotListed(s: Scope, scopes: seq<Scope>)
    ensures s in scopes <==> Listings(s, scopes) > 0
    decreases |scopes|
  {
    if scopes != [] { NotListed(s, scopes[1..]); }
  }

  lemma EnoughForFirst(b: Books, day: int, scopes: seq<Scope>)
    requires scopes != []
    ensures Enough(b, day, scopes) <==>
            && (scopes[0], day) in b.daily && b.daily[(scopes[0], day)].active > 0
            && Enough(Release(b, (scopes[0], day)), day, scopes[1..])
  {
    var x, mid := scopes[0], Release(b, (scopes[0], day));
    assert forall s :: s in scopes <==> s == x || s in scopes[1..];
    NotListed(x, scopes[1..]);
    assert forall s :: s != x ==> mid.Daily((s, day)) == b.Daily((s, day));
    assert mid.Daily((x, day)).active == b.Daily((x, day)).active - 1;
    if Enough(mid, day, scopes[1..]) && (x, day) in b.daily && b.daily[(x, day)].active > 0 {
      forall s | s in scopes ensures b.Daily((s, day)).active >= Listings(s, scopes) {}
    }
  }

  /** The loop of `complete` runs to its end if and only if there is enough to free, and then frees exactly that. */
  lemma {:induction false} CompletesExactly(b: Books, day: int, scopes: seq<Scope>)
    ensures var (after, error) := CompleteScopes(b, day, scopes);
            && (error.None? <==> Enough(b, day, scopes))
            && (error.None? ==> Freed(b, after, day, scopes))
    decreases |scopes|
  {
    if scopes != [] {
      EnoughForFirst(b, day, scopes);
      var mid := Release(b, (scopes[0], day));
      CompletesExactly(mid, day, scopes[1..]);
      hide Enough;
    }
  }

  // ----- the other calls -----

  lemma {:induction false} ChargesAddRunning(limits: map<Scope, Limits>, b: Books, r: Request, day: int, month: int, scopes: seq<Scope>, warnings: set<Warning>, s: Scope, d: int)
    requires forall x :: x in scopes ==> x in limits
    ensures ChargeScopes(limits, b, r, day, month, scopes, warnings).0.Daily((s, d)).active
         == b.Daily((s, d)).active + if d == day then Listings(s, scopes) else 0
    decreases |scopes|
  {
    if scopes != [] {
      var x := scopes[0];
      var charged := Charge(b, r, x, day, month);
      var more := WarningsOf(limits[x], charged.Daily((x, day)).cost, charged.Monthly((x, month)));
      ChargesAddRunning(limits, charged, r, day, month, scopes[1..], warnings + more, s, d);
    }
  }

  lemma AdmitAddsRunning(c: Config, u: Usage, r: Request, now: int, s: Scope, d: int)
    ensures var (after, e) := Admit(c, u, r, now);
            && after.books.Daily((s, d)).active == u.books.Daily((s, d)).active + (if e.Ok? && d == Day(now) then Listings(s, r.scopes) else 0)
            && (e.Ok? ==> e.value.scopes == r.scopes && e.value.admittedAt == now)
  {
    if r.model in c.models {
      var day := Day(now);
      AdmitIsScopes(c, u, r, now);
      ChecksKeepBuckets(c.limits, u.books, r, day, c.monthOf(day), r.scopes);
      var (touched, error) := CheckScopes(c.limits, u.books, r, day, c.monthOf(day), r.scopes);
      if error.None? {
        ChecksCoverScopes(c.limits, u.books, r, day, c.monthOf(day), r.scopes);
        ChargesAddRunning(c.limits, touched, r, day, c.monthOf(day), r.scopes, {}, s, d);
      }
      hide Admit, CheckScopes, ChargeScopes;
    }
  }

  lemma {:induction false} RefundsKeepRunning(b: Books, difference: real, day: int, month: int, scopes: seq<Scope>, k: Key)
    ensures ReconcileScopes(b, difference, day, month, scopes).0.Daily(k).active == b.Daily(k).active
    decreases |scopes|
  {
    if scopes != [] {
      var d, m := (scopes[0], day), (scopes[0], month);
      if d in b.daily && m in b.monthly && b.daily[d].cost >= difference && b.monthly[m] >= difference {
        RefundsKeepRunning(Refund(b, difference, d, m), difference, day, month, scopes[1..], k);
      }
    }
  }

  // ----- who is still running -----

  function RunsIn(e: Entry, s: Scope, day: int): nat {
    if Day(e.evidence.admittedAt) == day then Listings(s, e.evidence.scopes) else 0
  }

  /** How often the admitted requests that are not `done` list the scope on the day. */
  function Running(ledger: seq<Entry>, done: set<nat>, s: Scope, day: int): nat {
    if ledger == [] then 0
    else
      var n: nat := |ledger| - 1;
      Running(ledger[..n], done, s, day) + if n in done then 0 else RunsIn(ledger[n], s, day)
  }

  /** The ledger entries that a run has tried to complete. */
  function Done(c: Config, calls: seq<Call>): set<nat> {
    if calls == [] then {}
    else
      var before, call := calls[..|calls| - 1], calls[|calls| - 1];
      Done(c, before) + if call.CompleteCall? && call.entry < |Run(c, before).ledger| then {call.entry} else {}
  }

  /** No evidence is completed twice. */
  predicate CompletedOnce(c: Config, calls: seq<Call>) {
    calls == [] ||
    var before, call := calls[..|calls| - 1], calls[|calls| - 1];
    CompletedOnce(c, before) && (call.CompleteCall? ==> call.entry !in Done(c, before))
  }

  lemma RunningSnoc(ledger: seq<Entry>, done: set<nat>, e: Entry, s: Scope, day: int)
    requires |ledger| !in done
    ensures Running(ledger + [e], done, s, day) == Running(ledger, done, s, day) + RunsIn(e, s, day)
  {
    assert (ledger + [e])[..|ledger|] == ledger;
  }

  lemma {:induction false} RunningUpdate(ledger: seq<Entry>, done: set<nat>, i: nat, e: Entry, s: Scope, day: int)
    requires i < |ledger| && e.evidence == ledger[i].evidence
    ensures Running(ledger[i := e], done, s, day) == Running(ledger, done, s, day)
  {
    var n: nat := |ledger| - 1;
    if i == n {
      assert ledger[i := e][..n] == ledger[..n];
    } else {
      assert ledger[i := e][..n] == ledger[..n][i := e];
      RunningUpdate(ledger[..n], done, i, e, s, day);
    }
  }

  lemma {:induction false} RunningWithout(ledger: seq<Entry>, done: set<nat>, i: nat, s: Scope, day: int)
    requires i !in done
    ensures Running(ledger, done + {i}, s, day) == Running(ledger, done, s, day) - if i < |ledger| then RunsIn(ledger[i], s, day) else 0
  {
    if ledger != [] {
      RunningWithout(ledger[..|ledger| - 1], done, i, s, day);
    }
  }

  lemma {:induction false} RunningCovers(ledger: seq<Entry>, done: set<nat>, i: nat, s: Scope, day: int)
    requires i < |ledger| && i !in done
    ensures Running(ledger, done, s, day) >= RunsIn(ledger[i], s, day)
  {
    if i < |ledger| - 1 {
      RunningCovers(ledger[..|ledger| - 1], done, i, s, day);
    }
  }

  // ----- runs -----

  /** Every counter of running requests is the number of listings by requests not yet completed. */
  ghost predicate CountersMatch(a: Account, done: set<nat>) {
    && (forall i :: i in done ==> i < |a.ledger|)
    && forall s, d :: a.usage.books.Daily((s, d)).active == Running(a.ledger, done, s, d)
  }

  lemma AdmitCounts(c: Config, a: Account, done: set<nat>, r: Request, now: int)
    requires CountersMatch(a, done)
    ensures CountersMatch(Step(c, a, AdmitCall(r, now)), done)
  {
    var (u, result) := Admit(c, a.usage, r, now);
    var ledger := Step(c, a, AdmitCall(r, now)).ledger;
    forall s, d ensures u.books.Daily((s, d)).active == Running(ledger, done, s, d) {
      AdmitAddsRunning(c, a.usage, r, now, s, d);
      if result.Ok? {
        RunningSnoc(a.ledger, done, Entry(result.value, None), s, d);
      }
    }
    hide Admit, Running, Listings;
  }

  lemma ReconcileCounts(c: Config, a: Account, done: set<nat>, i: nat, actual: real)
    requires CountersMatch(a, done)
    ensures CountersMatch(Step(c, a, ReconcileCall(i, actual)), done)
  {
    if i < |a.ledger| {
      var e, a' := a.ledger[i].evidence, Step(c, a, ReconcileCall(i, actual));
      var day := Day(e.admittedAt);
      forall s, d ensures a'.usage.books.Daily((s, d)).active == Running(a'.ledger, done, s, d) {
        RefundsKeepRunning(a.usage.books, e.cost - actual, day, c.monthOf(day), e.scopes, (s, d));
        RunningUpdate(a.ledger, done, i, a.ledger[i].(actual := Some(actual)), s, d);
      }
    }
  }

  lemma RunningIsEnough(a: Account, done: set<nat>, i: nat)
    requires CountersMatch(a, done) && i < |a.ledger| && i !in done
    ensures var e := a.ledger[i].evidence; Enough(a.usage.books, Day(e.admittedAt), e.scopes)
  {
    var e := a.ledger[i].evidence;
    forall s | s in e.scopes ensures a.usage.books.Daily((s, Day(e.admittedAt))).active >= Listings(s, e.scopes) {
      RunningCovers(a.ledger, done, i, s, Day(e.admittedAt));
    }
  }

  lemma CompleteCounts(c: Config, a: Account, done: set<nat>, i: nat)
    requires CountersMatch(a, done) && i < |a.ledger| && i !in done
    ensures CountersMatch(Step(c, a, CompleteCall(i)), done + {i})
  {
    var e, a' := a.ledger[i].evidence, Step(c, a, CompleteCall(i));
    RunningIsEnough(a, done, i);
    CompletesExactly(a.usage.books, Day(e.admittedAt), e.scopes);
    forall s, d ensures a'.usage.books.Daily((s, d)).active == Running(a'.ledger, done + {i}, s, d) {
      RunningWithout(a.ledger, done, i, s, d);
    }
    hide Enough, Running, Listings, CompleteScopes;
  }

  /** On every run that completes no evidence twice, the counters say exactly which requests are still running. */
  lemma {:induction false} CountersFollow(c: Config, calls: seq<Call>)
    requires CompletedOnce(c, calls)
    ensures CountersMatch(Run(c, calls), Done(c, calls))
  {
    if calls != [] {
      var before, call := calls[..|calls| - 1], calls[|calls| - 1];
      var a, done := Run(c, before), Done(c, before);
      CountersFollow(c, before);
      assert done + {} == done;
      hide Admit, Reconcile, CountersMatch, Run;
      match call {
        case AdmitCall(r, now) => AdmitCounts(c, a, done, r, now);
        case ReconcileCall(i, actual) => ReconcileCounts(c, a, done, i, actual);
        case CompleteCall(i) => if i < |a.ledger| { CompleteCounts(c, a, done, i); }
        case CircuitCall(_, _) => CircuitCounts(c, a, done, call);
      }
      assert Run(c, calls) == Step(c, a, call) by { LastStep(c, calls); }
    }
  }

  lemma CircuitCounts(c: Config, a: Account, done: set<nat>, call: Call)
    requires CountersMatch(a, done) && call.CircuitCall?
    ensures CountersMatch(Step(c, a, call), done)
  {
  }

  lemma LastStep(c: Config, calls: seq<Call>)
    requires calls != []
    ensures Run(c, calls) == Step(c, Run(c, calls[..|calls| - 1]), calls[|calls| - 1])
  {
  }

  /** So every request admitted and not yet completed can be completed, and completing it frees exactly what it lists. */
  lemma RunningCompletes(c: Config, calls: seq<Call>, i: nat)
    requires CompletedOnce(c, calls) && i < |Run(c, calls).ledger| && i !in Done(c, calls)
    ensures var a := Run(c, calls);
            var e := a.ledger[i].evidence;
            var (after, error) := Complete(a.usage, e);
            error.None? && after == a.usage.(books := after.books) && Freed(a.usage.books, after.books, Day(e.admittedAt), e.scopes)
  {
    var a := Run(c, calls);
    var e := a.ledger[i].evidence;
    CountersFollow(c, calls);
    RunningIsEnough(a, Done(c, calls), i);
    CompletesExactly(a.usage.books, Day(e.admittedAt), e.scopes);
    hide Run, Done, CompletedOnce, Enough, CompleteScopes, Freed;
  }

  /**
   * Completing an entry again succeeds if and only if others are still running in all its scopes;
   * each counter then falls short of the requests still running by what the entry lists.
   */
  lemma CompletingAgain(c: Config, calls: seq<Call>, i: nat)
    requires CompletedOnce(c, calls) && i < |Run(c, calls).ledger|
    ensures var a, done := Run(c, calls), Done(c, calls);
            var e := a.ledger[i].evidence;
            var (after, error) := Complete(a.usage, e);
            && (error.None? <==> forall s :: s in e.scopes ==> Running(a.ledger, done, s, Day(e.admittedAt)) >= Listings(s, e.scopes))
            && (error.None? ==> forall s, d :: after.books.Daily((s, d)).active == Running(a.ledger, done, s, d) - RunsIn(a.ledger[i], s, d))
  {
    var a, done := Run(c, calls), Done(c, calls);
    var e := a.ledger[i].evidence;
    CountersFollow(c, calls);
    CompletesExactly(a.usage.books, Day(e.admittedAt), e.scopes);
    hide Run, Done, CompletedOnce, CompleteScopes, Listings, Running;
  }

  // ----- as a number of requests -----

  /** The requests admitted on the day, listing the scope, and not yet completed. */
  function StillRunning(ledger: seq<Entry>, done: set<nat>, s: Scope, day: int): set<nat> {
    set i: nat | i < |ledger| && i !in done && Day(ledger[i].evidence.admittedAt) == day && s in ledger[i].evidence.scopes
  }

  predicate AllListOnce(ledger: seq<Entry>) {
    forall i :: 0 <= i < |ledger| ==> ListedOnce(ledger[i].evidence.scopes)
  }

  lemma {:induction false} ListedOnceListings(s: Scope, scopes: seq<Scope>)
    requires ListedOnce(scopes)
    ensures Listings(s, scopes) == if s in scopes then 1 else 0
    decreases |scopes|
  {
    if scopes != [] {
      ListedOnceListings(s, scopes[1..]);
      assert scopes[0] !in scopes[1..];
    }
  }

  lemma StillRunningLast(ledger: seq<Entry>, done: set<nat>, s: Scope, day: int)
    requires ledger != []
    ensures var n: nat := |ledger| - 1;
            var before := StillRunning(ledger[..n], done, s, day);
            && n !in before
            && StillRunning(ledger, done, s, day)
               == before + if n !in done && Day(ledger[n].evidence.admittedAt) == day && s in ledger[n].evidence.scopes then {n} else {}
  {
  }

  lemma {:induction false} RunningCounts(ledger: seq<Entry>, done: set<nat>, s: Scope, day: int)
    requires AllListOnce(ledger)
    ensures Running(ledger, done, s, day) == |StillRunning(ledger, done, s, day)|
  {
    if ledger != [] {
      var n: nat := |ledger| - 1;
      RunningCounts(ledger[..n], done, s, day);
      ListedOnceListings(s, ledger[n].evidence.scopes);
      StillRunningLast(ledger, done, s, day);
      hide StillRunning, Day, ListedOnce;
    }
  }

  lemma {:induction false} LedgerListsOnce(c: Config, calls: seq<Call>)
    requires ScopesListedOnce(calls)
    ensures AllListOnce(Run(c, calls).ledger)
  {
    if calls != [] {
      var before, call := calls[..|calls| - 1], calls[|calls| - 1];
      LedgerListsOnce(c, before);
      if call.AdmitCall? { AdmitAddsRunning(c, Run(c, before).usage, call.request, call.now, A_TENANT, 0); }
      hide Admit, ListedOnce;
    }
  }

  /** Never more requests of a scope run at once than its limit allows, while none lists a scope twice or is completed twice. */
  lemma ConcurrencyIsBounded(c: Config, calls: seq<Call>, s: Scope, day: int)
    requires CompletedOnce(c, calls) && ScopesListedOnce(calls) && s in c.limits
    ensures |StillRunning(Run(c, calls).ledger, Done(c, calls), s, day)| <= c.limits[s].maxConcurrency
    ensures Run(c, calls).usage.books.Daily((s, day)).active == |StillRunning(Run(c, calls).ledger, Done(c, calls), s, day)|
  {
    var a := Run(c, calls);
    CountersFollow(c, calls);
    LedgerListsOnce(c, calls);
    RunningCounts(a.ledger, Done(c, calls), s, day);
    RunsStayWithinLimits(c, calls);
    assert Within(c.limits[s], a.usage.books.Daily((s, day)), a.usage.books.Monthly((s, 0)));
  }

  // ----- a request completed twice -----

  const PAIR: Limits := LimitRecord(1, 1, 9, 2, 0.0, 0.0, 0.0, 0.0, 1.0, 0, 0.0)

  const PAIRS := Config(map["m" := Model("m", "p", 1, 1, true)], map["p" := Provider("p", true)],
                        map[A_TENANT := PAIR], CircuitBreaker.Policy(1, 0, 0), (d: int) => d)

  function Free(id: string): Request {
    assert [A_TENANT][0].kind == Tenant;
    RequestRecord(id, "t", [A_TENANT], "m", 0, 0, 0.0, 0.0, 0.0, 0, 0.0)
  }

  /** `k` requests so far, `active` of them running, all free of charge. */
  predicate Holds(u: Usage, k: int, active: int) {
    && u.books.Daily((A_TENANT, 0)) == Consumption(k, 0.0, 0.0, 0.0, active) && u.books.Monthly((A_TENANT, 0)) == 0.0
    && CircuitOf(u.circuits, "p") == CircuitBreaker.FRESH
  }

  lemma FreeChecks(b: Books, k: int, active: int, r: Request)
    requires b.Daily((A_TENANT, 0)) == Consumption(k, 0.0, 0.0, 0.0, active) && b.Monthly((A_TENANT, 0)) == 0.0
    requires k < 9 && active < 2 && r == Free(r.id)
    ensures CheckScopes(PAIRS.limits, b, r, 0, 0, [A_TENANT]) == (b.Touch(A_TENANT, 0, 0), None)
  {
    var touched := b.Touch(A_TENANT, 0, 0);
    assert CheckScopes(PAIRS.limits, touched, r, 0, 0, [A_TENANT][1..]) == (touched, None);
  }

  lemma FreeCharges(b: Books, k: int, active: int, r: Request)
    requires b.Daily((A_TENANT, 0)) == Consumption(k, 0.0, 0.0, 0.0, active) && b.Monthly((A_TENANT, 0)) == 0.0 && r == Free(r.id)
    ensures var after := ChargeScopes(PAIRS.limits, b, r, 0, 0, [A_TENANT], {}).0;
            after.Daily((A_TENANT, 0)) == Consumption(k + 1, 0.0, 0.0, 0.0, active + 1) && after.Monthly((A_TENANT, 0)) == 0.0
  {
    var charged := Charge(b, r, A_TENANT, 0, 0);
    var warnings := {} + WarningsOf(PAIR, charged.Daily((A_TENANT, 0)).cost, charged.Monthly((A_TENANT, 0)));
    assert ChargeScopes(PAIRS.limits, charged, r, 0, 0, [A_TENANT][1..], warnings) == (charged, warnings);
  }

  lemma FreeAdmits(u: Usage, k: int, active: int, id: string)
    requires Holds(u, k, active) && k < 9 && active < 2 && id !in u.requests
    ensures var (after, e) := Admit(PAIRS, u, Free(id), 0);
            && e.Ok? && Holds(after, k + 1, active + 1) && after.requests == u.requests + {id}
            && e.value.scopes == [A_TENANT] && e.value.admittedAt == 0
  {
    var r := Free(id);
    FreeChecks(u.books, k, active, r);
    FreeCharges(u.books.Touch(A_TENANT, 0, 0), k, active, r);
    hide CheckScopes, ChargeScopes;
  }

  lemma FreeCompletes(u: Usage, k: int, active: int, e: Evidence)
    requires Holds(u, k, active) && e.scopes == [A_TENANT] && e.admittedAt == 0
    ensures if active > 0 then Complete(u, e).1 == None && Holds(Complete(u, e).0, k, active - 1) && Complete(u, e).0.requests == u.requests
            else Complete(u, e).1 == Some(NotActive)
  {
    if active > 0 {
      var released := Release(u.books, (A_TENANT, 0));
      assert CompleteScopes(released, 0, [A_TENANT][1..]) == (released, None);
    }
  }

  /** After these calls: so many admitted under these ids, so many counted as running, so many tried to complete. */
  predicate Reached(calls: seq<Call>, n: nat, active: int, ids: set<string>, done: set<nat>) {
    var a := Run(PAIRS, calls);
    && Holds(a.usage, n, active) && |a.ledger| == n && a.usage.requests == ids && Done(PAIRS, calls) == done
    && forall i :: 0 <= i < n ==> a.ledger[i].evidence.scopes == [A_TENANT] && a.ledger[i].evidence.admittedAt == 0
  }

  lemma DoneNext(c: Config, calls: seq<Call>, call: Call)
    ensures Done(c, calls + [call])
         == Done(c, calls) + if call.CompleteCall? && call.entry < |Run(c, calls).ledger| then {call.entry} else {}
    ensures Run(c, calls + [call]) == Step(c, Run(c, calls), call)
  {
    assert (calls + [call])[..|calls|] == calls;
    hide Step;
  }

  lemma ThenAdmit(calls: seq<Call>, n: nat, active: int, ids: set<string>, done: set<nat>, id: string)
    requires Reached(calls, n, active, ids, done) && n < 9 && active < 2 && id !in ids
    ensures Reached(calls + [AdmitCall(Free(id), 0)], n + 1, active + 1, ids + {id}, done)
  {
    DoneNext(PAIRS, calls, AdmitCall(Free(id), 0));
    hide Run, Done, Holds, Admit;
    FreeAdmits(Run(PAIRS, calls).usage, n, active, id);
    assert done + {} == done;
  }

  lemma ThenComplete(calls: seq<Call>, n: nat, active: int, ids: set<string>, done: set<nat>, i: nat)
    requires Reached(calls, n, active, ids, done) && i < n && active > 0
    ensures Reached(calls + [CompleteCall(i)], n, active - 1, ids, done + {i})
  {
    DoneNext(PAIRS, calls, CompleteCall(i));
    hide Run, Done, Holds, Complete;
    FreeCompletes(Run(PAIRS, calls).usage, n, active, Run(PAIRS, calls).ledger[i].evidence);
  }

  function AdmitTwo(calls: seq<Call>, first: string, second: string): seq<Call> {
    calls + [AdmitCall(Free(first), 0)] + [AdmitCall(Free(second), 0)]
  }

  function CompleteTwice(calls: seq<Call>): seq<Call> { calls + [CompleteCall(0)] + [CompleteCall(0)] }

  lemma TwoMore(calls: seq<Call>, n: nat, ids: set<string>, done: set<nat>, first: string, second: string)
    requires Reached(calls, n, 0, ids, done) && n < 8 && first !in ids && second !in ids && first != second
    ensures Reached(AdmitTwo(calls, first, second), n + 2, 2, ids + {first} + {second}, done)
  {
    hide Reached;
    ThenAdmit(calls, n, 0, ids, done, first);
    ThenAdmit(calls + [AdmitCall(Free(first), 0)], n + 1, 1, ids + {first}, done, second);
  }

  lemma FirstTwice(calls: seq<Call>, n: nat, ids: set<string>)
    requires Reached(calls, n, 2, ids, {}) && n > 0
    ensures Reached(CompleteTwice(calls), n, 0, ids, {0})
  {
    hide Reached;
    ThenComplete(calls, n, 2, ids, {}, 0);
    ThenComplete(calls + [CompleteCall(0)], n, 1, ids, {} + {0}, 0);
    assert {} + {0} + {0} == {0};
  }

  /** Two requests, and the first completed twice. */
  function Twice(): seq<Call> { CompleteTwice(AdmitTwo([], "a", "b")) }

  lemma TwiceReached()
    ensures Reached(Twice(), 2, 0, {} + {"a"} + {"b"}, {0})
  {
    assert Reached([], 0, 0, {}, {});
    hide Reached, AdmitTwo, CompleteTwice;
    TwoMore([], 0, {}, {}, "a", "b");
    FirstTwice(AdmitTwo([], "a", "b"), 2, {} + {"a"} + {"b"});
  }

  /** The second's place is used up: it can no longer be completed. */
  lemma SecondIsRefused()
    ensures var a := Run(PAIRS, Twice());
            && |a.ledger| == 2 && 1 !in Done(PAIRS, Twice())
            && Complete(a.usage, a.ledger[1].evidence).1 == Some(NotActive)
  {
    TwiceReached();
    var a := Run(PAIRS, Twice());
    FreeCompletes(a.usage, 2, 0, a.ledger[1].evidence);
    hide Run, Done, Twice, Complete;
  }

  /** In every run, or in every run without a repeated completion, each request not yet completed can be completed. */
  ghost predicate CompletionsReliable(repeating: bool) {
    forall c, calls, i: nat ::
      i < |Run(c, calls).ledger| && i !in Done(c, calls) && (repeating || CompletedOnce(c, calls)) ==> Completes(Run(c, calls), i)
  }

  predicate Completes(a: Account, i: nat)
    requires i < |a.ledger|
  {
    Complete(a.usage, a.ledger[i].evidence).1.None?
  }

  /** Requests that were admitted can be completed if and only if no other may be completed twice. */
  lemma ReliableExactly(repeating: bool)
    ensures CompletionsReliable(repeating) <==> !repeating
  {
    if repeating {
      SecondIsRefused();
      assert !Completes(Run(PAIRS, Twice()), 1);
      hide Run, Done, CompletedOnce, Completes, Twice;
    } else {
      forall c, calls, i: nat | i < |Run(c, calls).ledger| && i !in Done(c, calls) && CompletedOnce(c, calls)
        ensures Completes(Run(c, calls), i)
      {
        RunningCompletes(c, calls, i);
      }
    }
  }

  /** And two more are admitted beside it: three requests run under a limit of two. */
  lemma LimitIsOverrun()
    ensures var more := AdmitTwo(Twice(), "c", "d"); |StillRunning(Run(PAIRS, more).ledger, Done(PAIRS, more), A_TENANT, 0)| == 3
    ensures PAIRS.limits[A_TENANT].maxConcurrency == 2
  {
    hide Reached, Run, Done, StillRunning, AdmitTwo, Twice;
    TwiceReached();
    TwoMore(Twice(), 2, {} + {"a"} + {"b"}, {0}, "c", "d");
    ThreeRun(AdmitTwo(Twice(), "c", "d"), {} + {"a"} + {"b"} + {"c"} + {"d"});
  }

  lemma ThreeRun(calls: seq<Call>, ids: set<string>)
    requires Reached(calls, 4, 2, ids, {0})
    ensures |StillRunning(Run(PAIRS, calls).ledger, Done(PAIRS, calls), A_TENANT, 0)| == 3
  {
    var a := Run(PAIRS, calls);
    hide Run, Done, Holds;
    assert StillRunning(a.ledger, {0}, A_TENANT, 0) == {1, 2, 3};
  }

  /** Where no request lists a scope twice, no scope ever has more uncompleted requests than its limit allows. */
  ghost predicate LimitsReliable(repeating: bool) {
    forall c: Config, calls: seq<Call>, s: Scope, day: int ::
      s in c.limits && ScopesListedOnce(calls) && (repeating || CompletedOnce(c, calls))
      ==> |StillRunning(Run(c, calls).ledger, Done(c, calls), s, day)| <= c.limits[s].maxConcurrency
  }

  /** The concurrency limit binds the requests themselves if and only if none may be completed twice. */
  lemma LimitsExactly(repeating: bool)
    ensures LimitsReliable(repeating) <==> !repeating
  {
    if repeating {
      var more := AdmitTwo(Twice(), "c", "d");
      assert ScopesListedOnce(more);
      hide ScopesListedOnce, Run, Done, CompletedOnce, StillRunning, Twice, AdmitTwo;
      LimitIsOverrun();
    } else {
      forall c: Config, calls: seq<Call>, s: Scope, day: int | s in c.limits && ScopesListedOnce(calls) && CompletedOnce(c, calls)
        ensures |StillRunning(Run(c, calls).ledger, Done(c, calls), s, day)| <= c.limits[s].maxConcurrency
      {
        ConcurrencyIsBounded(c, calls, s, day);
      }
    }
  }
}
