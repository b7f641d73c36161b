/** Counters of running requests never go negative, and a completion right after its admission gives back what that took. */
module UsageConcurrency {
  import opened Prelude
  import opened UsageSpec
  import opened UsageConservation
  import opened UsageBudgets
  import CircuitBreaker

  // ----- no counter of running requests is ever negative -----

  ghost predicate NeverNegative(b: Books) {
    forall k: Key :: b.Daily(k).active >= 0
  }

  lemma {:induction false} ChargesNonNegative(limits: map<Scope, Limits>, b: Books, r: Request, day: int, month: int, scopes: seq<Scope>, warnings: set<Warning>)
    requires NeverNegative(b) && forall s :: s in scopes ==> s in limits
    ensures NeverNegative(ChargeScopes(limits, b, r, day, month, scopes, warnings).0)
    decreases |scopes|
  {
    if scopes != [] {
      var charged := Charge(b, r, scopes[0], day, month);
      var more := WarningsOf(limits[scopes[0]], charged.Daily((scopes[0], day)).cost, charged.Monthly((scopes[0], month)));
      forall k: Key ensures charged.Daily(k).active >= 0 { assert b.Daily(k).active >= 0; }
      ChargesNonNegative(limits, charged, r, day, month, scopes[1..], warnings + more);
    }
  }

  lemma {:induction false} RefundsNonNegative(b: Books, difference: real, day: int, month: int, scopes: seq<Scope>)
    requires NeverNegative(b)
    ensures NeverNegative(ReconcileScopes(b, difference, day, month, scopes).0)
    decreases |scopes|
  {
    if scopes != [] {
      var d, m := (scopes[0], day), (scopes[0], month);
      if d in b.daily && m in b.monthly && b.daily[d].cost >= difference && b.monthly[m] >= difference {
        forall k: Key ensures Refund(b, difference, d, m).Daily(k).active >= 0 { assert b.Daily(k).active >= 0; }
        RefundsNonNegative(Refund(b, difference, d, m), difference, day, month, scopes[1..]);
      }
    }
  }

  lemma {:induction false} ReleasesNonNegative(b: Books, day: int, scopes: seq<Scope>)
    requires NeverNegative(b)
    ensures NeverNegative(CompleteScopes(b, day, scopes).0)
    decreases |scopes|
  {
    if scopes != [] && (scopes[0], day) in b.daily && b.daily[(scopes[0], day)].active > 0 {
      forall k: Key ensures Release(b, (scopes[0], day)).Daily(k).active >= 0 { assert b.Daily(k).active >= 0; }
      ReleasesNonNegative(Release(b, (scopes[0], day)), day, scopes[1..]);
    }
  }

  lemma AdmitNonNegative(c: Config, u: Usage, r: Request, now: int)
    requires NeverNegative(u.books)
    ensures NeverNegative(Admit(c, u, r, now).0.books)
  {
    if r.model in c.models {
      var day := Day(now);
      var gated := u.(circuits := Admit(c, u, r, now).0.circuits);
      AdmitIsScopes(c, u, r, now);
      ChecksKeepBuckets(c.limits, u.books, r, day, c.monthOf(day), r.scopes);
      var (touched, error) := CheckScopes(c.limits, u.books, r, day, c.monthOf(day), r.scopes);
      if error.None? {
        ChecksCoverScopes(c.limits, u.books, r, day, c.monthOf(day), r.scopes);
        ChargesNonNegative(c.limits, touched, r, day, c.monthOf(day), r.scopes, {});
      }
      hide Admit, CheckScopes, ChargeScopes;
    }
  }

  lemma {:induction false} RunsNeverNegative(c: Config, calls: seq<Call>)
    ensures NeverNegative(Run(c, calls).usage.books)
  {
    if calls != [] {
      var a, call := Run(c, calls[..|calls| - 1]), calls[|calls| - 1];
      RunsNeverNegative(c, calls[..|calls| - 1]);
      StepNonNegative(c, a, call);
      hide Step;
    }
  }

  lemma StepNonNegative(c: Config, a: Account, call: Call)
    requires NeverNegative(a.usage.books)
    ensures NeverNegative(Step(c, a, call).usage.books)
  {
    hide Admit, ReconcileScopes, CompleteScopes;
    match call {
      case AdmitCall(r, now) => AdmitNonNegative(c, a.usage, r, now);
      case ReconcileCall(i, actual) =>
        if i < |a.ledger| {
          var e := a.ledger[i].evidence;
          RefundsNonNegative(a.usage.books, e.cost - actual, Day(e.admittedAt), c.monthOf(Day(e.admittedAt)), e.scopes);
        }
      case CompleteCall(i) =>
        if i < |a.ledger| {
          ReleasesNonNegative(a.usage.books, Day(a.ledger[i].evidence.admittedAt), a.ledger[i].evidence.scopes);
        }
      case CircuitCall(_, _) =>
    }
  }

  // ----- completion undoes the admission's concurrency -----

  function Released(d: Consumption): Consumption { d.(active := d.active - 1) }

  /** Exactly the listed scopes lose one running request; no bucket of money changes. */
  ghost predicate ReleasedExactly(b: Books, after: Books, day: int, scopes: seq<Scope>) {
    && after.monthly == b.monthly
    && forall s, d :: after.Daily((s, d)) == if s in scopes && d == day then Released(b.Daily((s, d))) else b.Daily((s, d))
  }

  predicate AllRunning(b: Books, day: int, scopes: seq<Scope>) {
    forall s :: s in scopes ==> (s, day) in b.daily && b.daily[(s, day)].active > 0
  }

  lemma {:induction false} CompletesOnce(b: Books, day: int, scopes: seq<Scope>)
    requires ListedOnce(scopes) && AllRunning(b, day, scopes)
    ensures var (after, error) := CompleteScopes(b, day, scopes); error.None? && ReleasedExactly(b, after, day, scopes)
    decreases |scopes|
  {
    if scopes != [] {
      var mid := Release(b, (scopes[0], day));
      assert forall x :: x in scopes <==> x == scopes[0] || x in scopes[1..];
      assert scopes[0] !in scopes[1..];
      assert AllRunning(mid, day, scopes[1..]);
      CompletesOnce(mid, day, scopes[1..]);
    }
  }

  /** What the completed request leaves behind: its request, cost, GPU and runtime, but no running request. */
  function Finished(d: Consumption, r: Request): Consumption { Charged(d, r).(active := d.active) }

  /** After any run: a request that lists each scope once, admitted and completed right away, frees what it took, scope by scope. */
  lemma CompletionUndoesAdmission(c: Config, calls: seq<Call>, r: Request, now: int, s: Scope, d: int, m: int)
    requires ListedOnce(r.scopes) && Admit(c, Run(c, calls).usage, r, now).1.Ok?
    ensures var u := Run(c, calls).usage;
            var (admitted, e) := Admit(c, u, r, now);
            var (completed, error) := Complete(admitted, e.value);
            && error.None? && completed == admitted.(books := completed.books)
            && completed.books.Daily((s, d)) == (if s in r.scopes && d == Day(now) then Finished(u.books.Daily((s, d)), r) else u.books.Daily((s, d)))
            && completed.books.Monthly((s, m)) == u.books.Monthly((s, m)) + (if s in r.scopes && m == c.monthOf(Day(now)) then r.cost else 0.0)
  {
    var u := Run(c, calls).usage;
    RunsNeverNegative(c, calls);
    AdmittedExactly(c, u, r, now);
    hide Run, Admit, ChargedExactly;
    var (admitted, e) := Admit(c, u, r, now);
    assert AllRunning(admitted.books, Day(now), r.scopes) by { NowRunning(u.books, admitted.books, r, Day(now), c.monthOf(Day(now))); }
    CompletesOnce(admitted.books, Day(now), r.scopes);
    Restored(u.books, admitted.books, Complete(admitted, e.value).0.books, r, Day(now), c.monthOf(Day(now)), s, d, m);
  }

  lemma AdmittedExactly(c: Config, u: Usage, r: Request, now: int)
    requires ListedOnce(r.scopes) && Admit(c, u, r, now).1.Ok?
    ensures var (after, e) := Admit(c, u, r, now);
            && e.value.scopes == r.scopes && e.value.admittedAt == now
            && ChargedExactly(u.books, after.books, r, Day(now), c.monthOf(Day(now)), r.scopes)
            && Recorded(after.books, r.scopes, Day(now), c.monthOf(Day(now)))
  {
    hide ChargedExactly, CheckScopes, ChargeScopes, Recorded;
    var day := Day(now);
    ChecksKeepBuckets(c.limits, u.books, r, day, c.monthOf(day), r.scopes);
    var touched := CheckScopes(c.limits, u.books, r, day, c.monthOf(day), r.scopes).0;
    ChecksCoverScopes(c.limits, u.books, r, day, c.monthOf(day), r.scopes);
    ChargedOnce(c.limits, touched, r, day, c.monthOf(day), r.scopes, {});
    ChargesKeepRecords(c.limits, touched, r, day, c.monthOf(day), r.scopes, {}, r.scopes);
    assert ChargedExactly(u.books, Admit(c, u, r, now).0.books, r, day, c.monthOf(day), r.scopes) by {
      SameStart(u.books, touched, Admit(c, u, r, now).0.books, r, day, c.monthOf(day));
    }
  }

  lemma SameStart(b: Books, touched: Books, after: Books, r: Request, day: int, month: int)
    requires Extends(b, touched) && ChargedExactly(touched, after, r, day, month, r.scopes)
    ensures ChargedExactly(b, after, r, day, month, r.scopes)
  {
  }

  lemma {:induction false} ChargesKeepRecords(limits: map<Scope, Limits>, b: Books, r: Request, day: int, month: int, scopes: seq<Scope>, warnings: set<Warning>, all: seq<Scope>)
    requires Recorded(b, all, day, month) && forall s :: s in scopes ==> s in limits
    ensures Recorded(ChargeScopes(limits, b, r, day, month, scopes, warnings).0, all, day, month)
    decreases |scopes|
  {
    if scopes != [] {
      var charged := Charge(b, r, scopes[0], day, month);
      var more := WarningsOf(limits[scopes[0]], charged.Daily((scopes[0], day)).cost, charged.Monthly((scopes[0], month)));
      ChargesKeepRecords(limits, charged, r, day, month, scopes[1..], warnings + more, all);
    }
  }

  lemma NowRunning(b: Books, after: Books, r: Request, day: int, month: int)
    requires NeverNegative(b) && ChargedExactly(b, after, r, day, month, r.scopes) && Recorded(after, r.scopes, day, month)
    ensures AllRunning(after, day, r.scopes)
  {
    forall s | s in r.scopes ensures (s, day) in after.daily && after.daily[(s, day)].active > 0 {
      assert after.Daily((s, day)) == Charged(b.Daily((s, day)), r);
    }
  }

  lemma Restored(b: Books, admitted: Books, completed: Books, r: Request, day: int, month: int, s: Scope, d: int, m: int)
    requires ChargedExactly(b, admitted, r, day, month, r.scopes) && ReleasedExactly(admitted, completed, day, r.scopes)
    ensures completed.Daily((s, d)) == if s in r.scopes && d == day then Finished(b.Daily((s, d)), r) else b.Daily((s, d))
    ensures completed.Monthly((s, m)) == b.Monthly((s, m)) + if s in r.scopes && m == month then r.cost else 0.0
  {
  }
}
