/** Over whole runs of the governor: what every bucket holds, and that reconciling never gets stuck. */
module UsageConservation {
  import opened Prelude
  import opened UsageSpec
  import CircuitBreaker

  /** One admitted request, and what its reservation was reconciled to. */
  datatype Entry = Entry(evidence: Evidence, actual: Option<real>) {
    function Cost(): real { if actual.Some? then actual.value else evidence.cost }

    predicate Sound() {
      evidence.cost >= 0.0 && 0.0 <= Cost() <= evidence.cost
    }
  }

  /** The governor with the list of everything it has admitted. */
  datatype Account = Account(usage: Usage, ledger: seq<Entry>)

  /** Calls of the governor; evidence is named by its place in the ledger, so it is genuine. */
  datatype Call =
    | AdmitCall(request: Request, now: int)
    | ReconcileCall(entry: nat, actual: real)
    | CompleteCall(entry: nat)
    | CircuitCall(provider: string, event: CircuitBreaker.Event)

  function Step(c: Config, a: Account, call: Call): Account {
    match call
    case AdmitCall(request, now) =>
      var (u, r) := Admit(c, a.usage, request, now);
      Account(u, if r.Ok? then a.ledger + [Entry(r.value, None)] else a.ledger)
    case ReconcileCall(i, actual) =>
      if i >= |a.ledger| then a
      else
        var (u, error) := Reconcile(c, a.usage, a.ledger[i].evidence, actual);
        Account(u, if error.None? then a.ledger[i := a.ledger[i].(actual := Some(actual))] else a.ledger)
    case CompleteCall(i) =>
      if i >= |a.ledger| then a else a.(usage := Complete(a.usage, a.ledger[i].evidence).0)
    case CircuitCall(provider, event) =>
      if provider !in c.providers then a
      else
        var next := CircuitBreaker.Apply(c.circuit, CircuitOf(a.usage.circuits, provider), event);
        a.(usage := a.usage.(circuits := a.usage.circuits[provider := next]))
  }

  function Run(c: Config, calls: seq<Call>): Account {
    if calls == [] then Account(EMPTY, [])
    else Step(c, Run(c, calls[..|calls| - 1]), calls[|calls| - 1])
  }

  // ----- sums over the ledger -----

  /** `x` once for every time `s` is listed. */
  function Share(s: Scope, scopes: seq<Scope>, x: real): real
    decreases |scopes|
  {
    if scopes == [] then 0.0 else (if scopes[0] == s then x else 0.0) + Share(s, scopes[1..], x)
  }

  lemma {:induction false} ShareLinear(s: Scope, scopes: seq<Scope>, x: real, y: real)
    ensures Share(s, scopes, x - y) == Share(s, scopes, x) - Share(s, scopes, y)
    decreases |scopes|
  {
    if scopes != [] { ShareLinear(s, scopes[1..], x, y); }
  }

  lemma {:induction false} ShareMonotone(s: Scope, scopes: seq<Scope>, x: real, y: real)
    requires 0.0 <= x <= y
    ensures 0.0 <= Share(s, scopes, x) <= Share(s, scopes, y)
    decreases |scopes|
  {
    if scopes != [] { ShareMonotone(s, scopes[1..], x, y); }
  }

  lemma {:induction false} ShareUnlisted(s: Scope, scopes: seq<Scope>, x: real)
    requires s !in scopes
    ensures Share(s, scopes, x) == 0.0
    decreases |scopes|
  {
    if scopes != [] { ShareUnlisted(s, scopes[1..], x); }
  }

  function OnDay(e: Entry, s: Scope, day: int): real {
    if Day(e.evidence.admittedAt) == day then Share(s, e.evidence.scopes, e.Cost()) else 0.0
  }

  function InMonth(c: Config, e: Entry, s: Scope, month: int): real {
    if c.monthOf(Day(e.evidence.admittedAt)) == month then Share(s, e.evidence.scopes, e.Cost()) else 0.0
  }

  /** What the admitted requests have spent in a scope on a day. */
  function DaySpend(ledger: seq<Entry>, s: Scope, day: int): real {
    if ledger == [] then 0.0 else DaySpend(ledger[..|ledger| - 1], s, day) + OnDay(ledger[|ledger| - 1], s, day)
  }

  function MonthSpend(c: Config, ledger: seq<Entry>, s: Scope, month: int): real {
    if ledger == [] then 0.0
    else MonthSpend(c, ledger[..|ledger| - 1], s, month) + InMonth(c, ledger[|ledger| - 1], s, month)
  }

  lemma SpendSnoc(c: Config, ledger: seq<Entry>, e: Entry, s: Scope, day: int, month: int)
    ensures DaySpend(ledger + [e], s, day) == DaySpend(ledger, s, day) + OnDay(e, s, day)
    ensures MonthSpend(c, ledger + [e], s, month) == MonthSpend(c, ledger, s, month) + InMonth(c, e, s, month)
  {
    assert (ledger + [e])[..|ledger|] == ledger;
  }

  lemma {:induction false} SpendUpdate(c: Config, ledger: seq<Entry>, i: nat, e: Entry, s: Scope, day: int, month: int)
    requires i < |ledger|
    ensures DaySpend(ledger[i := e], s, day) == DaySpend(ledger, s, day) - OnDay(ledger[i], s, day) + OnDay(e, s, day)
    ensures MonthSpend(c, ledger[i := e], s, month)
         == MonthSpend(c, ledger, s, month) - InMonth(c, ledger[i], s, month) + InMonth(c, e, s, month)
  {
    var n := |ledger| - 1;
    if i == n {
      assert ledger[i := e][..n] == ledger[..n];
    } else {
      assert ledger[i := e][..n] == ledger[..n][i := e];
      SpendUpdate(c, ledger[..n], i, e, s, day, month);
    }
  }

  predicate AllSound(ledger: seq<Entry>) {
    forall i :: 0 <= i < |ledger| ==> ledger[i].Sound()
  }

  /** Every bucket covers each single contribution to it. */
  lemma {:induction false} SpendCovers(c: Config, ledger: seq<Entry>, i: nat, s: Scope, day: int, month: int)
    requires AllSound(ledger) && i < |ledger|
    ensures DaySpend(ledger, s, day) >= OnDay(ledger[i], s, day)
    ensures MonthSpend(c, ledger, s, month) >= InMonth(c, ledger[i], s, month)
  {
    var n := |ledger| - 1;
    SpendNonNegative(c, ledger[..n], s, day, month);
    ShareMonotone(s, ledger[n].evidence.scopes, 0.0, ledger[n].Cost());
    ShareZero(s, ledger[n].evidence.scopes);
    if i < n { SpendCovers(c, ledger[..n], i, s, day, month); }
  }

  lemma {:induction false} ShareZero(s: Scope, scopes: seq<Scope>)
    ensures Share(s, scopes, 0.0) == 0.0
    decreases |scopes|
  {
    if scopes != [] { ShareZero(s, scopes[1..]); }
  }

  lemma {:induction false} SpendNonNegative(c: Config, ledger: seq<Entry>, s: Scope, day: int, month: int)
    requires AllSound(ledger)
    ensures DaySpend(ledger, s, day) >= 0.0 && MonthSpend(c, ledger, s, month) >= 0.0
  {
    if ledger != [] {
      var n := |ledger| - 1;
      SpendNonNegative(c, ledger[..n], s, day, month);
      ShareMonotone(s, ledger[n].evidence.scopes, 0.0, ledger[n].Cost());
    }
  }

  // ----- what the loops do to the buckets -----

  /** Both books show the same buckets, and the first has no record the second lacks. */
  ghost predicate Extends(a: Books, b: Books) {
    && (forall k :: a.Daily(k) == b.Daily(k)) && (forall k :: a.Monthly(k) == b.Monthly(k))
    && a.daily.Keys <= b.daily.Keys && a.monthly.Keys <= b.monthly.Keys
  }

  predicate Recorded(b: Books, scopes: seq<Scope>, day: int, month: int) {
    forall s :: s in scopes ==> (s, day) in b.daily && (s, month) in b.monthly
  }

  lemma {:induction false} ChecksKeepBuckets(limits: map<Scope, Limits>, b: Books, r: Request, day: int, month: int, scopes: seq<Scope>)
    ensures var (after, error) := CheckScopes(limits, b, r, day, month, scopes);
            Extends(b, after) && (error.None? ==> Recorded(after, scopes, day, month))
    decreases |scopes|
  {
    if scopes != [] {
      var touched := b.Touch(scopes[0], day, month);
      assert Extends(b, touched);
      ChecksKeepBuckets(limits, touched, r, day, month, scopes[1..]);
    }
  }

  /** `after` is `b` with `x` added once per listing in the buckets of the day and the month. */
  ghost predicate Moved(b: Books, after: Books, day: int, month: int, scopes: seq<Scope>, x: real) {
    && (forall s, d :: after.Daily((s, d)).cost == b.Daily((s, d)).cost + if d == day then Share(s, scopes, x) else 0.0)
    && (forall s, m :: after.Monthly((s, m)) == b.Monthly((s, m)) + if m == month then Share(s, scopes, x) else 0.0)
    && b.daily.Keys <= after.daily.Keys && b.monthly.Keys <= after.monthly.Keys
  }

  lemma MovedStep(b: Books, mid: Books, after: Books, day: int, month: int, scopes: seq<Scope>, x: real)
    requires scopes != []
    requires Moved(b, mid, day, month, [scopes[0]], x) && Moved(mid, after, day, month, scopes[1..], x)
    ensures Moved(b, after, day, month, scopes, x)
  {
    forall s ensures Share(s, [scopes[0]], x) + Share(s, scopes[1..], x) == Share(s, scopes, x) {
      ShareOne(s, scopes[0], x);
    }
  }

  lemma ShareOne(s: Scope, listed: Scope, x: real)
    ensures Share(s, [listed], x) == if listed == s then x else 0.0
  {
    assert [listed][1..] == [];
  }

  lemma ChargeMoves(b: Books, r: Request, s: Scope, day: int, month: int)
    ensures Moved(b, Charge(b, r, s, day, month), day, month, [s], r.cost)
  {
    forall other ensures Share(other, [s], r.cost) == if s == other then r.cost else 0.0 {
      ShareOne(other, s, r.cost);
    }
  }

  lemma {:induction false} ChargesMove(limits: map<Scope, Limits>, b: Books, r: Request, day: int, month: int, scopes: seq<Scope>, warnings: set<Warning>)
    requires forall s :: s in scopes ==> s in limits
    ensures Moved(b, ChargeScopes(limits, b, r, day, month, scopes, warnings).0, day, month, scopes, r.cost)
    decreases |scopes|
  {
    if scopes == [] {
      forall s ensures Share(s, scopes, r.cost) == 0.0 { ShareUnlisted(s, scopes, r.cost); }
    } else {
      var charged := Charge(b, r, scopes[0], day, month);
      var more := WarningsOf(limits[scopes[0]], charged.Daily((scopes[0], day)).cost, charged.Monthly((scopes[0], month)));
      ChargeMoves(b, r, scopes[0], day, month);
      ChargesMove(limits, charged, r, day, month, scopes[1..], warnings + more);
      MovedStep(b, charged, ChargeScopes(limits, b, r, day, month, scopes, warnings).0, day, month, scopes, r.cost);
    }
  }

  /** The buckets hold at least `x` per listing. */
  ghost predicate Covers(b: Books, x: real, day: int, month: int, scopes: seq<Scope>) {
    && Recorded(b, scopes, day, month)
    && forall s :: b.Daily((s, day)).cost >= Share(s, scopes, x) && b.Monthly((s, month)) >= Share(s, scopes, x)
  }

  lemma RefundMoves(b: Books, x: real, s: Scope, day: int, month: int)
    ensures Moved(b, Refund(b, x, (s, day), (s, month)), day, month, [s], -x)
  {
    var refund := -x;
    forall other ensures Share(other, [s], refund) == if s == other then refund else 0.0 {
      ShareOne(other, s, refund);
    }
  }

  /** With cover for every listing, the refunding loop meets neither of its guards. */
  lemma {:induction false} RefundsSucceed(b: Books, x: real, day: int, month: int, scopes: seq<Scope>)
    requires x >= 0.0 && Covers(b, x, day, month, scopes)
    ensures var (after, error) := ReconcileScopes(b, x, day, month, scopes);
            error.None? && Moved(b, after, day, month, scopes, -x)
    decreases |scopes|
  {
    if scopes != [] {
      var s := scopes[0];
      var mid := Refund(b, x, (s, day), (s, month));
      ShareMonotone(s, scopes[1..], 0.0, x);
      ShareZero(s, scopes[1..]);
      RefundMoves(b, x, s, day, month);
      RefundKeepsCover(b, mid, x, day, month, scopes);
      RefundsSucceed(mid, x, day, month, scopes[1..]);
      MovedStep(b, mid, ReconcileScopes(b, x, day, month, scopes).0, day, month, scopes, -x);
    }
  }

  lemma RefundKeepsCover(b: Books, mid: Books, x: real, day: int, month: int, scopes: seq<Scope>)
    requires scopes != [] && x >= 0.0 && Covers(b, x, day, month, scopes)
    requires Moved(b, mid, day, month, [scopes[0]], -x)
    ensures Covers(mid, x, day, month, scopes[1..])
  {
    forall s ensures Share(s, [scopes[0]], -x) + Share(s, scopes, x) == Share(s, scopes[1..], x) {
      ShareOne(s, scopes[0], -x);
    }
  }

  lemma {:induction false} CompletionKeepsCosts(b: Books, day: int, scopes: seq<Scope>)
    ensures var after := CompleteScopes(b, day, scopes).0;
            && (forall k :: after.Daily(k).cost == b.Daily(k).cost)
            && after.monthly == b.monthly && after.daily.Keys == b.daily.Keys
    decreases |scopes|
  {
    if scopes != [] && (scopes[0], day) in b.daily && b.daily[(scopes[0], day)].active > 0 {
      CompletionKeepsCosts(Release(b, (scopes[0], day)), day, scopes[1..]);
    }
  }

  // ----- the invariant of every run -----

  ghost predicate BucketsMatch(c: Config, b: Books, ledger: seq<Entry>) {
    && (forall s, d :: b.Daily((s, d)).cost == DaySpend(ledger, s, d))
    && (forall s, m :: b.Monthly((s, m)) == MonthSpend(c, ledger, s, m))
  }

  predicate AllRecorded(c: Config, b: Books, ledger: seq<Entry>) {
    forall i :: 0 <= i < |ledger| ==>
      var e := ledger[i].evidence; Recorded(b, e.scopes, Day(e.admittedAt), c.monthOf(Day(e.admittedAt)))
  }

  /** Admitted ids are distinct, and exactly the reconciled ones are marked. */
  predicate IdsMatch(u: Usage, ledger: seq<Entry>) {
    && (forall i :: 0 <= i < |ledger| ==> ledger[i].evidence.id in u.requests)
    && (forall i, j :: 0 <= i < j < |ledger| ==> ledger[i].evidence.id != ledger[j].evidence.id)
    && (forall i :: 0 <= i < |ledger| ==> (ledger[i].evidence.id in u.reconciled <==> ledger[i].actual.Some?))
    && u.reconciled <= u.requests
  }

  ghost predicate Balanced(c: Config, a: Account) {
    && BucketsMatch(c, a.usage.books, a.ledger)
    && AllRecorded(c, a.usage.books, a.ledger)
    && IdsMatch(a.usage, a.ledger)
    && AllSound(a.ledger)
  }

  lemma AdmitOutcome(c: Config, u: Usage, r: Request, now: int)
    ensures var (after, result) := Admit(c, u, r, now);
            && (result.Err? ==> Extends(u.books, after.books) && after.requests == u.requests && after.reconciled == u.reconciled)
            && (result.Ok? ==>
                  var e := result.value;
                  var day := Day(now);
                  && e.id == r.id && e.id !in u.requests && e.scopes == r.scopes && e.cost == r.cost && e.admittedAt == now
                  && after.requests == u.requests + {r.id} && after.reconciled == u.reconciled
                  && Moved(u.books, after.books, day, c.monthOf(day), r.scopes, r.cost)
                  && Recorded(after.books, r.scopes, day, c.monthOf(day)))
  {
    if r.model in c.models {
      AdmitScopesOutcome(c, u.(circuits := Admit(c, u, r, now).0.circuits), r, now, c.models[r.model]);
    }
  }

  lemma AdmitScopesOutcome(c: Config, u: Usage, r: Request, now: int, model: Model)
    ensures var (after, result) := AdmitScopes(c, u, r, now, model);
            var day := Day(now);
            && (result.Err? ==> Extends(u.books, after.books))
            && (result.Ok? ==> Moved(u.books, after.books, day, c.monthOf(day), r.scopes, r.cost))
            && (result.Ok? ==> Recorded(after.books, r.scopes, day, c.monthOf(day)))
  {
    var day := Day(now);
    var month := c.monthOf(day);
    ChecksKeepBuckets(c.limits, u.books, r, day, month, r.scopes);
    var (touched, error) := CheckScopes(c.limits, u.books, r, day, month, r.scopes);
    if error.None? {
      ChecksCoverScopes(c.limits, u.books, r, day, month, r.scopes);
      ChargesMove(c.limits, touched, r, day, month, r.scopes, {});
    }
  }

  lemma AdmitKeepsBalance(c: Config, a: Account, r: Request, now: int)
    requires Balanced(c, a)
    ensures Balanced(c, Step(c, a, AdmitCall(r, now)))
  {
    hide Admit, Share, Recorded, Books.Daily, Books.Monthly, Day;
    AdmitOutcome(c, a.usage, r, now);
    var (after, result) := Admit(c, a.usage, r, now);
    if result.Ok? {
      var e := Entry(result.value, None);
      forall s, d, m
        ensures DaySpend(a.ledger + [e], s, d) == DaySpend(a.ledger, s, d) + OnDay(e, s, d)
        ensures MonthSpend(c, a.ledger + [e], s, m) == MonthSpend(c, a.ledger, s, m) + InMonth(c, e, s, m)
      {
        SpendSnoc(c, a.ledger, e, s, d, m);
      }
      RecordedStay(c, a.usage.books, after.books, a.ledger);
      AdmitBuckets(c, a.usage.books, after.books, a.ledger, e);
    } else {
      RecordedStay(c, a.usage.books, after.books, a.ledger);
    }
  }

  lemma RecordedStay(c: Config, b: Books, after: Books, ledger: seq<Entry>)
    requires AllRecorded(c, b, ledger) && b.daily.Keys <= after.daily.Keys && b.monthly.Keys <= after.monthly.Keys
    ensures AllRecorded(c, after, ledger)
  {
  }

  lemma AdmitBuckets(c: Config, b: Books, after: Books, ledger: seq<Entry>, e: Entry)
    requires BucketsMatch(c, b, ledger) && e.actual == None
    requires var day := Day(e.evidence.admittedAt);
             Moved(b, after, day, c.monthOf(day), e.evidence.scopes, e.evidence.cost)
    ensures BucketsMatch(c, after, ledger + [e])
  {
    hide Share, DaySpend, MonthSpend, Books.Daily, Books.Monthly;
    forall s, d ensures after.Daily((s, d)).cost == DaySpend(ledger + [e], s, d) {
      SpendSnoc(c, ledger, e, s, d, 0);
    }
    forall s, m ensures after.Monthly((s, m)) == MonthSpend(c, ledger + [e], s, m) {
      SpendSnoc(c, ledger, e, s, 0, m);
    }
  }

  /** Every listing of a genuine entry is covered, down to any smaller actual cost. */
  lemma EntryCovered(c: Config, a: Account, i: nat, x: real)
    requires Balanced(c, a) && i < |a.ledger| && a.ledger[i].actual == None
    requires 0.0 <= x <= a.ledger[i].evidence.cost
    ensures var e := a.ledger[i].evidence;
            Covers(a.usage.books, x, Day(e.admittedAt), c.monthOf(Day(e.admittedAt)), e.scopes)
  {
    hide DaySpend, MonthSpend, Share, Recorded, Books.Daily, Books.Monthly, Day;
    var e := a.ledger[i].evidence;
    var day := Day(e.admittedAt);
    forall s
      ensures a.usage.books.Daily((s, day)).cost >= Share(s, e.scopes, x)
      ensures a.usage.books.Monthly((s, c.monthOf(day))) >= Share(s, e.scopes, x)
    {
      SpendCovers(c, a.ledger, i, s, day, c.monthOf(day));
      ShareMonotone(s, e.scopes, x, e.cost);
    }
  }

  lemma ReconcileBuckets(c: Config, b: Books, after: Books, ledger: seq<Entry>, i: nat, actual: real)
    requires BucketsMatch(c, b, ledger) && i < |ledger| && ledger[i].actual == None
    requires var e := ledger[i].evidence;
             Moved(b, after, Day(e.admittedAt), c.monthOf(Day(e.admittedAt)), e.scopes, actual - e.cost)
    ensures BucketsMatch(c, after, ledger[i := ledger[i].(actual := Some(actual))])
  {
    hide Share, DaySpend, MonthSpend, Books.Daily, Books.Monthly, Day;
    var e := ledger[i].evidence;
    var settled := ledger[i].(actual := Some(actual));
    forall s, d ensures after.Daily((s, d)).cost == DaySpend(ledger[i := settled], s, d) {
      SpendUpdate(c, ledger, i, settled, s, d, 0);
      ShareLinear(s, e.scopes, actual, e.cost);
    }
    forall s, m ensures after.Monthly((s, m)) == MonthSpend(c, ledger[i := settled], s, m) {
      SpendUpdate(c, ledger, i, settled, s, 0, m);
      ShareLinear(s, e.scopes, actual, e.cost);
    }
  }

  predicate RefusedUpFront(error: Option<GovernanceError>) {
    error.Some? && error.value in {NegativeActual, ActualExceedsReserved, AlreadyReconciled}
  }

  /** Reconciling genuine evidence either is refused before the loop or runs to its end. */
  lemma GenuineReconcile(c: Config, a: Account, i: nat, actual: real)
    requires Balanced(c, a) && i < |a.ledger|
    ensures var (after, error) := Reconcile(c, a.usage, a.ledger[i].evidence, actual);
            var e := a.ledger[i].evidence;
            && (error.None? <==> 0.0 <= actual <= e.cost && a.ledger[i].actual == None)
            && (error.Some? ==> RefusedUpFront(error) && after == a.usage)
            && (error.None? ==>
                  && after.requests == a.usage.requests && after.reconciled == a.usage.reconciled + {e.id}
                  && Moved(a.usage.books, after.books, Day(e.admittedAt), c.monthOf(Day(e.admittedAt)), e.scopes, actual - e.cost))
  {
    hide Share, DaySpend, MonthSpend, Books.Daily, Books.Monthly, Day, Moved, ReconcileScopes, BucketsMatch, AllRecorded, AllSound;
    var e := a.ledger[i].evidence;
    if 0.0 <= actual <= e.cost && a.ledger[i].actual == None {
      var x := e.cost - actual;
      EntryCovered(c, a, i, x);
      RefundsSucceed(a.usage.books, x, Day(e.admittedAt), c.monthOf(Day(e.admittedAt)), e.scopes);
      assert -x == actual - e.cost;
    }
  }

  lemma ReconcileKeepsBalance(c: Config, a: Account, i: nat, actual: real)
    requires Balanced(c, a)
    ensures Balanced(c, Step(c, a, ReconcileCall(i, actual)))
  {
    hide Reconcile, Share, BucketsMatch, Recorded, Day;
    if i < |a.ledger| {
      GenuineReconcile(c, a, i, actual);
      var (after, error) := Reconcile(c, a.usage, a.ledger[i].evidence, actual);
      if error.None? {
        ReconcileBuckets(c, a.usage.books, after.books, a.ledger, i, actual);
        RecordedStay(c, a.usage.books, after.books, a.ledger);
      }
    }
  }

  lemma CompleteKeepsBalance(c: Config, a: Account, i: nat)
    requires Balanced(c, a)
    ensures Balanced(c, Step(c, a, CompleteCall(i)))
  {
    hide CompleteScopes, DaySpend, MonthSpend, Recorded, Day;
    if i < |a.ledger| {
      var e := a.ledger[i].evidence;
      CompletionKeepsCosts(a.usage.books, Day(e.admittedAt), e.scopes);
      RecordedStay(c, a.usage.books, Complete(a.usage, e).0.books, a.ledger);
    }
  }

  /** Conservation: on every run each bucket is exactly what the admitted requests spent in it. */
  lemma {:induction false} RunsStayBalanced(c: Config, calls: seq<Call>)
    ensures Balanced(c, Run(c, calls))
  {
    hide Admit, Reconcile, Complete;
    if calls != [] {
      var before := Run(c, calls[..|calls| - 1]);
      RunsStayBalanced(c, calls[..|calls| - 1]);
      match calls[|calls| - 1]
      case AdmitCall(r, now) => AdmitKeepsBalance(c, before, r, now);
      case ReconcileCall(i, actual) => ReconcileKeepsBalance(c, before, i, actual);
      case CompleteCall(i) => CompleteKeepsBalance(c, before, i);
      case CircuitCall(_, _) =>
    }
  }

  /** On every run, reconciling an admitted request never stops inside its loop. */
  lemma ReconcileNeverStuck(c: Config, calls: seq<Call>, i: nat, actual: real)
    requires i < |Run(c, calls).ledger|
    ensures var a := Run(c, calls);
            var (after, error) := Reconcile(c, a.usage, a.ledger[i].evidence, actual);
            && (error.None? <==> 0.0 <= actual <= a.ledger[i].evidence.cost && a.ledger[i].actual == None)
            && (error.Some? ==> RefusedUpFront(error) && after == a.usage)
  {
    hide Reconcile, Run;
    RunsStayBalanced(c, calls);
    GenuineReconcile(c, Run(c, calls), i, actual);
  }

  // ----- months are the sums of their days -----

  function SumOverDays(ledger: seq<Entry>, s: Scope, days: seq<int>): real {
    if days == [] then 0.0 else DaySpend(ledger, s, days[0]) + SumOverDays(ledger, s, days[1..])
  }

  function BucketSum(b: Books, s: Scope, days: seq<int>): real {
    if days == [] then 0.0 else b.Daily((s, days[0])).cost + BucketSum(b, s, days[1..])
  }

  function EntryOverDays(e: Entry, s: Scope, days: seq<int>): real {
    if days == [] then 0.0 else OnDay(e, s, days[0]) + EntryOverDays(e, s, days[1..])
  }

  predicate Distinct(days: seq<int>) {
    forall i, j :: 0 <= i < j < |days| ==> days[i] != days[j]
  }

  lemma {:induction false} EntryCountedOnce(e: Entry, s: Scope, days: seq<int>)
    requires Distinct(days)
    ensures EntryOverDays(e, s, days) ==
            if Day(e.evidence.admittedAt) in days then Share(s, e.evidence.scopes, e.Cost()) else 0.0
  {
    hide Share, Day;
    if days != [] { EntryCountedOnce(e, s, days[1..]); }
  }

  lemma {:induction false} SumOverDaysSnoc(c: Config, ledger: seq<Entry>, e: Entry, s: Scope, days: seq<int>)
    ensures SumOverDays(ledger + [e], s, days) == SumOverDays(ledger, s, days) + EntryOverDays(e, s, days)
  {
    hide OnDay;
    if days != [] {
      SpendSnoc(c, ledger, e, s, days[0], 0);
      SumOverDaysSnoc(c, ledger, e, s, days[1..]);
    }
  }

  lemma {:induction false} SumOverNoEntries(s: Scope, days: seq<int>)
    ensures SumOverDays([], s, days) == 0.0
  {
    if days != [] { SumOverNoEntries(s, days[1..]); }
  }

  /** The days of one month cover the ledger's entries of a scope in that month. */
  ghost predicate CoversMonth(c: Config, ledger: seq<Entry>, s: Scope, month: int, days: seq<int>) {
    && Distinct(days)
    && (forall d :: d in days ==> c.monthOf(d) == month)
    && forall i :: 0 <= i < |ledger| ==>
         var e := ledger[i].evidence;
         s in e.scopes && c.monthOf(Day(e.admittedAt)) == month ==> Day(e.admittedAt) in days
  }

  lemma {:induction false} DaysSumToMonth(c: Config, ledger: seq<Entry>, s: Scope, month: int, days: seq<int>)
    requires CoversMonth(c, ledger, s, month, days)
    ensures SumOverDays(ledger, s, days) == MonthSpend(c, ledger, s, month)
  {
    hide Day;
    if ledger == [] {
      SumOverNoEntries(s, days);
    } else {
      var init, e := ledger[..|ledger| - 1], ledger[|ledger| - 1];
      assert CoversMonth(c, init, s, month, days);
      DaysSumToMonth(c, init, s, month, days);
      assert init + [e] == ledger;
      SumOverDaysSnoc(c, init, e, s, days);
      EntryCountedOnce(e, s, days);
      SpendSnoc(c, init, e, s, 0, month);
      if s !in e.evidence.scopes { ShareUnlisted(s, e.evidence.scopes, e.Cost()); }
    }
  }

  lemma {:induction false} BucketSumIsSpend(c: Config, b: Books, ledger: seq<Entry>, s: Scope, days: seq<int>)
    requires BucketsMatch(c, b, ledger)
    ensures BucketSum(b, s, days) == SumOverDays(ledger, s, days)
  {
    hide DaySpend, MonthSpend, Books.Daily;
    if days != [] { BucketSumIsSpend(c, b, ledger, s, days[1..]); }
  }

  /** On every run, a month's bucket is the sum of the day buckets recorded in that month. */
  lemma MonthIsSumOfDays(c: Config, calls: seq<Call>, s: Scope, month: int, days: seq<int>)
    requires Distinct(days) && forall d :: d in days ==> c.monthOf(d) == month
    requires forall d :: (s, d) in Run(c, calls).usage.books.daily && c.monthOf(d) == month ==> d in days
    ensures Run(c, calls).usage.books.Monthly((s, month)) == BucketSum(Run(c, calls).usage.books, s, days)
  {
    hide Run, DaySpend, MonthSpend, Books.Daily, Books.Monthly, Day, SumOverDays, BucketSum;
    var a := Run(c, calls);
    RunsStayBalanced(c, calls);
    forall i | 0 <= i < |a.ledger|
      ensures var e := a.ledger[i].evidence;
              s in e.scopes && c.monthOf(Day(e.admittedAt)) == month ==> Day(e.admittedAt) in days
    {
      var e := a.ledger[i].evidence;
      assert Recorded(a.usage.books, e.scopes, Day(e.admittedAt), c.monthOf(Day(e.admittedAt)));
    }
    DaysSumToMonth(c, a.ledger, s, month, days);
    BucketSumIsSpend(c, a.usage.books, a.ledger, s, days);
  }
}
