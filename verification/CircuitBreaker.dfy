/** The provider circuit of the usage governor, against a specification over the whole history. */
module CircuitBreaker {
  import opened Prelude

  datatype Policy = Policy(threshold: nat, window: int, cooldown: int)

  /** `_Circuit`. */
  datatype Circuit = Circuit(failures: seq<int>, openUntil: Option<int>)

  const FRESH := Circuit([], None)

  function Prune(stamps: seq<int>, cutoff: int): seq<int> {
    if stamps == [] then []
    else Prune(stamps[..|stamps| - 1], cutoff) + if stamps[|stamps| - 1] >= cutoff then [stamps[|stamps| - 1]] else []
  }

  /** `record_provider_failure`. */
  function Fail(p: Policy, c: Circuit, now: int): Circuit {
    var kept := Prune(c.failures, now - p.window) + [now];
    Circuit(kept, if |kept| >= p.threshold then Some(now + p.cooldown) else c.openUntil)
  }

  predicate Open(c: Circuit, now: int) {
    c.openUntil.Some? && now < c.openUntil.value
  }

  /** The circuit step of `admit`, which closes an elapsed circuit. */
  function Gate(c: Circuit, now: int): Circuit {
    if c.openUntil.Some? && !Open(c, now) then FRESH else c
  }

  /** The pruning of `provider_health`. */
  function Inspect(p: Policy, c: Circuit, now: int): Circuit {
    c.(failures := Prune(c.failures, now - p.window))
  }

  /** What `provider_health` reports beside the provider's own record. */
  datatype Health = Health(open: bool, recentFailures: nat, openUntil: Option<int>)

  function Report(p: Policy, c: Circuit, now: int): Health {
    Health(Open(c, now), |Inspect(p, c, now).failures|, if Open(c, now) then c.openUntil else None)
  }

  datatype Event = Failure(at: int) | Success(at: int) | Attempt(at: int) | Inspection(at: int)

  function Apply(p: Policy, c: Circuit, e: Event): Circuit {
    match e
    case Failure(at) => Fail(p, c, at)
    case Success(_) => FRESH
    case Attempt(at) => Gate(c, at)
    case Inspection(at) => Inspect(p, c, at)
  }

  function Run(p: Policy, events: seq<Event>): Circuit {
    if events == [] then FRESH
    else Apply(p, Run(p, events[..|events| - 1]), events[|events| - 1])
  }

  // ----- the specification: nothing is ever pruned -----

  /** The `i`-th failure, with the earlier ones inside its window, reaches the threshold. */
  predicate Trips(p: Policy, failures: seq<int>, i: int) {
    0 <= i < |failures| && |Prune(failures[..i], failures[i] - p.window)| + 1 >= p.threshold
  }

  ghost predicate Tripped(p: Policy, failures: seq<int>) {
    exists i :: Trips(p, failures, i)
  }

  ghost predicate OpenAt(p: Policy, failures: seq<int>, t: int) {
    exists i :: Trips(p, failures, i) && t < failures[i] + p.cooldown
  }

  /** Every failure since the last success, or since the last attempt after the cooldown. */
  ghost function SinceReset(p: Policy, events: seq<Event>): seq<int> {
    if events == [] then []
    else
      var before := SinceReset(p, events[..|events| - 1]);
      match events[|events| - 1]
      case Failure(at) => before + [at]
      case Success(_) => []
      case Attempt(at) => if Tripped(p, before) && !OpenAt(p, before, at) then [] else before
      case Inspection(_) => before
  }

  predicate Ordered(events: seq<Event>) {
    forall i, j :: 0 <= i <= j < |events| ==> events[i].at <= events[j].at
  }

  // ----- pruning -----

  lemma {:induction false} PrunePrune(stamps: seq<int>, early: int, late: int)
    requires early <= late
    ensures Prune(Prune(stamps, early), late) == Prune(stamps, late)
  {
    if stamps != [] {
      var init, last := stamps[..|stamps| - 1], stamps[|stamps| - 1];
      PrunePrune(init, early, late);
      if last >= early {
        PruneSnoc(Prune(init, early), last, late);
      } else {
        assert Prune(init, early) + [] == Prune(init, early);
      }
    }
  }

  lemma PruneSnoc(stamps: seq<int>, last: int, cutoff: int)
    ensures Prune(stamps + [last], cutoff) == Prune(stamps, cutoff) + if last >= cutoff then [last] else []
  {
    assert (stamps + [last])[..|stamps|] == stamps;
  }

  lemma TripsSnoc(p: Policy, failures: seq<int>, at: int)
    ensures forall i :: 0 <= i < |failures| ==> (Trips(p, failures + [at], i) <==> Trips(p, failures, i))
    ensures Trips(p, failures + [at], |failures|) <==> |Prune(failures, at - p.window)| + 1 >= p.threshold
  {
    forall i | 0 <= i < |failures| ensures Trips(p, failures + [at], i) <==> Trips(p, failures, i) {
      assert (failures + [at])[..i] == failures[..i];
    }
    assert (failures + [at])[..|failures|] == failures;
  }

  // ----- the circuit tells what the history tells -----

  ghost predicate SameOpening(p: Policy, c: Circuit, failures: seq<int>) {
    && (c.openUntil.Some? <==> Tripped(p, failures))
    && forall t :: Open(c, t) <==> OpenAt(p, failures, t)
  }

  ghost predicate SameRecent(p: Policy, c: Circuit, failures: seq<int>, now: int) {
    && (forall cutoff :: now - p.window <= cutoff ==> Prune(c.failures, cutoff) == Prune(failures, cutoff))
    && forall i :: 0 <= i < |failures| ==> failures[i] <= now
  }

  lemma FreshMatches(p: Policy, now: int)
    ensures SameOpening(p, FRESH, []) && SameRecent(p, FRESH, [], now)
  {
    assert forall i :: !Trips(p, [], i);
  }

  lemma AppendKeepsPruned(kept: seq<int>, failures: seq<int>, at: int, cutoff: int)
    requires Prune(kept, cutoff) == Prune(failures, cutoff)
    ensures Prune(kept + [at], cutoff) == Prune(failures + [at], cutoff)
  {
    hide Prune;
    PruneSnoc(kept, at, cutoff);
    PruneSnoc(failures, at, cutoff);
  }

  lemma FailureKeepsRecent(p: Policy, c: Circuit, failures: seq<int>, before: int, at: int)
    requires before <= at && SameRecent(p, c, failures, before)
    ensures SameRecent(p, Fail(p, c, at), failures + [at], at)
  {
    hide Prune;
    var kept := Prune(c.failures, at - p.window);
    forall cutoff | at - p.window <= cutoff
      ensures Prune(kept + [at], cutoff) == Prune(failures + [at], cutoff)
    {
      PrunePrune(c.failures, at - p.window, cutoff);
      AppendKeepsPruned(kept, failures, at, cutoff);
    }
  }

  lemma FailureOpens(p: Policy, c: Circuit, failures: seq<int>, before: int, at: int)
    requires before <= at
    requires SameOpening(p, c, failures) && SameRecent(p, c, failures, before)
    ensures SameOpening(p, Fail(p, c, at), failures + [at])
  {
    var all, next := failures + [at], Fail(p, c, at);
    assert Prune(c.failures, at - p.window) == Prune(failures, at - p.window);
    TripsSnoc(p, failures, at);
    if Trips(p, all, |failures|) {
      forall t ensures Open(next, t) <==> OpenAt(p, all, t) {
        if t < at + p.cooldown { assert Trips(p, all, |failures|) && t < all[|failures|] + p.cooldown; }
      }
    } else {
      OpeningUnchanged(p, c, failures, at);
    }
  }

  lemma OpeningUnchanged(p: Policy, c: Circuit, failures: seq<int>, at: int)
    requires SameOpening(p, c, failures) && !Trips(p, failures + [at], |failures|)
    ensures Tripped(p, failures + [at]) <==> Tripped(p, failures)
    ensures forall t :: OpenAt(p, failures + [at], t) <==> OpenAt(p, failures, t)
  {
    var all := failures + [at];
    TripsSnoc(p, failures, at);
    if Tripped(p, failures) {
      var i :| Trips(p, failures, i);
      assert Trips(p, all, i);
    }
    forall t ensures OpenAt(p, all, t) <==> OpenAt(p, failures, t) {
      if OpenAt(p, failures, t) {
        var i :| Trips(p, failures, i) && t < failures[i] + p.cooldown;
        assert Trips(p, all, i) && t < all[i] + p.cooldown;
      }
      if OpenAt(p, all, t) {
        var i :| Trips(p, all, i) && t < all[i] + p.cooldown;
        assert Trips(p, failures, i) && t < failures[i] + p.cooldown;
      }
    }
  }

  lemma InspectionMatches(p: Policy, c: Circuit, failures: seq<int>, before: int, at: int)
    requires before <= at
    requires SameOpening(p, c, failures) && SameRecent(p, c, failures, before)
    ensures SameOpening(p, Inspect(p, c, at), failures) && SameRecent(p, Inspect(p, c, at), failures, at)
  {
    forall cutoff | at - p.window <= cutoff
      ensures Prune(Inspect(p, c, at).failures, cutoff) == Prune(failures, cutoff)
    {
      PrunePrune(c.failures, at - p.window, cutoff);
    }
    forall t ensures Open(Inspect(p, c, at), t) <==> OpenAt(p, failures, t) {
      assert Open(c, t) <==> OpenAt(p, failures, t);
    }
  }

  lemma StepMatches(p: Policy, c: Circuit, failures: seq<int>, before: int, e: Event, events: seq<Event>)
    requires before <= e.at && failures == SinceReset(p, events)
    requires SameOpening(p, c, failures) && SameRecent(p, c, failures, before)
    ensures SameOpening(p, Apply(p, c, e), SinceReset(p, events + [e]))
    ensures SameRecent(p, Apply(p, c, e), SinceReset(p, events + [e]), e.at)
  {
    assert (events + [e])[..|events|] == events;
    FreshMatches(p, e.at);
    match e
    case Failure(at) =>
      FailureKeepsRecent(p, c, failures, before, at);
      FailureOpens(p, c, failures, before, at);
    case Inspection(at) => InspectionMatches(p, c, failures, before, at);
    case Attempt(at) =>
      assert Open(c, at) <==> OpenAt(p, failures, at);
    case Success(_) =>
  }

  /** Main result: on a clock that never goes back, pruning loses nothing. */
  lemma {:induction false} CircuitMatchesHistory(p: Policy, events: seq<Event>)
    requires Ordered(events)
    ensures SameOpening(p, Run(p, events), SinceReset(p, events))
    ensures events != [] ==> SameRecent(p, Run(p, events), SinceReset(p, events), events[|events| - 1].at)
  {
    if events == [] {
      FreshMatches(p, 0);
    } else {
      var init, e := events[..|events| - 1], events[|events| - 1];
      CircuitMatchesHistory(p, init);
      assert init + [e] == events;
      if init == [] { FreshMatches(p, e.at); }
      var before := if init == [] then e.at else init[|init| - 1].at;
      StepMatches(p, Run(p, init), SinceReset(p, init), before, e, init);
    }
  }

  /** The health reported is the history's: open or not, until when, and how many failures are recent. */
  lemma HealthMatchesHistory(p: Policy, events: seq<Event>, now: int)
    requires Ordered(events + [Inspection(now)])
    ensures var report, failures := Report(p, Run(p, events), now), SinceReset(p, events);
            && (report.open <==> OpenAt(p, failures, now))
            && report.recentFailures == |Prune(failures, now - p.window)|
            && (report.openUntil.Some? <==> report.open)
            && (report.open ==> forall t :: OpenAt(p, failures, t) <==> t < report.openUntil.value)
  {
    var all, c := events + [Inspection(now)], Run(p, events);
    assert forall i :: 0 <= i < |events| ==> all[i] == events[i];
    CircuitMatchesHistory(p, events);
    if events == [] { FreshMatches(p, now); } else { assert events[|events| - 1].at <= all[|events|].at; }
    forall t ensures Open(c, t) <==> OpenAt(p, SinceReset(p, events), t) {}
    hide Prune, OpenAt, Run, SinceReset;
  }

  // ----- exactly which clocks -----

  function Times(events: seq<Event>): (clock: seq<int>)
    ensures |clock| == |events| && forall i :: 0 <= i < |events| ==> clock[i] == events[i].at
  {
    seq(|events|, i requires 0 <= i < |events| => events[i].at)
  }

  /** No reading is earlier than one before it. */
  predicate Rising(clock: seq<int>) {
    forall i, j :: 0 <= i <= j < |clock| ==> clock[i] <= clock[j]
  }

  /** Whatever happens at these readings, the circuit is open when its history is. */
  ghost predicate FaithfulUnder(p: Policy, clock: seq<int>) {
    forall events :: Times(events) == clock ==> SameOpening(p, Run(p, events), SinceReset(p, events))
  }

  ghost predicate Faithful(clock: seq<int>) {
    forall p :: FaithfulUnder(p, clock)
  }

  lemma {:induction false} StepsBack(clock: seq<int>) returns (i: nat)
    requires !Rising(clock)
    ensures i + 1 < |clock| && clock[i] > clock[i + 1]
  {
    var init := clock[..|clock| - 1];
    if !Rising(init) {
      i := StepsBack(init);
    } else {
      i := |clock| - 2;
    }
  }

  /** Failures at two neighbouring readings, and inspections at all others. */
  function TwoFailures(clock: seq<int>, i: nat): (events: seq<Event>)
    ensures Times(events) == clock
  {
    seq(|clock|, k requires 0 <= k < |clock| => if k == i || k == i + 1 then Failure(clock[k]) else Inspection(clock[k]))
  }

  /** The failures seen among the first `n` events. */
  function Seen(clock: seq<int>, i: nat, n: nat): seq<int>
    requires i + 1 < |clock|
  {
    if n <= i then [] else if n == i + 1 then [clock[i]] else [clock[i], clock[i + 1]]
  }

  function LastTrip(p: Policy, failures: seq<int>): Option<int> {
    if failures == [] then None else Some(failures[|failures| - 1] + p.cooldown)
  }

  /** With a threshold of one every failure opens the circuit anew, and an inspection leaves that alone. */
  lemma NextOpens(p: Policy, events: seq<Event>, e: Event)
    requires p.threshold <= 1 && (e.Failure? || e.Inspection?)
    requires Run(p, events).openUntil == LastTrip(p, SinceReset(p, events))
    ensures SinceReset(p, events + [e]) == SinceReset(p, events) + if e.Failure? then [e.at] else []
    ensures Run(p, events + [e]).openUntil == LastTrip(p, SinceReset(p, events + [e]))
  {
    assert (events + [e])[..|events|] == events;
    assert SinceReset(p, events) + [] == SinceReset(p, events);
    hide Prune, Tripped;
  }

  lemma SeenNext(clock: seq<int>, i: nat, n: nat)
    requires i + 1 < |clock| && n < |clock|
    ensures var all := TwoFailures(clock, i);
            && |all| == |clock| && all[..n + 1] == all[..n] + [all[n]] && (all[n].Failure? || all[n].Inspection?)
            && Seen(clock, i, n + 1) == Seen(clock, i, n) + if all[n].Failure? then [all[n].at] else []
  {
  }

  lemma {:induction false} PrefixOpens(p: Policy, clock: seq<int>, i: nat, n: nat)
    requires p.threshold <= 1 && i + 1 < |clock| && n <= |clock|
    ensures var events, seen := TwoFailures(clock, i)[..n], Seen(clock, i, n);
            SinceReset(p, events) == seen && Run(p, events).openUntil == LastTrip(p, seen)
    decreases n
  {
    hide Run, SinceReset, LastTrip, TwoFailures, Seen;
    var all := TwoFailures(clock, i);
    if n == 0 {
      NothingOpens(p, clock, i);
    } else {
      SeenNext(clock, i, n - 1);
      PrefixOpens(p, clock, i, n - 1);
      NextOpens(p, all[..n - 1], all[n - 1]);
    }
  }

  lemma NothingOpens(p: Policy, clock: seq<int>, i: nat)
    requires i + 1 < |clock|
    ensures TwoFailures(clock, i)[..0] == [] && Seen(clock, i, 0) == [] && SinceReset(p, []) == []
    ensures Run(p, []).openUntil == LastTrip(p, [])
  {
  }

  /** A step back closes the circuit early: the later failure replaces the time that the earlier one set. */
  lemma BackwardStepCloses(p: Policy, clock: seq<int>, i: nat)
    requires p.threshold <= 1 && i + 1 < |clock| && clock[i] > clock[i + 1]
    ensures var events, t := TwoFailures(clock, i), clock[i + 1] + p.cooldown;
            !Open(Run(p, events), t) && OpenAt(p, SinceReset(p, events), t)
  {
    var events := TwoFailures(clock, i);
    PrefixOpens(p, clock, i, |clock|);
    assert events[..|clock|] == events;
    assert Trips(p, [clock[i], clock[i + 1]], 0);
  }

  /** Where one failure opens the circuit, the clocks it can be relied on under are exactly the rising ones. */
  lemma ClockExactlyUnder(p: Policy, clock: seq<int>)
    requires p.threshold <= 1
    ensures FaithfulUnder(p, clock) <==> Rising(clock)
  {
    if Rising(clock) {
      RisingIsFaithful(p, clock);
    } else {
      var i := StepsBack(clock);
      BackwardStepCloses(p, clock, i);
      var events := TwoFailures(clock, i);
      assert Times(events) == clock;
    }
  }

  lemma RisingIsFaithful(p: Policy, clock: seq<int>)
    requires Rising(clock)
    ensures FaithfulUnder(p, clock)
  {
    forall events | Times(events) == clock ensures SameOpening(p, Run(p, events), SinceReset(p, events)) {
      CircuitMatchesHistory(p, events);
    }
  }

  /** The circuit answers as its history, whatever the policy and the events, if and only if the clock never steps back. */
  lemma ClockExactly(clock: seq<int>)
    ensures Faithful(clock) <==> Rising(clock)
  {
    hide FaithfulUnder, Rising;
    if Rising(clock) {
      forall p ensures FaithfulUnder(p, clock) { RisingIsFaithful(p, clock); }
    } else {
      ClockExactlyUnder(Policy(1, 300, 60), clock);
    }
  }
}
