/** Each excuse of `CallbacksAgree` is needed: with it alone, two finished callbacks of one state can differ. */
module SignInDisagree {
  import opened Prelude
  import opened SignIn
  import opened SignInSafety
  import opened SignInRuns
  import opened SignInGap

  // ----- a callback that runs alone, in the order that marks first -----

  lemma CallbackMarks(c: Core, i: int, t: Thread, choice: Choice)
    requires Waiting(c, t.call.state) && t.pc == At(Entering(Lock)) && !t.microsoft
    ensures var s := t.call.state;
            Iterate(c, i, t, choice, 5)
            == (c.(lock := Some(i), markers := c.markers[s := c.flows.at[s].provider]),
                t.PurgeThen(Entering(Claim)).(owns := true, provider := c.flows.at[s].provider))
  {
    hide StepPoll, StepWork, StepLeave, StepOther, StepSweep, StepClaim;
    var (c1, t1) := Micro(c, i, t, choice);
    var (c2, t2) := Micro(c1, i, t1, choice);
    var (c3, t3) := Micro(c2, i, t2, choice);
    var (c4, t4) := Micro(c3, i, t3, choice);
    var (c5, t5) := Micro(c4, i, t4, choice);
    assert Iterate(c4, i, t4, choice, 1) == (c5, t5);
    assert Iterate(c3, i, t3, choice, 2) == (c5, t5);
    assert Iterate(c2, i, t2, choice, 3) == (c5, t5);
    assert Iterate(c1, i, t1, choice, 4) == (c5, t5);
  }

  /** The flow is popped under its marker, and the exchange comes next. */
  lemma CallbackClaims(c: Core, i: int, t: Thread, choice: Choice)
    requires Waiting(c, t.call.state) && t.pc == At(Entering(Lock)) && !t.microsoft
    requires Quiet(c, choice.clock) && choice.clock < c.flows.at[t.call.state].expires
    ensures var s := t.call.state;
            Iterate(c, i, t, choice, 9)
            == (c.(lock := Some(i), markers := c.markers[s := c.flows.at[s].provider], flows := c.flows.Pop(s))
                 .Note(s, c.Past(s).(consumer := Some(i))),
                t.To(Working(Exchange)).(owns := true, provider := c.flows.at[s].provider, clock := choice.clock))
  {
    hide Iterate, Overdue, Oldest;
    var s := t.call.state;
    CallbackMarks(c, i, t, choice);
    var c1 := c.(lock := Some(i), markers := c.markers[s := c.flows.at[s].provider]);
    var t1 := t.PurgeThen(Entering(Claim)).(owns := true, provider := c.flows.at[s].provider);
    SweepRuns(c1, i, t1, choice);
    IterateMore(c, i, t, choice, 5, 4);
    IterateMore(c1, i, t1, choice, 3, 1);
    OneStep(c1, i, t1.To(Entering(Claim)).(clock := choice.clock), choice);
  }

  lemma OneStep(c: Core, i: int, t: Thread, choice: Choice)
    ensures Iterate(c, i, t, choice, 1) == Micro(c, i, t, choice)
  {
    hide Micro;
    var (c', t') := Micro(c, i, t, choice);
    assert Iterate(c', i, t', choice, 0) == (c', t');
  }

  /** Past the claim: exchange, publication, save, marker and lock. */
  lemma CallbackPublishes(c: Core, i: int, t: Thread, choice: Choice)
    requires t.pc == At(Working(Exchange)) && !t.microsoft && choice.outcome.Succeeds?
    ensures var s, status := t.call.state, Status(t.provider, Authenticated, Some(choice.outcome.session));
            var h := c.Past(s).(exchanges := c.Past(s).exchanges + 1);
            Iterate(c, i, t, choice, 2)
            == (c.Note(s, h).(results := c.results.Set(s, status)).Note(s, h.(published := Some(status))), t.To(Working(Save(status))))
  {
    hide StepPoll, StepEnter, StepLeave, StepOther, StepSweep, Iterate;
    var (c1, t1) := Micro(c, i, t, choice);
    OneStep(c, i, t, choice);
    OneStep(c1, i, t1, choice);
    IterateMore(c, i, t, choice, 1, 1);
  }

  lemma CallbackSaves(c: Core, i: int, t: Thread, choice: Choice, status: Status)
    requires t.pc == At(Working(Save(status))) && !t.microsoft && choice.outcome.Succeeds?
    ensures Iterate(c, i, t, choice, 3) == (c.(markers := c.markers - {t.call.state}, lock := None), t.To(Finished(Returned(status))))
  {
    hide StepPoll, StepEnter, StepOther, StepSweep;
    var (c1, t1) := Micro(c, i, t, choice);
    var (c2, t2) := Micro(c1, i, t1, choice);
    var (c3, t3) := Micro(c2, i, t2, choice);
    assert Iterate(c2, i, t2, choice, 1) == (c3, t3);
    assert Iterate(c1, i, t1, choice, 2) == (c3, t3);
  }

  function Trimmed(c: Core, s: string): Core {
    if |c.errors.order| > KEPT && c.errors.order[0] != s then Forget(c, c.errors.order[0]) else c
  }

  lemma CallbackFails(c: Core, i: int, t: Thread, choice: Choice, message: Message)
    requires t.pc == At(Leaving(Fail(message))) && t.owns
    ensures var s := t.call.state;
            var failed := Trimmed(c.(errors := c.errors.Set(s, message)).Note(s, c.Past(s).(failed := Some(message))), s);
            Iterate(c, i, t, choice, 4) == (failed.(markers := failed.markers - {s}, lock := None), t.To(Finished(Raised(message))))
  {
    hide StepPoll, StepEnter, StepOther, StepSweep, Forget;
    var (c1, t1) := Micro(c, i, t, choice);
    var (c2, t2) := Micro(c1, i, t1, choice);
    var (c3, t3) := Micro(c2, i, t2, choice);
    var (c4, t4) := Micro(c3, i, t3, choice);
    assert Iterate(c3, i, t3, choice, 1) == (c4, t4);
    assert Iterate(c2, i, t2, choice, 2) == (c4, t4);
    assert Iterate(c1, i, t1, choice, 3) == (c4, t4);
  }

  lemma CallbackCrashes(c: Core, i: int, t: Thread, choice: Choice)
    requires t.pc == At(Working(Exchange)) && choice.outcome.Crashes?
    ensures var s := t.call.state;
            Iterate(c, i, t, choice, 3)
            == (c.(markers := c.markers - {s}, lock := None).Note(s, c.Past(s).(exchanges := c.Past(s).exchanges + 1, crashed := true)),
                t.To(Finished(Crashed)))
  {
    hide StepPoll, StepEnter, StepOther, StepSweep;
    var (c1, t1) := Micro(c, i, t, choice);
    var (c2, t2) := Micro(c1, i, t1, choice);
    var (c3, t3) := Micro(c2, i, t2, choice);
    assert Iterate(c2, i, t2, choice, 1) == (c3, t3);
    assert Iterate(c1, i, t1, choice, 2) == (c3, t3);
  }

  // ----- a callback that comes later -----

  lemma LateReturns(c: Core, i: int, t: Thread, choice: Choice)
    requires t.call.state in c.results.at && c.lock.None? && t.pc == At(Entering(Lock))
    ensures Iterate(c, i, t, choice, 3) == (c, t.To(Finished(Returned(c.results.at[t.call.state]))))
  {
    hide StepPoll, StepWork, StepOther, StepSweep, StepClaim;
    var (c1, t1) := Micro(c, i, t, choice);
    var (c2, t2) := Micro(c1, i, t1, choice);
    var (c3, t3) := Micro(c2, i, t2, choice);
    assert Iterate(c2, i, t2, choice, 1) == (c3, t3);
    assert Iterate(c1, i, t1, choice, 2) == (c3, t3);
    assert c.(lock := None) == c;
  }

  lemma LateLooks(c: Core, i: int, t: Thread, choice: Choice)
    requires NothingStored(c, t.call.state) && c.lock.None? && t.pc == At(Entering(Lock)) && !t.microsoft
    ensures Iterate(c, i, t, choice, 4) == (c.(lock := Some(i)), t.PurgeThen(Entering(Claim)))
  {
    hide StepPoll, StepWork, StepLeave, StepOther, StepSweep, StepClaim;
    var (c1, t1) := Micro(c, i, t, choice);
    var (c2, t2) := Micro(c1, i, t1, choice);
    var (c3, t3) := Micro(c2, i, t2, choice);
    var (c4, t4) := Micro(c3, i, t3, choice);
    assert Iterate(c3, i, t3, choice, 1) == (c4, t4);
    assert Iterate(c2, i, t2, choice, 2) == (c4, t4);
    assert Iterate(c1, i, t1, choice, 3) == (c4, t4);
  }

  lemma LateLeaves(c: Core, i: int, t: Thread, choice: Choice)
    requires NothingStored(c, t.call.state) && t.pc == At(Entering(Claim)) && !t.owns
    ensures Iterate(c, i, t, choice, 3)
         == (c.(lock := None).Note(t.call.state, c.Past(t.call.state).(lost := true)), t.To(Finished(Raised(InvalidState))))
  {
    hide StepPoll, StepWork, StepOther, StepSweep;
    var (c1, t1) := Micro(c, i, t, choice);
    var (c2, t2) := Micro(c1, i, t1, choice);
    var (c3, t3) := Micro(c2, i, t2, choice);
    assert Iterate(c2, i, t2, choice, 1) == (c3, t3);
    assert Iterate(c1, i, t1, choice, 2) == (c3, t3);
  }

  /** With nothing stored, a callback is told that its state is consumed or unknown. */
  lemma LateRaises(c: Core, i: int, t: Thread, choice: Choice)
    requires NothingStored(c, t.call.state) && c.lock.None? && Quiet(c, choice.clock)
    requires t.pc == At(Entering(Lock)) && !t.microsoft && !t.owns
    ensures Iterate(c, i, t, choice, 10)
         == (c.Note(t.call.state, c.Past(t.call.state).(lost := true)),
             t.To(Finished(Raised(InvalidState))).(clock := choice.clock))
  {
    hide Iterate, Micro, Overdue, Oldest;
    LateLooks(c, i, t, choice);
    var c1, t1 := c.(lock := Some(i)), t.PurgeThen(Entering(Claim));
    SweepRuns(c1, i, t1, choice);
    var t2 := t1.To(Entering(Claim)).(clock := choice.clock);
    LateLeaves(c1, i, t2, choice);
    IterateMore(c, i, t, choice, 4, 6);
    IterateMore(c1, i, t1, choice, 3, 3);
    assert c1.(lock := None) == c;
  }

  // ----- whole calls in a world -----

  /** A call, run first under one choice and then under another. */
  function CallEvents(i: int, op: Op, a: Choice, m: nat, b: Choice, n: nat): seq<Event> {
    [Spawn(i, op)] + Runs(i, a, m) + Runs(i, b, n)
  }

  lemma {:induction false} AfterBoth(w: World, xs: seq<Event>, ys: seq<Event>)
    ensures After(w, xs + ys) == After(After(w, xs), ys)
    decreases |xs|
  {
    hide Next;
    if xs == [] {
      assert xs + ys == ys;
    } else {
      assert (xs + ys)[1..] == xs[1..] + ys;
      AfterBoth(Next(w, xs[0]), xs[1..], ys);
    }
  }

  lemma CallRuns(w: World, i: int, op: Op, a: Choice, m: nat, b: Choice, n: nat)
    requires i !in w.threads
    ensures var w1 := Next(w, Spawn(i, op));
            var r := Iterate(w1.core, i, w1.threads[i], a, m);
            var q := Iterate(r.0, i, r.1, b, n);
            After(w, CallEvents(i, op, a, m, b, n)) == World(q.0, w.threads[i := q.1])
  {
    var w1 := Next(w, Spawn(i, op));
    var r := Iterate(w1.core, i, w1.threads[i], a, m);
    AfterBoth(w, [Spawn(i, op)], Runs(i, a, m) + Runs(i, b, n));
    assert [Spawn(i, op)] + (Runs(i, a, m) + Runs(i, b, n)) == CallEvents(i, op, a, m, b, n);
    assert After(w, [Spawn(i, op)]) == w1 by { assert [Spawn(i, op)][1..] == []; }
    hide Iterate, Runs, Micro, Entry, StateOf;
    AfterBoth(w1, Runs(i, a, m), Runs(i, b, n));
    AfterRuns(w1, i, a, m);
    var w2 := After(w1, Runs(i, a, m));
    AfterRuns(w2, i, b, n);
    var q := Iterate(r.0, i, r.1, b, n);
    assert w2.threads[i := q.1] == w.threads[i := q.1];
  }

  lemma NoSteps(i: int, choice: Choice)
    ensures forall c, t :: Iterate(c, i, t, choice, 0) == (c, t)
  {
  }

  /** A callback as it is called. */
  function Caller(c: Core, s: string): Thread {
    Thread(Call(Complete(s), s, c.Past(s).started.Some?, c.Past(s).published.Some?), 0, false, false, "", false, At(Entering(Lock)))
  }

  lemma NamedTwice(c: Core, s: string)
    requires s in c.past && c.past[s].named
    ensures c.Note(s, c.Past(s).(named := true)) == c
  {
    assert c.past[s := c.past[s]] == c.past;
  }

  lemma CallSpawns(w: World, i: int, s: string)
    requires i !in w.threads && s in w.core.past && w.core.past[s].named
    ensures Next(w, Spawn(i, Complete(s))) == World(w.core, w.threads[i := Caller(w.core, s)])
  {
    NamedTwice(w.core, s);
  }

  function CallbackSteps(i: int, s: string, choice: Choice, n: nat): seq<Event> {
    CallEvents(i, Complete(s), choice, n, choice, 0)
  }

  lemma CallbackRuns(w: World, i: int, s: string, choice: Choice, n: nat)
    requires i !in w.threads && s in w.core.past && w.core.past[s].named
    ensures var r := Iterate(w.core, i, Caller(w.core, s), choice, n);
            After(w, CallbackSteps(i, s, choice, n)) == World(r.0, w.threads[i := r.1])
  {
    CallSpawns(w, i, s);
    hide Next, CallEvents, After, Iterate, Caller;
    CallRuns(w, i, Complete(s), choice, n, choice, 0);
    NoSteps(i, choice);
  }

  // ----- a sign-in up to its exchange -----

  const GOOGLE := "google"

  function Going(s: string): Choice { Choice(0, s, GOOGLE, Succeeds("session")) }

  const DOWN := Choice(0, "", "", Fails(Failure("down")))

  const BROKEN := Choice(0, "", "", Crashes)

  predicate Idle(c: Core) {
    c.flows == Dict([], map[]) && c.results == Dict([], map[]) && c.markers == map[] && c.lock.None?
  }

  function StartEvents(k: int, s: string): seq<Event> { CallEvents(k, Start, Going(s), 3, Going(s), 1) }

  function Opened(c: Core, s: string): Core {
    c.(flows := Dict([s], map[s := Flow(GOOGLE, FLOW_LIFETIME)]))
     .Note("", c.Past("").(named := true))
     .Note(s, c.Past(s).(named := true, started := Some(GOOGLE), deadline := FLOW_LIFETIME))
  }

  lemma StartOpens(w: World, k: int, s: string)
    requires Idle(w.core) && k !in w.threads && s != "" && !w.core.Past(s).named
    ensures var w' := After(w, StartEvents(k, s));
            && w'.core == Opened(w.core, s)
            && k in w'.threads && w'.threads == w.threads[k := w'.threads[k]]
  {
    var w1 := Next(w, Spawn(k, Start));
    CallRuns(w, k, Start, Going(s), 3, Going(s), 1);
    assert Quiet(w1.core, 0);
    SweepRuns(w1.core, k, w1.threads[k], Going(s));
    IssueRuns(w1.core, k, w1.threads[k].To(Other(Issue)).(clock := 0), Going(s));
    hide Iterate, Micro, After, CallEvents;
    assert w1.core.flows.Set(s, Flow(GOOGLE, FLOW_LIFETIME)) == Opened(w.core, s).flows;
  }

  /** The callback holds the lock, its flow is claimed and marked, and nothing else is stored but errors. */
  predicate Held(w: World, i: int, s: string) {
    i in w.threads && CoreHeld(w.core, i, s) && ThreadHeld(w.threads[i], s)
  }

  predicate CoreHeld(c: Core, i: int, s: string) {
    c.flows == Dict([], map[]) && c.results == Dict([], map[]) && c.markers == map[s := GOOGLE] && c.lock == Some(i)
  }

  predicate ThreadHeld(t: Thread, s: string) {
    && t.call.op == Complete(s) && t.call.state == s && t.pc == At(Working(Exchange))
    && !t.microsoft && t.owns && t.provider == GOOGLE
  }

  function SignInEvents(k: int, s: string): seq<Event> {
    StartEvents(k, s) + CallbackSteps(k + 1, s, Going(s), 9)
  }

  lemma OpenedWaits(c: Core, s: string)
    requires Idle(c) && s !in c.errors.at
    ensures Waiting(Opened(c, s), s) && Quiet(Opened(c, s), 0)
    ensures var o := Opened(c, s);
            && o.flows.Pop(s) == Dict([], map[]) && o.flows.at[s] == Flow(GOOGLE, FLOW_LIFETIME)
            && o.results == Dict([], map[]) && o.markers == map[] && o.errors == c.errors && s in o.past && o.past[s].named
  {
    QuietOne(s, Flow(GOOGLE, FLOW_LIFETIME));
    assert Without([s][1..], s) == [];
  }

  lemma ThreadHolds(c: Core, c1: Core, i: int, t: Thread)
    requires var s := t.call.state; Idle(c) && s !in c.errors.at && c1 == Opened(c, s)
    requires t.pc == At(Entering(Lock)) && !t.microsoft && t.call.op == Complete(t.call.state)
    ensures var s := t.call.state;
            var r := Iterate(c1, i, t, Going(s), 9);
            && CoreHeld(r.0, i, s) && ThreadHeld(r.1, s) && r.0.errors == c.errors
            && r.0.past == c1.past[s := c1.Past(s).(consumer := Some(i))]
  {
    OpenedWaits(c, t.call.state);
    hide Opened, Idle, Waiting, Quiet, Without, Iterate, Micro;
    CallbackClaims(c1, i, t, Going(t.call.state));
  }

  lemma CallbackHolds(w: World, c: Core, i: int, s: string)
    requires Idle(c) && s !in c.errors.at && i !in w.threads && w.core == Opened(c, s)
    ensures var w' := After(w, CallbackSteps(i, s, Going(s), 9));
            && Held(w', i, s) && w'.core.errors == c.errors
            && w'.core.past == w.core.past[s := w.core.Past(s).(consumer := Some(i))]
            && w'.threads == w.threads[i := w'.threads[i]]
  {
    OpenedWaits(c, s);
    ThreadHolds(c, w.core, i, Caller(w.core, s));
    hide Opened, Idle, CoreHeld, ThreadHeld, CallbackSteps, After, Iterate;
    CallbackRuns(w, i, s, Going(s), 9);
  }

  /** Nothing happened to any named state but `s`. */
  ghost predicate Untold(c: Core, c': Core, s: string) {
    forall x :: x != s && x != "" ==> c'.Past(x) == c.Past(x)
  }

  lemma SignInHolds(w: World, k: int, s: string)
    requires Idle(w.core) && k !in w.threads && k + 1 !in w.threads
    requires s != "" && s !in w.core.errors.at && !w.core.Past(s).named
    ensures var w' := After(w, SignInEvents(k, s));
            && Held(w', k + 1, s) && w'.core.errors == w.core.errors
            && w'.core.Past(s) == w.core.Past(s).(
                 named := true, started := Some(GOOGLE), deadline := FLOW_LIFETIME, consumer := Some(k + 1))
            && Untold(w.core, w'.core, s)
            && k in w'.threads && w'.threads == w.threads[k := w'.threads[k]][k + 1 := w'.threads[k + 1]]
  {
    hide CallbackSteps, StartEvents, After, Held;
    AfterBoth(w, StartEvents(k, s), CallbackSteps(k + 1, s, Going(s), 9));
    StartOpens(w, k, s);
    CallbackHolds(After(w, StartEvents(k, s)), w.core, k + 1, s);
    assert Held(After(w, SignInEvents(k, s)), k + 1, s);
  }

  // ----- two callbacks that part -----

  /** Why `CallbacksAgree` lets callbacks differ. */
  datatype Cause = Evicted | Forgotten | Died | Refused | Unsaved

  predicate Because(cause: Cause, h: History) {
    match cause
    case Evicted => h.evicted
    case Forgotten => h.forgotten
    case Died => h.crashed
    case Refused => h.rejected
    case Unsaved => h.unsaved
  }

  predicate Ended(w: World, i: int, s: string, verdict: Verdict) {
    i in w.threads && w.threads[i].call.op == Complete(s) && w.threads[i].pc == At(Finished(verdict))
  }

  predicate Differ(w: World, i: int, j: int, s: string, first: Verdict, second: Verdict) {
    Ended(w, i, s, first) && Ended(w, j, s, second) && first != second
  }

  /** This cause and no other. */
  ghost predicate OnlyBecause(cause: Cause, h: History) {
    forall c :: Because(c, h) <==> c == cause
  }

  ghost predicate CanDiffer(cause: Cause) {
    exists events, i, j, s, first, second ::
      Differ(Play(events), i, j, s, first, second) && OnlyBecause(cause, Play(events).core.Past(s))
  }

  lemma Shown(events: seq<Event>, i: int, j: int, s: string, first: Verdict, second: Verdict, cause: Cause)
    requires var w := Play(events); Ended(w, i, s, first) && Ended(w, j, s, second) && first != second
    requires var h := Play(events).core.Past(s);
             && h.evicted == cause.Evicted? && h.forgotten == cause.Forgotten? && h.crashed == cause.Died?
             && h.rejected == cause.Refused? && h.unsaved == cause.Unsaved?
    ensures CanDiffer(cause)
  {
    assert Differ(Play(events), i, j, s, first, second) && OnlyBecause(cause, Play(events).core.Past(s));
  }

  /** `i` ended the call that it was. */
  predicate Ends(t: Thread, t': Thread, verdict: Verdict) {
    t'.call == t.call && t'.pc == At(Finished(verdict))
  }

  lemma PlayRuns(events: seq<Event>, i: int, choice: Choice, n: nat)
    requires i in Play(events).threads
    ensures var w := Play(events);
            var r := Iterate(w.core, i, w.threads[i], choice, n);
            Play(events + Runs(i, choice, n)) == World(r.0, w.threads[i := r.1])
  {
    PlayOn(events, Runs(i, choice, n));
    AfterRuns(Play(events), i, choice, n);
  }

  /** A callback that finds a result returns it. */
  lemma ThenReturned(events: seq<Event>, j: int, s: string)
    requires var w := Play(events);
             j !in w.threads && s in w.core.results.at && w.core.lock.None? && s in w.core.past && w.core.past[s].named
    ensures var w, w' := Play(events), Play(events + CallbackSteps(j, s, Going(s), 3));
            && w'.core == w.core && Ended(w', j, s, Returned(w.core.results.at[s]))
            && w'.threads == w.threads[j := w'.threads[j]]
  {
    var w := Play(events);
    PlayOn(events, CallbackSteps(j, s, Going(s), 3));
    LateReturns(w.core, j, Caller(w.core, s), Going(s));
    hide Play, CallbackSteps, Iterate, After;
    CallbackRuns(w, j, s, Going(s), 3);
  }

  /** A callback that finds nothing raises. */
  lemma ThenRaised(events: seq<Event>, j: int, s: string)
    requires var w := Play(events);
             && j !in w.threads && NothingStored(w.core, s) && w.core.lock.None? && Quiet(w.core, 0)
             && s in w.core.past && w.core.past[s].named
    ensures var w, w' := Play(events), Play(events + CallbackSteps(j, s, Going(s), 10));
            && w'.core == w.core.Note(s, w.core.past[s].(lost := true)) && w'.core.Past(s) == w.core.past[s].(lost := true)
            && Ended(w', j, s, Raised(InvalidState)) && w'.threads == w.threads[j := w'.threads[j]]
  {
    var w := Play(events);
    PlayOn(events, CallbackSteps(j, s, Going(s), 10));
    LateRaises(w.core, j, Caller(w.core, s), Going(s));
    hide Play, CallbackSteps, Iterate, After, Quiet, NothingStored;
    CallbackRuns(w, j, s, Going(s), 10);
  }

  lemma NamedIn(c: Core, s: string)
    ensures c.Past(s).named ==> s in c.past
  {
  }

  lemma PlayIsAfter(events: seq<Event>)
    ensures Play(events) == After(INIT, events)
  {
    assert [] + events == events;
    PlayOn([], events);
  }

  const CLAIMED := BLANK.(named := true, started := Some(GOOGLE), deadline := FLOW_LIFETIME, consumer := Some(1))

  lemma InitIdle()
    ensures Idle(INIT.core) && !INIT.core.Past("s").named && INIT.threads == map[] && INIT.core.errors == Dict([], map[])
    ensures INIT.core.Past("s").(named := true, started := Some(GOOGLE), deadline := FLOW_LIFETIME, consumer := Some(1)) == CLAIMED
  {
  }

  lemma HeldParts(w: World, i: int, s: string)
    requires Held(w, i, s)
    ensures CoreHeld(w.core, i, s) && i in w.threads && ThreadHeld(w.threads[i], s)
    ensures w.threads[i].call.op == Complete(s)
  {
  }

  /** The first callback holds its claim on "s" in an otherwise untouched service. */
  predicate AtExchange(w: World) {
    && CoreHeld(w.core, 1, "s") && w.core.errors == Dict([], map[]) && w.core.Past("s") == CLAIMED
    && 1 in w.threads && 2 !in w.threads && 3 !in w.threads && ThreadHeld(w.threads[1], "s")
  }

  lemma FirstHolds()
    ensures AtExchange(Play(SignInEvents(0, "s")))
  {
    InitIdle();
    hide After, Play, SignInEvents, Idle, CoreHeld, ThreadHeld;
    PlayIsAfter(SignInEvents(0, "s"));
    SignInHolds(INIT, 0, "s");
  }

  predicate Solely(cause: Cause, h: History) {
    && h.evicted == cause.Evicted? && h.forgotten == cause.Forgotten? && h.crashed == cause.Died?
    && h.rejected == cause.Refused? && h.unsaved == cause.Unsaved?
  }

  /** Nothing is left of `s` that a later callback could report. */
  predicate Vanished(c: Core, s: string, cause: Cause) {
    && NothingStored(c, s) && c.lock.None? && Quiet(c, 0)
    && s in c.past && c.past[s].named && Solely(cause, c.past[s])
  }

  predicate Stored(c: Core, s: string, status: Status, cause: Cause) {
    && c.results.Get(s) == Some(status) && c.lock.None?
    && s in c.past && c.past[s].named && Solely(cause, c.past[s])
  }

  lemma RaisesAfter(events: seq<Event>, i: int, j: int, s: string, first: Verdict, cause: Cause)
    requires var w := Play(events);
             Ended(w, i, s, first) && first != Raised(InvalidState) && j !in w.threads && Vanished(w.core, s, cause)
    ensures CanDiffer(cause)
  {
    var late := events + CallbackSteps(j, s, Going(s), 10);
    hide Play, NothingStored, Quiet, CallbackSteps, OnlyBecause;
    ThenRaised(events, j, s);
    Shown(late, i, j, s, first, Raised(InvalidState), cause);
  }

  lemma ReturnsAfter(events: seq<Event>, i: int, j: int, s: string, first: Verdict, status: Status, cause: Cause)
    requires var w := Play(events);
             Ended(w, i, s, first) && first != Returned(status) && j !in w.threads && Stored(w.core, s, status, cause)
    ensures CanDiffer(cause)
  {
    var late := events + CallbackSteps(j, s, Going(s), 3);
    hide Play, CallbackSteps, OnlyBecause;
    ThenReturned(events, j, s);
    Shown(late, i, j, s, first, Returned(status), cause);
  }

  // ----- an exception nobody handles -----

  lemma CrashRuns(c: Core, t: Thread)
    requires CoreHeld(c, 1, "s") && ThreadHeld(t, "s") && c.errors == Dict([], map[]) && c.Past("s") == CLAIMED
    ensures var r := Iterate(c, 1, t, BROKEN, 3);
            Vanished(r.0, "s", Died) && Ends(t, r.1, Crashed)
  {
    CallbackCrashes(c, 1, t, BROKEN);
    hide Iterate;
  }

  lemma CrashesFrom(first: seq<Event>)
    requires AtExchange(Play(first))
    ensures var w := Play(first + Runs(1, BROKEN, 3));
            Vanished(w.core, "s", Died) && Ended(w, 1, "s", Crashed) && 2 !in w.threads
  {
    PlayRuns(first, 1, BROKEN, 3);
    CrashRuns(Play(first).core, Play(first).threads[1]);
    hide Play, Iterate, Runs, CoreHeld, Vanished;
  }

  lemma CrashParts()
    ensures CanDiffer(Died)
  {
    FirstHolds();
    hide *;
    CrashesFrom(SignInEvents(0, "s"));
    RaisesAfter(SignInEvents(0, "s") + Runs(1, BROKEN, 3), 1, 2, "s", Crashed, Died);
  }

  // ----- a result that outlives its credential -----

  const SIGNED := Status(GOOGLE, Authenticated, Some("session"))

  lemma SaveFails(c: Core, i: int, t: Thread)
    requires t.pc == At(Working(Save(SIGNED))) && !t.microsoft
    ensures Iterate(c, i, t, DOWN, 1) == (c.Note(t.call.state, c.Past(t.call.state).(unsaved := true)), t.To(Leaving(Fail(Failure("down")))))
  {
    hide StepPoll, StepEnter, StepLeave, StepOther, StepSweep, Iterate;
    OneStep(c, i, t, DOWN);
  }

  lemma UnsavedRuns(c: Core, t: Thread)
    requires CoreHeld(c, 1, "s") && ThreadHeld(t, "s") && c.errors == Dict([], map[]) && c.Past("s") == CLAIMED
    ensures var r := Iterate(c, 1, t, Going("s"), 2);
            var q := Iterate(r.0, 1, r.1, DOWN, 5);
            Stored(q.0, "s", SIGNED, Unsaved) && Ends(t, q.1, Raised(Failure("down")))
  {
    CallbackPublishes(c, 1, t, Going("s"));
    hide Iterate;
    var r := Iterate(c, 1, t, Going("s"), 2);
    assert r.0.errors == Dict([], map[]) && r.1.owns;
    SaveFails(r.0, 1, r.1);
    var q := Iterate(r.0, 1, r.1, DOWN, 1);
    CallbackFails(q.0, 1, q.1, DOWN, Failure("down"));
    IterateMore(r.0, 1, r.1, DOWN, 1, 4);
  }

  lemma UnsavedFrom(first: seq<Event>)
    requires AtExchange(Play(first))
    ensures var w := Play(first + Runs(1, Going("s"), 2) + Runs(1, DOWN, 5));
            Stored(w.core, "s", SIGNED, Unsaved) && Ended(w, 1, "s", Raised(Failure("down"))) && 2 !in w.threads
  {
    PlayRuns(first, 1, Going("s"), 2);
    UnsavedRuns(Play(first).core, Play(first).threads[1]);
    hide Play, Iterate, Runs, CoreHeld, Stored;
    PlayRuns(first + Runs(1, Going("s"), 2), 1, DOWN, 5);
  }

  lemma UnsavedParts()
    ensures CanDiffer(Unsaved)
  {
    FirstHolds();
    hide *;
    var first := SignInEvents(0, "s");
    UnsavedFrom(first);
    ReturnsAfter(first + Runs(1, Going("s"), 2) + Runs(1, DOWN, 5), 1, 2, "s", Raised(Failure("down")), SIGNED, Unsaved);
  }

  // ----- a logout between two callbacks -----

  lemma LogoutRuns(c: Core, i: int, t: Thread)
    requires c.results == Dict(["s"], map["s" := SIGNED]) && t.pc == At(Other(Snapshot("session")))
    ensures var r := Iterate(c, i, t, Going("s"), 3);
            r.0 == c.(results := Dict([], map[])).Note("s", c.Past("s").(evicted := true))
  {
    hide StepPoll, StepEnter, StepWork, StepLeave, StepSweep;
    assert OfSession(["s"], map["s" := SIGNED], "session") == ["s"] by { assert OfSession(["s"][1..], map["s" := SIGNED], "session") == []; }
    assert c.results.Pop("s") == Dict([], map[]) by { assert Without(["s"][1..], "s") == []; }
    var (c1, t1) := Micro(c, i, t, Going("s"));
    var (c2, t2) := Micro(c1, i, t1, Going("s"));
    var (c3, t3) := Micro(c2, i, t2, Going("s"));
    assert Iterate(c2, i, t2, Going("s"), 1) == (c3, t3);
    assert Iterate(c1, i, t1, Going("s"), 2) == (c3, t3);
  }

  /** The sign-in that succeeded, and nothing else. */
  predicate Succeeded(c: Core) {
    && c.results == Dict(["s"], map["s" := SIGNED]) && c.flows == Dict([], map[]) && c.errors == Dict([], map[]) && c.markers == map[]
    && c.lock.None? && c.Past("s") == CLAIMED.(exchanges := 1, published := Some(SIGNED))
  }

  lemma SuccessRuns(c: Core, t: Thread)
    requires CoreHeld(c, 1, "s") && ThreadHeld(t, "s") && c.errors == Dict([], map[]) && c.Past("s") == CLAIMED
    ensures var r := Iterate(c, 1, t, Going("s"), 5);
            Succeeded(r.0) && Ends(t, r.1, Returned(SIGNED))
  {
    CallbackPublishes(c, 1, t, Going("s"));
    hide Iterate;
    var r := Iterate(c, 1, t, Going("s"), 2);
    CallbackSaves(r.0, 1, r.1, Going("s"), SIGNED);
    IterateMore(c, 1, t, Going("s"), 2, 3);
  }

  lemma LogoutVanishes(c: Core, c1: Core, i: int, t: Thread)
    requires Succeeded(c) && c1 == c.Note("", c.Past("").(named := true)) && t.pc == At(Other(Snapshot("session")))
    ensures Vanished(Iterate(c1, i, t, Going("s"), 3).0, "s", Evicted)
  {
    LogoutRuns(c1, i, t);
    hide Iterate;
  }

  function LogoutEvents(): seq<Event> {
    CallEvents(2, Logout("session"), Going("s"), 3, Going("s"), 0)
  }

  lemma LogoutFrom(w: World)
    requires Succeeded(w.core) && Ended(w, 1, "s", Returned(SIGNED)) && 2 !in w.threads && 3 !in w.threads
    ensures var w' := After(w, LogoutEvents());
            Vanished(w'.core, "s", Evicted) && Ended(w', 1, "s", Returned(SIGNED)) && 3 !in w'.threads
  {
    var w1 := Next(w, Spawn(2, Logout("session")));
    CallRuns(w, 2, Logout("session"), Going("s"), 3, Going("s"), 0);
    NoSteps(2, Going("s"));
    LogoutVanishes(w.core, w1.core, 2, w1.threads[2]);
    hide Iterate, CallEvents, After, Succeeded, Vanished;
  }

  lemma EvictedFrom(first: seq<Event>)
    requires AtExchange(Play(first))
    ensures var w := Play(first + Runs(1, Going("s"), 5) + LogoutEvents());
            Vanished(w.core, "s", Evicted) && Ended(w, 1, "s", Returned(SIGNED)) && 3 !in w.threads
  {
    PlayRuns(first, 1, Going("s"), 5);
    SuccessRuns(Play(first).core, Play(first).threads[1]);
    PlayOn(first + Runs(1, Going("s"), 5), LogoutEvents());
    hide Play, Iterate, Runs, CoreHeld, Vanished, Succeeded, After, LogoutEvents;
    LogoutFrom(Play(first + Runs(1, Going("s"), 5)));
  }

  lemma EvictedParts()
    ensures CanDiffer(Evicted)
  {
    FirstHolds();
    hide *;
    var first := SignInEvents(0, "s");
    EvictedFrom(first);
    RaisesAfter(first + Runs(1, Going("s"), 5) + LogoutEvents(), 1, 3, "s", Returned(SIGNED), Evicted);
  }

  // ----- a rejection between two callbacks -----

  /** The rejection has popped the flow and is about to publish. */
  predicate AtRejection(w: World) {
    && Vanished(w.core, "s", Refused) && 1 in w.threads && 2 !in w.threads && 3 !in w.threads
    && w.threads[1].pc == At(Other(PublishRejection("no"))) && w.threads[1].call.state == "s"
  }

  function RejectedEvents(): seq<Event> {
    StartEvents(0, "s") + RejectEvents(1, "s", "no", Going("s"))
  }

  lemma OpenedFirst()
    ensures var w := Play(StartEvents(0, "s"));
            && Waiting(w.core, "s") && Quiet(w.core, 0) && Solely(Refused, w.core.Past("s").(rejected := true))
            && w.core.lock.None? && 1 !in w.threads && 2 !in w.threads && 3 !in w.threads
  {
    InitIdle();
    OpenedWaits(INIT.core, "s");
    assert Solely(Refused, Opened(INIT.core, "s").Past("s").(rejected := true));
    hide After, Play, StartEvents, Idle, Opened, Waiting, Quiet, Solely;
    PlayIsAfter(StartEvents(0, "s"));
    StartOpens(INIT, 0, "s");
  }

  lemma RejectionHolds()
    ensures AtRejection(Play(RejectedEvents()))
  {
    OpenedFirst();
    hide After, Play, StartEvents, RejectEvents, Waiting, Quiet;
    PlayOn(StartEvents(0, "s"), RejectEvents(1, "s", "no", Going("s")));
    RejectEntersGap(Play(StartEvents(0, "s")), 1, "s", "no", Going("s"));
  }

  lemma RejectionRuns(c: Core, t: Thread)
    requires Vanished(c, "s", Refused) && t.pc == At(Other(PublishRejection("no"))) && t.call.state == "s"
    ensures Stored(Iterate(c, 1, t, Going("s"), 1).0, "s", Status(t.provider, Rejected("no"), None), Refused)
  {
    hide StepPoll, StepEnter, StepWork, StepLeave, StepSweep, Iterate;
    OneStep(c, 1, t, Going("s"));
  }

  lemma RejectedFrom(first: seq<Event>)
    requires AtRejection(Play(first))
    ensures 1 in Play(first).threads
    ensures var w, t := Play(first + CallbackSteps(2, "s", Going("s"), 10) + Runs(1, Going("s"), 1)), Play(first).threads[1];
            && Stored(w.core, "s", Status(t.provider, Rejected("no"), None), Refused)
            && Ended(w, 2, "s", Raised(InvalidState)) && 3 !in w.threads
  {
    ThenRaised(first, 2, "s");
    var late := first + CallbackSteps(2, "s", Going("s"), 10);
    StillVanished(Play(first).core, "s", Refused);
    RejectionRuns(Play(late).core, Play(first).threads[1]);
    hide Play, Iterate, Runs, CallbackSteps, Stored, Vanished;
    PlayRuns(late, 1, Going("s"), 1);
  }

  lemma StillVanished(c: Core, s: string, cause: Cause)
    requires Vanished(c, s, cause)
    ensures Vanished(c.Note(s, c.past[s].(lost := true)), s, cause)
  {
  }

  lemma RejectedParts()
    ensures CanDiffer(Refused)
  {
    RejectionHolds();
    hide *;
    var first := RejectedEvents();
    RejectedFrom(first);
    var status := Status(Play(first).threads[1].provider, Rejected("no"), None);
    ReturnsAfter(first + CallbackSteps(2, "s", Going("s"), 10) + Runs(1, Going("s"), 1),
                 2, 3, "s", Raised(InvalidState), status, Refused);
  }

  // ----- a hundred failures after the first -----

  const FAILURE := Failure("down")

  /** What the failing exchange leaves of the errors. */
  function Failing(c: Core, s: string): Core {
    c.(errors := c.errors.Set(s, FAILURE)).Note(s, c.Past(s).(exchanges := c.Past(s).exchanges + 1, failed := Some(FAILURE)))
  }

  lemma ExchangeFails(c: Core, i: int, t: Thread)
    requires t.pc == At(Working(Exchange))
    ensures Iterate(c, i, t, DOWN, 1)
         == (c.Note(t.call.state, c.Past(t.call.state).(exchanges := c.Past(t.call.state).exchanges + 1)), t.To(Leaving(Fail(FAILURE))))
  {
    hide StepPoll, StepEnter, StepLeave, StepOther, StepSweep, Iterate;
    OneStep(c, i, t, DOWN);
  }

  lemma FailingInTwo(c: Core, s: string)
    ensures var c1 := c.Note(s, c.Past(s).(exchanges := c.Past(s).exchanges + 1));
            c1.(errors := c1.errors.Set(s, FAILURE)).Note(s, c1.Past(s).(failed := Some(FAILURE))) == Failing(c, s)
  {
    var h := c.Past(s).(exchanges := c.Past(s).exchanges + 1);
    var h' := h.(failed := Some(FAILURE));
    assert c.past[s := h][s := h'] == c.past[s := h'];
  }

  function Felled(c: Core, s: string): Core {
    var failed := Trimmed(Failing(c, s), s);
    failed.(markers := failed.markers - {s}, lock := None)
  }

  lemma FailAfter(c: Core, c1: Core, i: int, t: Thread, s: string)
    requires c1 == c.Note(s, c.Past(s).(exchanges := c.Past(s).exchanges + 1)) && t.call.state == s
    requires t.pc == At(Leaving(Fail(FAILURE))) && t.owns
    ensures Iterate(c1, i, t, DOWN, 4) == (Felled(c, s), t.To(Finished(Raised(FAILURE))))
  {
    FailingInTwo(c, s);
    hide Iterate, Trimmed, Failing;
    CallbackFails(c1, i, t, DOWN, FAILURE);
  }

  lemma FailRuns(c: Core, i: int, t: Thread, s: string)
    requires ThreadHeld(t, s)
    ensures var r := Iterate(c, i, t, DOWN, 5);
            r.0 == Felled(c, s) && Ends(t, r.1, Raised(FAILURE))
  {
    ExchangeFails(c, i, t);
    hide Iterate, Felled;
    var r := Iterate(c, i, t, DOWN, 1);
    FailAfter(c, r.0, i, r.1, s);
    IterateMore(c, i, t, DOWN, 1, 4);
  }

  lemma FelledIdle(c: Core, i: int, s: string)
    requires CoreHeld(c, i, s)
    ensures Idle(Felled(c, s))
  {
    assert Failing(c, s).markers == map[s := GOOGLE];
    hide Failing;
    assert map[s := GOOGLE] - {s} == map[];
  }

  lemma FelledKeeps(c: Core, s: string)
    requires |c.errors.Set(s, FAILURE).order| <= KEPT
    ensures Felled(c, s).errors == c.errors.Set(s, FAILURE)
    ensures Felled(c, s).past == c.past[s := c.Past(s).(exchanges := c.Past(s).exchanges + 1, failed := Some(FAILURE))]
  {
  }

  lemma FelledDrops(c: Core, s: string, o: string)
    requires var e := c.errors.Set(s, FAILURE); |e.order| > KEPT && e.order[0] == o && o != s && o in c.errors.at
    ensures Felled(c, s).errors == c.errors.Set(s, FAILURE).Pop(o)
    ensures Felled(c, s).Past(o) == c.Past(o).(forgotten := true)
  {
  }

  function FailEvents(k: int, s: string): seq<Event> {
    SignInEvents(k, s) + Runs(k + 1, DOWN, 5)
  }

  /** One sign-in that fails, in a service where all earlier ones have. */
  lemma FailOne(w: World, k: int, s: string)
    requires Idle(w.core) && k !in w.threads && k + 1 !in w.threads
    requires s != "" && s !in w.core.errors.at && !w.core.Past(s).named
    ensures var c, w' := After(w, SignInEvents(k, s)).core, After(w, FailEvents(k, s));
            && c.errors == w.core.errors && Untold(w.core, c, s)
            && c.Past(s) == w.core.Past(s).(named := true, started := Some(GOOGLE), deadline := FLOW_LIFETIME, consumer := Some(k + 1))
            && w'.core == Felled(c, s) && Idle(w'.core) && Ended(w', k + 1, s, Raised(FAILURE))
            && k in w'.threads && w'.threads == w.threads[k := w'.threads[k]][k + 1 := w'.threads[k + 1]]
  {
    var w1 := After(w, SignInEvents(k, s));
    AfterBoth(w, SignInEvents(k, s), Runs(k + 1, DOWN, 5));
    SignInHolds(w, k, s);
    FailRuns(w1.core, k + 1, w1.threads[k + 1], s);
    FelledIdle(w1.core, k + 1, s);
    hide Idle, SignInEvents, After, Runs, Iterate, CoreHeld, Felled, Untold;
    AfterRuns(w1, k + 1, DOWN, 5);
  }

  function Name(k: nat): (name: string)
    ensures |name| == k + 1
  {
    if k == 0 then "x" else Name(k - 1) + "x"
  }

  const FELLED := CLAIMED.(exchanges := 1, failed := Some(FAILURE))

  /** The first `n` names have failed, in order, and nothing else happened. */
  ghost predicate Crowded(w: World, n: nat) {
    && Idle(w.core) && |w.core.errors.order| == n
    && (forall k :: 0 <= k < n ==> w.core.errors.order[k] == Name(k))
    && (forall x :: x in w.core.errors.at <==> x in w.core.errors.order)
    && (forall i :: i in w.threads ==> i < 2 * n)
    && (forall k :: n <= k ==> !w.core.Past(Name(k)).named)
    && (if n == 0 then w.core.Past(Name(0)) == BLANK
        else Ended(w, 1, Name(0), Raised(FAILURE)) && w.core.Past(Name(0)) == FELLED)
  }

  lemma CrowdFree(w: World, n: nat)
    requires Crowded(w, n)
    ensures Name(n) !in w.core.errors.at && !w.core.Past(Name(n)).named && 2 * n !in w.threads && 2 * n + 1 !in w.threads
  {
    assert forall k :: 0 <= k < n ==> |w.core.errors.order[k]| == k + 1;
  }

  lemma CrowdPasts(w: World, w': World, c: Core, n: nat)
    requires Crowded(w, n)
    requires Untold(w.core, c, Name(n))
    requires c.Past(Name(n)) == w.core.Past(Name(n)).(
               named := true, started := Some(GOOGLE), deadline := FLOW_LIFETIME, consumer := Some(2 * n + 1))
    requires w'.core.past == c.past[Name(n) := c.Past(Name(n)).(exchanges := c.Past(Name(n)).exchanges + 1, failed := Some(FAILURE))]
    ensures forall k :: n < k ==> !w'.core.Past(Name(k)).named
    ensures w'.core.Past(Name(0)) == FELLED
  {
    forall k | n < k ensures !w'.core.Past(Name(k)).named {
      assert |Name(k)| == k + 1 && |Name(n)| == n + 1;
      assert c.Past(Name(k)) == w.core.Past(Name(k));
    }
    if n > 0 {
      assert |Name(0)| == 1 && |Name(n)| == n + 1;
      assert c.Past(Name(0)) == w.core.Past(Name(0));
    }
  }

  function Crowd(n: nat): seq<Event> {
    if n == 0 then [] else Crowd(n - 1) + FailEvents(2 * (n - 1), Name(n - 1))
  }

  lemma CrowdErrors(w: World, e: Dict<Message>, n: nat)
    requires Crowded(w, n) && e == w.core.errors.Set(Name(n), FAILURE) && Name(n) !in w.core.errors.at
    ensures |e.order| == n + 1 && (forall k :: 0 <= k < n + 1 ==> e.order[k] == Name(k))
    ensures forall x :: x in e.at <==> x in e.order
  {
    hide Name, Ended, Idle;
    var before := w.core.errors;
    assert e.order == before.order + [Name(n)];
    forall x ensures x in e.at <==> x in e.order {
      assert x in before.at <==> x in before.order;
    }
  }

  lemma CrowdThreads(w: World, w': World, n: nat)
    requires Crowded(w, n) && 2 * n in w'.threads && Ended(w', 2 * n + 1, Name(n), Raised(FAILURE))
    requires w'.threads == w.threads[2 * n := w'.threads[2 * n]][2 * n + 1 := w'.threads[2 * n + 1]]
    ensures Ended(w', 1, Name(0), Raised(FAILURE)) && forall i :: i in w'.threads ==> i < 2 * n + 2
  {
    hide Idle, Name;
    if n > 0 {
      assert Ended(w, 1, Name(0), Raised(FAILURE));
    }
  }

  /** The next sign-in fails, and no error is dropped yet. */
  lemma FailKept(w: World, n: nat)
    requires Crowded(w, n) && n < KEPT
    ensures var c, w' := After(w, SignInEvents(2 * n, Name(n))).core, After(w, FailEvents(2 * n, Name(n)));
            && w'.core.errors == w.core.errors.Set(Name(n), FAILURE) && Idle(w'.core)
            && Ended(w', 2 * n + 1, Name(n), Raised(FAILURE)) && 2 * n in w'.threads
            && w'.threads == w.threads[2 * n := w'.threads[2 * n]][2 * n + 1 := w'.threads[2 * n + 1]]
  {
    hide After, FailEvents, SignInEvents, Felled, Name, Ended, Untold;
    CrowdFree(w, n);
    assert Idle(w.core) && |w.core.errors.order| == n;
    hide Idle, Crowded;
    FailOne(w, 2 * n, Name(n));
    FelledKeeps(After(w, SignInEvents(2 * n, Name(n))).core, Name(n));
  }

  lemma FailRemembered(w: World, n: nat)
    requires Crowded(w, n) && n < KEPT
    ensures var w' := After(w, FailEvents(2 * n, Name(n)));
            (forall k :: n < k ==> !w'.core.Past(Name(k)).named) && w'.core.Past(Name(0)) == FELLED
  {
    hide After, FailEvents, SignInEvents, Felled, Name, Ended, Untold;
    var c := After(w, SignInEvents(2 * n, Name(n))).core;
    CrowdFree(w, n);
    assert Idle(w.core) && |w.core.errors.order| == n;
    hide Idle, Crowded;
    FailOne(w, 2 * n, Name(n));
    FelledKeeps(c, Name(n));
    CrowdPasts(w, After(w, FailEvents(2 * n, Name(n))), c, n);
  }

  lemma CrowdGrows(w: World, n: nat)
    requires Crowded(w, n) && n < KEPT
    ensures Crowded(After(w, FailEvents(2 * n, Name(n))), n + 1)
  {
    var w' := After(w, FailEvents(2 * n, Name(n)));
    CrowdFree(w, n);
    FailKept(w, n);
    FailRemembered(w, n);
    hide After, FailEvents, SignInEvents, Idle, Name, Ended, Crowded;
    CrowdErrors(w, w'.core.errors, n);
    CrowdThreads(w, w', n);
    CrowdIs(w', n + 1);
  }

  lemma CrowdIs(w: World, n: nat)
    requires n > 0 && Idle(w.core) && |w.core.errors.order| == n
    requires forall k :: 0 <= k < n ==> w.core.errors.order[k] == Name(k)
    requires forall x :: x in w.core.errors.at <==> x in w.core.errors.order
    requires forall i :: i in w.threads ==> i < 2 * n
    requires forall k :: n <= k ==> !w.core.Past(Name(k)).named
    requires Ended(w, 1, Name(0), Raised(FAILURE)) && w.core.Past(Name(0)) == FELLED
    ensures Crowded(w, n)
  {
  }

  lemma {:induction false} CrowdForms(n: nat)
    requires n <= KEPT
    ensures Crowded(Play(Crowd(n)), n)
  {
    if n == 0 {
    } else {
      CrowdForms(n - 1);
      hide Crowded, FailEvents, After, Play, Name;
      CrowdGrows(Play(Crowd(n - 1)), n - 1);
      PlayOn(Crowd(n - 1), FailEvents(2 * (n - 1), Name(n - 1)));
    }
  }

  /** The failure of the next one pushes the first failure out. */
  lemma CrowdOverflows(w: World, n: nat)
    requires Crowded(w, n) && n == KEPT
    ensures var w' := After(w, FailEvents(2 * n, Name(n)));
            && Vanished(w'.core, Name(0), Forgotten) && Ended(w', 1, Name(0), Raised(FAILURE)) && 2 * n + 2 !in w'.threads
  {
    var w' := After(w, FailEvents(2 * n, Name(n)));
    var c := After(w, SignInEvents(2 * n, Name(n))).core;
    CrowdFree(w, n);
    CrowdFirst(w, n);
    hide After, FailEvents, SignInEvents, Felled, Idle, Name, Ended, Crowded, Vanished;
    FailOne(w, 2 * n, Name(n));
    CrowdThreads(w, w', n);
    FelledDrops(c, Name(n), Name(0));
    FirstVanishes(w'.core, Name(0), c.errors.Set(Name(n), FAILURE));
  }

  lemma CrowdFirst(w: World, n: nat)
    requires Crowded(w, n) && n > 0
    ensures w.core.errors.order[0] == Name(0) && Name(0) in w.core.errors.at && |w.core.errors.order| == n
    ensures Name(0) != Name(n) && Name(0) != "" && w.core.Past(Name(0)) == FELLED
  {
    assert |Name(0)| == 1 && |Name(n)| == n + 1;
    assert w.core.errors.order[0] in w.core.errors.order;
  }

  lemma FirstVanishes(c: Core, s: string, e: Dict<Message>)
    requires Idle(c) && c.errors == e.Pop(s) && c.Past(s) == FELLED.(forgotten := true)
    ensures Vanished(c, s, Forgotten)
  {
  }

  lemma FailureIsOther()
    ensures Raised(FAILURE) != Raised(InvalidState)
  {
  }

  lemma ForgottenFrom(n: nat)
    requires n == KEPT
    ensures CanDiffer(Forgotten)
  {
    hide *;
    FailureIsOther();
    CrowdForms(n);
    var filler := FailEvents(2 * n, Name(n));
    CrowdOverflows(Play(Crowd(n)), n);
    PlayOn(Crowd(n), filler);
    RaisesAfter(Crowd(n) + filler, 1, 2 * n + 2, Name(0), Raised(FAILURE), Forgotten);
  }

  lemma ForgottenParts()
    ensures CanDiffer(Forgotten)
  {
    var n: nat :| n == KEPT;
    ForgottenFrom(n);
  }

  // ----- the exact set of excuses -----

  /** Duplicate callbacks agree in every run in which nothing but `allowed` happened to their state. */
  ghost predicate AgreeUnless(allowed: set<Cause>) {
    forall events, i, j, s, first, second ::
      Differ(Play(events), i, j, s, first, second)
      ==> exists cause :: Because(cause, Play(events).core.Past(s)) && cause !in allowed
  }

  /** No cause can be left out of `Excused`, and none need be added. */
  lemma ExcusesAreExact(allowed: set<Cause>)
    ensures AgreeUnless(allowed) <==> allowed == {}
  {
    if allowed == {} {
      forall events, i, j, s, first, second | Differ(Play(events), i, j, s, first, second)
        ensures exists cause :: Because(cause, Play(events).core.Past(s)) && cause !in allowed
      {
        var h := Play(events).core.Past(s);
        if !Excused(h) { CallbacksAgree(events, i, j, first, second); }
        hide Play, Differ;
        assert exists cause :: Because(cause, h) by {
          assert Because(Evicted, h) || Because(Forgotten, h) || Because(Died, h) || Because(Refused, h) || Because(Unsaved, h);
        }
      }
    } else {
      var cause :| cause in allowed;
      EveryExcuseNeeded(cause);
    }
  }

  lemma EveryExcuseNeeded(cause: Cause)
    ensures CanDiffer(cause)
  {
    hide CanDiffer;
    match cause
    case Evicted => EvictedParts();
    case Forgotten => ForgottenParts();
    case Died => CrashParts();
    case Refused => RejectedParts();
    case Unsaved => UnsavedParts();
  }
}
