/** Where the flow is popped before its marker is set, a poll in between raises although nothing has failed. */
module SignInGap {
  import opened Prelude
  import opened SignIn

  function Iterate(c: Core, i: int, t: Thread, choice: Choice, n: nat): (Core, Thread)
    decreases n
  {
    if n == 0 then (c, t)
    else
      var (c', t') := Micro(c, i, t, choice);
      Iterate(c', i, t', choice, n - 1)
  }

  lemma {:induction false} IterateMore(c: Core, i: int, t: Thread, choice: Choice, m: nat, n: nat)
    ensures var r := Iterate(c, i, t, choice, m);
            Iterate(c, i, t, choice, m + n) == Iterate(r.0, i, r.1, choice, n)
    decreases m
  {
    if m != 0 {
      var (c', t') := Micro(c, i, t, choice);
      IterateMore(c', i, t', choice, m - 1, n);
    }
    hide Micro;
  }

  function Runs(i: int, choice: Choice, n: nat): seq<Event> {
    if n == 0 then [] else [Run(i, choice)] + Runs(i, choice, n - 1)
  }

  function After(w: World, events: seq<Event>): World
    decreases |events|
  {
    if events == [] then w else After(Next(w, events[0]), events[1..])
  }

  lemma {:induction false} PlayOn(events: seq<Event>, more: seq<Event>)
    ensures Play(events + more) == After(Play(events), more)
    decreases |more|
  {
    hide Next;
    if more == [] {
      assert events + more == events;
    } else {
      assert (events + [more[0]])[..|events|] == events;
      PlayOn(events + [more[0]], more[1..]);
      assert events + [more[0]] + more[1..] == events + more;
    }
  }

  lemma {:induction false} AfterRuns(w: World, i: int, choice: Choice, n: nat)
    requires i in w.threads
    ensures var r := Iterate(w.core, i, w.threads[i], choice, n);
            After(w, Runs(i, choice, n)) == World(r.0, w.threads[i := r.1])
    decreases n
  {
    if n == 0 {
      assert w.threads[i := w.threads[i]] == w.threads;
    } else {
      var w' := Next(w, Run(i, choice));
      AfterRuns(w', i, choice, n - 1);
      assert Runs(i, choice, n)[1..] == Runs(i, choice, n - 1);
      var r := Iterate(w.core, i, w.threads[i], choice, n);
      assert w'.threads[i := r.1] == w.threads[i := r.1];
    }
  }

  /** Nothing for `_purge` to do at this clock. */
  predicate Quiet(c: Core, clock: int) {
    Overdue(c.flows.order, c.flows.at, clock) == [] && Oldest(c.results.order) == []
  }

  lemma SweepRuns(c: Core, i: int, t: Thread, choice: Choice)
    requires t.pc.Sweeping? && t.pc.sweep.Begin? && Quiet(c, choice.clock)
    ensures Iterate(c, i, t, choice, 3) == (c, t.To(t.pc.next).(clock := choice.clock))
  {
    hide Overdue, Oldest, StepPoll, StepEnter, StepWork, StepLeave, StepOther;
    var (c1, t1) := Micro(c, i, t, choice);
    var (c2, t2) := Micro(c1, i, t1, choice);
    var (c3, t3) := Micro(c2, i, t2, choice);
    assert Iterate(c2, i, t2, choice, 1) == (c3, t3);
    assert Iterate(c1, i, t1, choice, 2) == (c3, t3);
  }

  predicate NothingStored(c: Core, s: string) {
    s !in c.flows.at && s !in c.results.at && s !in c.errors.at && s !in c.markers
  }

  lemma PollReads(c: Core, i: int, t: Thread, choice: Choice)
    requires NothingStored(c, t.call.state) && t.pc == At(Polling(ReadResult))
    ensures Iterate(c, i, t, choice, 4) == (c, t.PurgeThen(Polling(ReadResultAgain)).(blind := c.Past(t.call.state).gap))
  {
    var (c1, t1) := Micro(c, i, t, choice);
    var (c2, t2) := Micro(c1, i, t1, choice);
    var (c3, t3) := Micro(c2, i, t2, choice);
    var (c4, t4) := Micro(c3, i, t3, choice);
    assert Iterate(c3, i, t3, choice, 1) == (c4, t4);
    assert Iterate(c2, i, t2, choice, 2) == (c4, t4);
    assert Iterate(c1, i, t1, choice, 3) == (c4, t4);
  }

  lemma PollReadsAgain(c: Core, i: int, t: Thread, choice: Choice)
    requires NothingStored(c, t.call.state) && t.pc == At(Polling(ReadResultAgain))
    ensures Iterate(c, i, t, choice, 2) == (c, t.To(Finished(RaisedUnknown)))
  {
    var (c1, t1) := Micro(c, i, t, choice);
    var (c2, t2) := Micro(c1, i, t1, choice);
    assert Iterate(c2, i, t2, choice, 0) == (c2, t2);
  }

  /** A poll that runs alone while nothing is stored raises, and changes nothing. */
  lemma PollRaises(c: Core, i: int, t: Thread, choice: Choice)
    requires NothingStored(c, t.call.state) && Quiet(c, choice.clock) && t.pc == Sweeping(Begin, Polling(ReadResult))
    ensures var r := Iterate(c, i, t, choice, 12);
            r.0 == c && r.1.call == t.call && r.1.pc == At(Finished(RaisedUnknown))
  {
    hide Iterate, Micro, NothingStored, Quiet;
    SweepRuns(c, i, t, choice);
    var t1 := t.To(Polling(ReadResult)).(clock := choice.clock);
    PollReads(c, i, t1, choice);
    var t2 := t1.PurgeThen(Polling(ReadResultAgain)).(blind := c.Past(t.call.state).gap);
    SweepRuns(c, i, t2, choice);
    var t3 := t2.To(Polling(ReadResultAgain)).(clock := choice.clock);
    PollReadsAgain(c, i, t3, choice);
    IterateMore(c, i, t, choice, 3, 9);
    IterateMore(c, i, t1, choice, 4, 5);
    IterateMore(c, i, t2, choice, 3, 2);
  }

  /** A flow is waiting, and nothing else is known of its state. */
  predicate Waiting(c: Core, s: string) {
    && s in c.flows.at && s !in c.results.at && s !in c.errors.at && s !in c.markers && c.lock.None?
  }

  lemma MicrosoftEnters(c: Core, i: int, t: Thread, choice: Choice)
    requires Waiting(c, t.call.state) && c.flows.at[t.call.state].provider == MICROSOFT && t.pc == At(Entering(Peek))
    ensures Iterate(c, i, t, choice, 4) == (c.(lock := Some(i)), t.PurgeThen(Entering(Claim)).(microsoft := true))
  {
    hide StepPoll, StepWork, StepLeave, StepOther, StepSweep, StepClaim;
    var (c1, t1) := Micro(c, i, t, choice);
    var (c2, t2) := Micro(c1, i, t1, choice);
    var (c3, t3) := Micro(c2, i, t2, choice);
    var (c4, t4) := Micro(c3, i, t3, choice);
    assert Iterate(c3, i, t3, choice, 1) == (c4, t4);
    assert Iterate(c2, i, t2, choice, 2) == (c4, t4);
    assert Iterate(c1, i, t1, choice, 3) == (c4, t4);
  }

  /** The state is in the gap: its flow is gone and nothing has replaced it yet. */
  predicate InGap(c: Core, s: string) {
    NothingStored(c, s) && c.Past(s).gap
  }

  lemma MicrosoftReachesGap(c: Core, i: int, t: Thread, choice: Choice)
    requires Waiting(c, t.call.state) && c.flows.at[t.call.state].provider == MICROSOFT && t.pc == At(Entering(Peek))
    requires Quiet(c, choice.clock) && choice.clock < c.flows.at[t.call.state].expires
    ensures var r := Iterate(c, i, t, choice, 8);
            && InGap(r.0, t.call.state) && r.1 == t.To(Working(GapMarker)).(microsoft := true, clock := choice.clock, provider := MICROSOFT)
            && r.0 == c.(lock := Some(i), flows := c.flows.Pop(t.call.state)).Note(
                 t.call.state, c.Past(t.call.state).(consumer := Some(i), gap := true, exposed := true))
  {
    hide Overdue, Oldest;
    MicrosoftEnters(c, i, t, choice);
    var c1, t1 := c.(lock := Some(i)), t.PurgeThen(Entering(Claim)).(microsoft := true);
    SweepRuns(c1, i, t1, choice);
    var t2 := t1.To(Entering(Claim)).(clock := choice.clock);
    IterateMore(c, i, t, choice, 4, 4);
    IterateMore(c1, i, t1, choice, 3, 1);
    var (c3, t3) := Micro(c1, i, t2, choice);
    assert Iterate(c3, i, t3, choice, 0) == (c3, t3);
  }

  lemma RejectReachesGap(c: Core, i: int, t: Thread, choice: Choice)
    requires Waiting(c, t.call.state) && t.call.op.Reject? && t.pc == Sweeping(Begin, Other(ClaimRejected(t.call.op.reason))) && Quiet(c, choice.clock)
    ensures var r := Iterate(c, i, t, choice, 4);
            && InGap(r.0, t.call.state) && r.1.pc == At(Other(PublishRejection(t.call.op.reason))) && r.1.call.state == t.call.state
            && r.0 == c.(flows := c.flows.Pop(t.call.state)).Note(
                 t.call.state, c.Past(t.call.state).(consumer := Some(i), gap := true, exposed := true, rejected := true))
  {
    hide Overdue, Oldest;
    SweepRuns(c, i, t, choice);
    var t1 := t.To(t.pc.next).(clock := choice.clock);
    IterateMore(c, i, t, choice, 3, 1);
    var (c2, t2) := Micro(c, i, t1, choice);
    assert Iterate(c2, i, t2, choice, 0) == (c2, t2);
  }

  lemma MicrosoftFinishes(c: Core, i: int, t: Thread, choice: Choice)
    requires t.pc == At(Working(GapMarker)) && t.microsoft && choice.outcome.Succeeds?
    ensures var r, status := Iterate(c, i, t, choice, 6), Status(t.provider, Authenticated, Some(choice.outcome.session));
            && r.1.pc == At(Finished(Returned(status)))
            && r.0.Past(t.call.state) == c.Past(t.call.state).(gap := false, exchanges := c.Past(t.call.state).exchanges + 1, published := Some(status))
  {
    hide StepPoll, StepEnter, StepOther, StepSweep;
    var (c1, t1) := Micro(c, i, t, choice);
    var (c2, t2) := Micro(c1, i, t1, choice);
    var (c3, t3) := Micro(c2, i, t2, choice);
    assert Iterate(c2, i, t2, choice, 1) == (c3, t3);
    assert Iterate(c1, i, t1, choice, 2) == (c3, t3);
    assert Iterate(c, i, t, choice, 3) == (c3, t3);
    MicrosoftLeaves(c3, i, t3, choice);
    IterateMore(c, i, t, choice, 3, 3);
  }

  lemma MicrosoftLeaves(c: Core, i: int, t: Thread, choice: Choice)
    requires t.pc.At? && t.pc.next.Working? && t.pc.next.work.Publish? && t.microsoft
    ensures var r, status := Iterate(c, i, t, choice, 3), t.pc.next.work.status;
            && r.1.pc == At(Finished(Returned(status)))
            && r.0.Past(t.call.state) == c.Past(t.call.state).(published := Some(status))
  {
    hide StepPoll, StepEnter, StepOther, StepSweep;
    var (c1, t1) := Micro(c, i, t, choice);
    var (c2, t2) := Micro(c1, i, t1, choice);
    var (c3, t3) := Micro(c2, i, t2, choice);
    assert Iterate(c2, i, t2, choice, 1) == (c3, t3);
    assert Iterate(c1, i, t1, choice, 2) == (c3, t3);
  }

  lemma {:induction false} OverdueWithout(order: seq<string>, flows: map<string, Flow>, clock: int, s: string)
    requires Overdue(order, flows, clock) == []
    ensures Overdue(Without(order, s), flows - {s}, clock) == []
  {
    if order != [] {
      OverdueWithout(order[1..], flows, clock, s);
      var rest := Without(order[1..], s);
      if order[0] != s {
        assert ([order[0]] + rest)[1..] == rest;
      } else {
        assert [] + rest == rest;
      }
    }
  }

  /** A poll of a started sign-in raised, although the sign-in is neither out of time nor failed, nor anything was dropped. */
  predicate Betrayed(w: World, poll: int, s: string) {
    var h := w.core.Past(s);
    && poll in w.threads && w.threads[poll].call.op == Poll(s) && w.threads[poll].call.known
    && w.threads[poll].pc == At(Finished(RaisedUnknown))
    && h.failed.None? && h.expired.None? && !h.evicted && !h.forgotten && !h.crashed
  }

  function CallbackEvents(i: int, s: string, choice: Choice): seq<Event> {
    [Spawn(i, CompleteMicrosoft(s))] + Runs(i, choice, 8)
  }

  function PollEvents(j: int, s: string, choice: Choice): seq<Event> {
    [Spawn(j, Poll(s))] + Runs(j, choice, 12)
  }

  lemma CallbackEntersGap(w: World, i: int, s: string, choice: Choice)
    requires i !in w.threads && Waiting(w.core, s) && w.core.flows.at[s].provider == MICROSOFT
    requires Quiet(w.core, choice.clock) && choice.clock < w.core.flows.at[s].expires
    ensures var w' := After(w, CallbackEvents(i, s, choice));
            && InGap(w'.core, s) && Quiet(w'.core, choice.clock)
            && w'.core.Past(s) == w.core.Past(s).(named := true, consumer := Some(i), gap := true, exposed := true)
            && i in w'.threads && w'.threads == w.threads[i := w'.threads[i]]
            && w'.threads[i].pc == At(Working(GapMarker)) && w'.threads[i].microsoft
            && w'.threads[i].provider == MICROSOFT && w'.threads[i].call.state == s
  {
    hide Iterate, Micro, Quiet;
    var w1 := Next(w, Spawn(i, CompleteMicrosoft(s)));
    SameQuiet(w.core, w1.core, choice.clock);
    assert CallbackEvents(i, s, choice)[1..] == Runs(i, choice, 8);
    AfterRuns(w1, i, choice, 8);
    MicrosoftReachesGap(w1.core, i, w1.threads[i], choice);
    StillQuiet(w1.core, After(w1, Runs(i, choice, 8)).core, s, choice.clock);
  }

  lemma PollInGap(w: World, j: int, s: string, choice: Choice)
    requires j !in w.threads && InGap(w.core, s) && Quiet(w.core, choice.clock)
    ensures var w' := After(w, PollEvents(j, s, choice));
            && w'.core == w.core.Note(s, w.core.Past(s).(named := true))
            && j in w'.threads && w'.threads == w.threads[j := w'.threads[j]]
            && w'.threads[j].call.op == Poll(s) && w'.threads[j].call.known == w.core.Past(s).started.Some?
            && w'.threads[j].pc == At(Finished(RaisedUnknown))
  {
    hide Iterate, Micro, Quiet;
    var w1 := Next(w, Spawn(j, Poll(s)));
    SameQuiet(w.core, w1.core, choice.clock);
    assert PollEvents(j, s, choice)[1..] == Runs(j, choice, 12);
    AfterRuns(w1, j, choice, 12);
    PollRaises(w1.core, j, w1.threads[j], choice);
  }

  /** Wherever a Microsoft sign-in waits, a poll can fall into the gap of its callback, which then succeeds. */
  lemma MicrosoftGap(events: seq<Event>, i: int, j: int, s: string, choice: Choice)
    requires var w := Play(events);
             && i !in w.threads && j !in w.threads && i != j
             && Waiting(w.core, s) && w.core.flows.at[s].provider == MICROSOFT
             && Quiet(w.core, choice.clock) && choice.clock < w.core.flows.at[s].expires
             && choice.outcome.Succeeds?
             && w.core.Past(s).started.Some? && w.core.Past(s).failed.None? && w.core.Past(s).expired.None?
             && !w.core.Past(s).evicted && !w.core.Past(s).forgotten && !w.core.Past(s).crashed
    ensures var polled := events + CallbackEvents(i, s, choice) + PollEvents(j, s, choice);
            && Betrayed(Play(polled), j, s)
            && Play(polled).core.Past(s) == Play(events).core.Past(s).(named := true, consumer := Some(i), gap := true, exposed := true)
            && var w := Play(polled + Runs(i, choice, 6));
               && Betrayed(w, j, s)
               && w.core.Past(s).published == Some(Status(MICROSOFT, Authenticated, Some(choice.outcome.session)))
  {
    hide Iterate, Micro, Quiet, Waiting, InGap, CallbackEvents, PollEvents, After, Play, Runs;
    var called := events + CallbackEvents(i, s, choice);
    var polled := called + PollEvents(j, s, choice);
    PlayOn(events, CallbackEvents(i, s, choice));
    CallbackEntersGap(Play(events), i, s, choice);
    PlayOn(called, PollEvents(j, s, choice));
    PollInGap(Play(called), j, s, choice);
    var w := Play(polled);
    PlayOn(polled, Runs(i, choice, 6));
    AfterRuns(w, i, choice, 6);
    MicrosoftFinishes(w.core, i, w.threads[i], choice);
  }

  lemma SameQuiet(c: Core, c': Core, clock: int)
    requires Quiet(c, clock) && c'.flows == c.flows && c'.results == c.results
    ensures Quiet(c', clock)
  {
  }

  lemma StillQuiet(c: Core, c': Core, s: string, clock: int)
    requires Quiet(c, clock) && c'.flows == c.flows.Pop(s) && c'.results == c.results
    ensures Quiet(c', clock)
  {
    OverdueWithout(c.flows.order, c.flows.at, clock, s);
  }

  function Noon(provider: string): Choice { Choice(0, "s", provider, Succeeds("session")) }

  function Begun(provider: string): seq<Event> { [Spawn(0, Start)] + Runs(0, Noon(provider), 4) }

  /** Such a sign-in exists, with any provider: one `start` makes it. */
  lemma StartWaits(provider: string)
    ensures var w := Play(Begun(provider));
            && w.threads.Keys == {0} && Waiting(w.core, "s") && Quiet(w.core, 0) && w.core.flows.at["s"] == Flow(provider, FLOW_LIFETIME)
            && w.core.Past("s") == BLANK.(named := true, started := Some(provider), deadline := FLOW_LIFETIME)
  {
    var w, choice := Next(INIT, Spawn(0, Start)), Noon(provider);
    assert Begun(provider)[1..] == Runs(0, choice, 4);
    assert [] + Begun(provider) == Begun(provider);
    PlayOn([], Begun(provider));
    AfterRuns(w, 0, choice, 4);
    SweepRuns(w.core, 0, w.threads[0], choice);
    IterateMore(w.core, 0, w.threads[0], choice, 3, 1);
    IssueRuns(w.core, 0, w.threads[0].To(Other(Issue)), choice);
    hide Iterate, Micro, Play, After, Runs;
    QuietOne("s", Flow(provider, FLOW_LIFETIME));
    assert Play(Begun(provider)).core.flows == Dict(["s"], map["s" := Flow(provider, FLOW_LIFETIME)]);
  }

  lemma QuietOne(s: string, flow: Flow)
    requires flow.expires > 0
    ensures Overdue([s], map[s := flow], 0) == []
  {
    assert Overdue([s][1..], map[s := flow], 0) == [];
  }

  lemma IssueRuns(c: Core, i: int, t: Thread, choice: Choice)
    requires t.pc == At(Other(Issue)) && !c.Past(choice.newState).named
    ensures var flow := Flow(choice.provider, t.clock + FLOW_LIFETIME);
            Iterate(c, i, t, choice, 1)
            == (c.(flows := c.flows.Set(choice.newState, flow)).Note(choice.newState,
                  c.Past(choice.newState).(named := true, started := Some(flow.provider), deadline := flow.expires)),
                t.To(Finished(Done)))
  {
    hide StepPoll, StepEnter, StepWork, StepLeave, StepSweep;
    var (c1, t1) := Micro(c, i, t, choice);
    assert Iterate(c1, i, t1, choice, 0) == (c1, t1);
  }

  lemma PopBeforeMarkFails()
    ensures var polled, noon := Begun(MICROSOFT) + CallbackEvents(1, "s", Noon(MICROSOFT)) + PollEvents(2, "s", Noon(MICROSOFT)), Noon(MICROSOFT);
            && Betrayed(Play(polled), 2, "s") && Betrayed(Play(polled + Runs(1, noon, 6)), 2, "s")
            && Play(polled).core.Past("s").started == Some(MICROSOFT) && !Play(polled).core.Past("s").rejected
            && Play(polled + Runs(1, noon, 6)).core.Past("s").published.Some?
  {
    hide Play, Runs, Quiet, Waiting, Betrayed, CallbackEvents, PollEvents, Begun;
    StartWaits(MICROSOFT);
    MicrosoftGap(Begun(MICROSOFT), 1, 2, "s", Noon(MICROSOFT));
  }

  function RejectEvents(i: int, s: string, reason: string, choice: Choice): seq<Event> {
    [Spawn(i, Reject(s, reason))] + Runs(i, choice, 4)
  }

  lemma RejectEntersGap(w: World, i: int, s: string, reason: string, choice: Choice)
    requires i !in w.threads && Waiting(w.core, s) && Quiet(w.core, choice.clock)
    ensures var w' := After(w, RejectEvents(i, s, reason, choice));
            && InGap(w'.core, s) && Quiet(w'.core, choice.clock)
            && w'.core.Past(s) == w.core.Past(s).(named := true, consumer := Some(i), gap := true, exposed := true, rejected := true)
            && i in w'.threads && w'.threads == w.threads[i := w'.threads[i]]
            && w'.threads[i].pc == At(Other(PublishRejection(reason))) && w'.threads[i].call.state == s
            && w'.core.lock.None? && w'.core.results == w.core.results
  {
    hide Iterate, Micro, Quiet;
    var w1 := Next(w, Spawn(i, Reject(s, reason)));
    SameQuiet(w.core, w1.core, choice.clock);
    assert RejectEvents(i, s, reason, choice)[1..] == Runs(i, choice, 4);
    AfterRuns(w1, i, choice, 4);
    RejectReachesGap(w1.core, i, w1.threads[i], choice);
    StillQuiet(w1.core, After(w1, Runs(i, choice, 4)).core, s, choice.clock);
  }

  /** `reject` pops the flow before it publishes the rejection: a poll in between raises instead of reporting it. */
  lemma RejectGap(events: seq<Event>, i: int, j: int, s: string, reason: string, choice: Choice)
    requires var w := Play(events);
             && i !in w.threads && j !in w.threads && i != j
             && Waiting(w.core, s) && Quiet(w.core, choice.clock)
             && w.core.Past(s).started.Some? && w.core.Past(s).failed.None? && w.core.Past(s).expired.None?
             && !w.core.Past(s).evicted && !w.core.Past(s).forgotten && !w.core.Past(s).crashed
    ensures var w := Play(events + RejectEvents(i, s, reason, choice) + PollEvents(j, s, choice));
            && Betrayed(w, j, s)
            && w.core.Past(s) == Play(events).core.Past(s).(
                 named := true, consumer := Some(i), gap := true, exposed := true, rejected := true)
  {
    hide Iterate, Micro, Quiet, Waiting, InGap, RejectEvents, PollEvents, After, Play, Runs;
    var called := events + RejectEvents(i, s, reason, choice);
    PlayOn(events, RejectEvents(i, s, reason, choice));
    RejectEntersGap(Play(events), i, s, reason, choice);
    PlayOn(called, PollEvents(j, s, choice));
    PollInGap(Play(called), j, s, choice);
  }
}
