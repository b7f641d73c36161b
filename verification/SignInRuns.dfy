/** The sign-in protocol over whole runs: polls never lie, a flow is used once, duplicate callbacks agree. */
module SignInRuns {
  import opened Prelude
  import opened SignIn
  import opened SignInSafety

  predicate ThreadOk(c: Core, i: int, t: Thread) {
    t.call.state == StateOf(t.call.op) && LocalOk(c.lock, i, t, Look(c, t.call.state))
  }

  ghost predicate WorldOk(w: World) {
    && AllOk(w.core)
    && forall i :: i in w.threads ==> ThreadOk(w.core, i, w.threads[i]) && SweepOk(w.core, w.threads[i])
  }

  lemma SameCall(c: Core, i: int, t: Thread, choice: Choice)
    ensures var t' := Micro(c, i, t, choice).1; t'.call == t.call
  {
    hide StepPoll, StepEnter, StepWork, StepLeave, StepOther, Oldest, Lapse, EvictResult, Overdue;
  }

  // ----- the thread that steps -----

  lemma SweepLands(c: Core, i: int, t: Thread, clock: int)
    requires AllOk(c) && LocalOk(c.lock, i, t, Look(c, t.call.state)) && SweepOk(c, t) && t.pc.Sweeping?
    ensures Lands(c, i, t, StepSweep(c, t, clock))
  {
    hide LocalOk, Look, StateOk, Rely;
    var (c', t') := StepSweep(c, t, clock);
    SweepThread(c, t, clock);
    hide StepSweep;
    assert StateOk(Look(c, t.call.state));
    SweepKeeps(c, t, clock, t.call.state, i);
    Stands(i, t, c.lock, Look(c, t.call.state), c'.lock, Look(c', t.call.state));
    SamePlace(c'.lock, i, t, t', Look(c', t.call.state));
  }

  lemma SweepThread(c: Core, t: Thread, clock: int)
    requires t.pc.Sweeping?
    ensures var t' := StepSweep(c, t, clock).1; t'.pc.next == t.pc.next && t' == t.(clock := t'.clock, pc := t'.pc)
  {
    hide Lapse, EvictResult, Overdue, Oldest;
  }

  lemma SamePlace(lock: Option<int>, i: int, t: Thread, t': Thread, g: Glance)
    requires LocalOk(lock, i, t, g) && t'.pc.next == t.pc.next && t' == t.(clock := t'.clock, pc := t'.pc)
    ensures LocalOk(lock, i, t', g)
  {
    hide StateOf;
  }

  lemma StepLands(c: Core, i: int, t: Thread, choice: Choice)
    requires AllOk(c) && LocalOk(c.lock, i, t, Look(c, t.call.state)) && SweepOk(c, t)
    ensures Lands(c, i, t, Micro(c, i, t, choice))
  {
    assert StateOk(Look(c, t.call.state));
    FlowUntouched(Look(c, t.call.state));
    if t.pc.Sweeping? {
      SweepLands(c, i, t, choice.clock);
      hide *;
    } else {
      hide Look, LocalOk, StepPoll, StepWork, StepLeave, StepOther, StepClaim, StateOk, Untouched;
      match t.pc.next {
        case Polling(place) => PollLands(c, i, t, place);
        case Entering(place) =>
          if place.Claim? { ClaimLands(c, i, t); } else { EnterLands(c, i, t, place); }
        case Working(place) => WorkLands(c, i, t, place, choice.outcome);
        case Leaving(place) => LeaveLands(c, i, t, place);
        case Other(place) =>
          if place.ClaimRejected? || place.PublishRejection? { RejectLands(c, i, t, place, choice); }
          else { OtherLands(c, i, t, place, choice); }
        case Finished(_) =>
      }
    }
  }

  lemma StepSweeps(c: Core, i: int, t: Thread, choice: Choice)
    requires AllOk(c) && SweepOk(c, t)
    ensures var r := Micro(c, i, t, choice); SweepOk(r.0, r.1)
  {
    hide StepPoll, StepEnter, StepWork, StepLeave, StepOther, Oldest, EvictResult, Overdue, Lapse, StateOk;
    if t.pc.Sweeping? && t.pc.sweep.Begin? {
      BeginSweeps(c, choice.clock);
    } else if t.pc.Sweeping? && t.pc.sweep.Expire? && t.pc.sweep.overdue != [] {
      LapseKeepsDeadlines(c, t.pc.sweep.overdue[0], t.clock);
    }
  }

  lemma LapseKeepsDeadlines(c: Core, x: string, clock: int)
    ensures forall s :: Lapse(c, x, clock).Past(s).started == c.Past(s).started && Lapse(c, x, clock).Past(s).deadline == c.Past(s).deadline
  {
  }

  lemma BeginSweeps(c: Core, clock: int)
    requires AllOk(c)
    ensures forall s :: s in Overdue(c.flows.order, c.flows.at, clock) ==> c.Past(s).started.Some? && c.Past(s).deadline <= clock
  {
    OverdueAreDue(c.flows.order, c.flows.at, clock);
    forall s | s in Overdue(c.flows.order, c.flows.at, clock)
      ensures c.Past(s).started.Some? && c.Past(s).deadline <= clock
    {
      assert StateOk(Look(c, s));
    }
  }

  // ----- the whole run -----

  lemma RunKeeps(w: World, i: int, choice: Choice)
    requires WorldOk(w)
    ensures WorldOk(Next(w, Run(i, choice)))
  {
    if i in w.threads {
      var c, t := w.core, w.threads[i];
      var (c', t') := Micro(c, i, t, choice);
      var w' := Next(w, Run(i, choice));
      assert ThreadOk(c, i, t) && SweepOk(c, t);
      SameCall(c, i, t, choice);
      StepLands(c, i, t, choice);
      StepSweeps(c, i, t, choice);
      forall s, j | j != i ensures StateOk(Look(c', s)) && Rely(j, c.lock, Look(c, s), c'.lock, Look(c', s)) {
        StepKeeps(c, i, t, choice, s, j);
      }
      hide Micro, LocalOk, Look, Rely, StateOk, SweepOk, StateOf;
      assert AllOk(c') by {
        forall s ensures StateOk(Look(c', s)) { StepKeeps(c, i, t, choice, s, i + 1); }
      }
      forall j | j in w'.threads ensures ThreadOk(c', j, w'.threads[j]) && SweepOk(c', w'.threads[j]) {
        if j != i {
          assert ThreadOk(c, j, w.threads[j]) && SweepOk(c, w.threads[j]);
          Stands(j, w.threads[j], c.lock, Look(c, w.threads[j].call.state), c'.lock, Look(c', w.threads[j].call.state));
          ListStands(j, w.threads[j], c, c');
        }
      }
    }
  }

  lemma ListStands(j: int, t: Thread, c: Core, c': Core)
    requires SweepOk(c, t) && forall s :: Rely(j, c.lock, Look(c, s), c'.lock, Look(c', s))
    ensures SweepOk(c', t)
  {
    if t.pc.Sweeping? && t.pc.sweep.Expire? {
      forall s | s in t.pc.sweep.overdue ensures c'.Past(s).started.Some? && c'.Past(s).deadline <= t.clock {
        assert Rely(j, c.lock, Look(c, s), c'.lock, Look(c', s));
      }
    }
  }

  lemma NamingLook(c: Core, x: string, s: string)
    ensures var g := Look(c, s);
            Look(c.Note(x, c.Past(x).(named := true)), s) == if s == x then g.(h := g.h.(named := true)) else g
  {
  }

  lemma NamingKeeps(c: Core, x: string, s: string, j: int)
    requires StateOk(Look(c, s))
    ensures var c' := c.Note(x, c.Past(x).(named := true));
            StateOk(Look(c', s)) && Rely(j, c.lock, Look(c, s), c'.lock, Look(c', s))
  {
    NamingLook(c, x, s);
    hide Look;
  }

  lemma SpawnKeeps(w: World, i: int, op: Op)
    requires WorldOk(w)
    ensures WorldOk(Next(w, Spawn(i, op)))
  {
    if i !in w.threads {
      var c, x := w.core, StateOf(op);
      var w' := Next(w, Spawn(i, op));
      var c' := w'.core;
      assert c' == c.Note(x, c.Past(x).(named := true));
      assert ThreadOk(c', i, w'.threads[i]) && SweepOk(c', w'.threads[i]);
      forall s, j ensures StateOk(Look(c', s)) && Rely(j, c.lock, Look(c, s), c'.lock, Look(c', s)) {
        assert StateOk(Look(c, s));
        NamingKeeps(c, x, s, j);
      }
      hide LocalOk, Look, Rely, StateOk, SweepOk, StateOf, Entry;
      assert AllOk(c') by {
        forall s ensures StateOk(Look(c', s)) { assert Rely(i, c.lock, Look(c, s), c'.lock, Look(c', s)); }
      }
      forall j | j in w'.threads ensures ThreadOk(c', j, w'.threads[j]) && SweepOk(c', w'.threads[j]) {
        if j != i {
          assert ThreadOk(c, j, w.threads[j]) && SweepOk(c, w.threads[j]);
          Stands(j, w.threads[j], c.lock, Look(c, w.threads[j].call.state), c'.lock, Look(c', w.threads[j].call.state));
          ListStands(j, w.threads[j], c, c');
        }
      }
    }
  }

  lemma {:induction false} PlayOk(events: seq<Event>)
    ensures WorldOk(Play(events))
  {
    if events == [] {
      forall s ensures StateOk(Look(INIT.core, s)) {}
    } else {
      var before := events[..|events| - 1];
      PlayOk(before);
      match events[|events| - 1] {
        case Spawn(i, op) => SpawnKeeps(Play(before), i, op);
        case Run(i, choice) => RunKeeps(Play(before), i, choice);
      }
    }
  }

  // ----- what the runs promise -----

  /** The verdict a poll of a started state may reach, for every interleaving. */
  lemma PollsNeverLie(events: seq<Event>, i: int, verdict: Verdict)
    requires var w := Play(events);
             i in w.threads && w.threads[i].call.op.Poll? && w.threads[i].call.known && w.threads[i].pc == At(Finished(verdict))
    ensures var w := Play(events);
            var h := w.core.Past(w.threads[i].call.op.state);
            match verdict
            case Returned(status) => h.published == Some(status) || (h.started.Some? && status == Status(h.started.value, Pending, None))
            case Raised(message) => h.failed == Some(message)
            case RaisedUnknown =>
              || (h.expired.Some? && h.deadline <= h.expired.value)
              || h.crashed || h.forgotten || h.evicted || w.threads[i].blind
            case _ => false
    ensures Play(events).threads[i].blind ==> Play(events).core.Past(Play(events).threads[i].call.op.state).exposed
  {
    PlayOk(events);
    var w := Play(events);
    var t := w.threads[i];
    assert ThreadOk(w.core, i, t) && StateOk(Look(w.core, t.call.state));
  }

  /** History only grows, and a call stays the call it is. */
  predicate Later(w: World, w': World, i: int, s: string) {
    && Grows(w.core.Past(s), w'.core.Past(s))
    && (i in w.threads ==> i in w'.threads && w'.threads[i].call == w.threads[i].call)
  }

  lemma NextLater(w: World, e: Event, i: int, s: string)
    requires WorldOk(w)
    ensures Later(w, Next(w, e), i, s)
  {
    match e {
      case Spawn(_, _) =>
      case Run(k, choice) =>
        if k in w.threads {
          assert ThreadOk(w.core, k, w.threads[k]) && SweepOk(w.core, w.threads[k]);
          SameCall(w.core, k, w.threads[k], choice);
          StepKeeps(w.core, k, w.threads[k], choice, s, k + 1);
        }
        hide Micro, StateOk, LocalOk, Grows;
    }
  }

  lemma {:induction false} PlayLater(events: seq<Event>, more: seq<Event>, i: int, s: string)
    ensures Later(Play(events), Play(events + more), i, s)
    decreases |more|
  {
    if more == [] {
      assert events + more == events;
    } else {
      var before, e := more[..|more| - 1], more[|more| - 1];
      PlayLater(events, before, i, s);
      PlayOk(events + before);
      NextLater(Play(events + before), e, i, s);
      assert events + more == (events + before) + [e];
      assert (events + more)[..|events + before|] == events + before;
    }
    hide Next, WorldOk;
  }

  /** A poll that begins after the result was published returns it, unless it has been evicted by then. */
  lemma PublishedUntilEvicted(events: seq<Event>, more: seq<Event>, i: int, s: string, verdict: Verdict)
    requires i !in Play(events).threads && Play(events).core.Past(s).published.Some?
    requires var w := Play(events + [Spawn(i, Poll(s))] + more);
             i in w.threads && w.threads[i].pc == At(Finished(verdict)) && !w.core.Past(s).evicted
    ensures verdict.Returned? && Some(verdict.status) == Play(events).core.Past(s).published
  {
    var spawned := events + [Spawn(i, Poll(s))];
    var w := Play(spawned + more);
    assert spawned[..|events|] == events;
    PlayLater(events, [Spawn(i, Poll(s))], i, s);
    PlayLater(spawned, more, i, s);
    PlayOk(spawned + more);
    assert ThreadOk(w.core, i, w.threads[i]);
    hide Play, Next;
  }

  /** However many callbacks and polls race, the code of one sign-in is exchanged at most once. */
  lemma ExchangedOnce(events: seq<Event>, s: string)
    ensures Play(events).core.Past(s).exchanges <= 1
    ensures s in Play(events).core.flows.at ==> Play(events).core.Past(s).exchanges == 0
  {
    PlayOk(events);
    assert StateOk(Look(Play(events).core, s));
  }

  /** Duplicate callbacks of one state that have returned all saw the same outcome. */
  lemma CallbacksAgree(events: seq<Event>, i: int, j: int, first: Verdict, second: Verdict)
    requires var w := Play(events);
             && i in w.threads && j in w.threads
             && IsComplete(w.threads[i].call.op) && IsComplete(w.threads[j].call.op) && w.threads[i].call.op.state == w.threads[j].call.op.state
             && w.threads[i].pc == At(Finished(first)) && w.threads[j].pc == At(Finished(second))
             && !Excused(w.core.Past(w.threads[i].call.op.state))
    ensures first == second
  {
    PlayOk(events);
    var w := Play(events);
    assert ThreadOk(w.core, i, w.threads[i]) && ThreadOk(w.core, j, w.threads[j]);
    assert StateOk(Look(w.core, w.threads[i].call.state));
  }

  // ----- who opens the gap -----

  /** A flow is popped unmarked by a Microsoft callback or by a rejection, and by nothing else. */
  predicate Explained(h: History) {
    h.exposed ==> h.started == Some(MICROSOFT) || h.rejected
  }

  /** The override that took the Microsoft order did so because the flow's own provider said so. */
  predicate Truthful(t: Thread, h: History) {
    t.microsoft ==> h.started == Some(MICROSOFT)
  }

  lemma StepPeeks(c: Core, i: int, t: Thread, choice: Choice)
    ensures var t' := Micro(c, i, t, choice).1;
            t'.microsoft ==> t.microsoft || (t.call.state in c.flows.at && c.flows.at[t.call.state].provider == MICROSOFT)
  {
    hide Oldest, Overdue, Lapse, EvictResult;
  }

  predicate Exposes(c: Core, t: Thread, c': Core, s: string) {
    c'.Past(s).exposed ==> c.Past(s).exposed || c'.Past(s).rejected || (t.microsoft && s == t.call.state)
  }

  lemma SweepExposes(c: Core, t: Thread, clock: int, s: string)
    requires t.pc.Sweeping?
    ensures Exposes(c, t, StepSweep(c, t, clock).0, s)
  {
    hide Overdue, Oldest;
  }

  lemma EnterExposes(c: Core, i: int, t: Thread, place: EnterPlace, s: string)
    requires t.pc.At?
    ensures Exposes(c, t, StepEnter(c, i, t, place).0, s)
  {
  }

  lemma WorkExposes(c: Core, t: Thread, place: WorkPlace, outcome: Outcome, s: string)
    requires t.pc.At?
    ensures Exposes(c, t, StepWork(c, t, place, outcome).0, s)
  {
  }

  lemma LeaveExposes(c: Core, t: Thread, place: LeavePlace, s: string)
    requires t.pc.At?
    ensures Exposes(c, t, StepLeave(c, t, place).0, s)
  {
  }

  lemma OtherExposes(c: Core, i: int, t: Thread, place: OtherPlace, choice: Choice, s: string)
    requires t.pc.At?
    ensures Exposes(c, t, StepOther(c, i, t, place, choice).0, s)
  {
    hide OfSession;
  }

  lemma StepExposes(c: Core, i: int, t: Thread, choice: Choice, s: string)
    ensures Exposes(c, t, Micro(c, i, t, choice).0, s)
  {
    hide StepPoll, StepEnter, StepWork, StepLeave, StepOther, StepSweep;
    if t.pc.Sweeping? {
      SweepExposes(c, t, choice.clock, s);
    } else {
      match t.pc.next {
        case Entering(place) => EnterExposes(c, i, t, place, s);
        case Working(place) => WorkExposes(c, t, place, choice.outcome, s);
        case Leaving(place) => LeaveExposes(c, t, place, s);
        case Other(place) => OtherExposes(c, i, t, place, choice, s);
        case _ =>
      }
    }
  }

  ghost predicate Accounted(w: World) {
    && (forall s :: Explained(w.core.Past(s)))
    && forall i :: i in w.threads ==> Truthful(w.threads[i], w.core.Past(w.threads[i].call.state))
  }

  /** A start fixes the provider of a state, so an explanation outlives every later step. */
  lemma StaysExplained(h: History, h': History, t: Thread)
    requires Grows(h, h')
    ensures Explained(h) && h.exposed ==> Explained(h')
    ensures Truthful(t, h) ==> Truthful(t, h')
  {
  }

  lemma RunAccounts(w: World, k: int, choice: Choice)
    requires WorldOk(w) && Accounted(w) && k in w.threads
    ensures Accounted(Next(w, Run(k, choice)))
  {
    var w', t := Next(w, Run(k, choice)), w.threads[k];
    var x := t.call.state;
    assert w'.core == Micro(w.core, k, t, choice).0 && w'.threads[k] == Micro(w.core, k, t, choice).1;
    assert ThreadOk(w.core, k, t) && StateOk(Look(w.core, x));
    SameCall(w.core, k, t, choice);
    StepPeeks(w.core, k, t, choice);
    forall s ensures Grows(w.core.Past(s), w'.core.Past(s)) { NextLater(w, Run(k, choice), k, s); }
    hide Micro, LocalOk, Grows, WorldOk;
    forall s ensures Explained(w'.core.Past(s)) {
      assert Explained(w.core.Past(s)) && Truthful(t, w.core.Past(x));
      StepExposes(w.core, k, t, choice, s);
      StaysExplained(w.core.Past(s), w'.core.Past(s), t);
    }
    forall i | i in w'.threads ensures Truthful(w'.threads[i], w'.core.Past(w'.threads[i].call.state)) {
      assert Truthful(w.threads[i], w.core.Past(w.threads[i].call.state));
      StaysExplained(w.core.Past(w.threads[i].call.state), w'.core.Past(w.threads[i].call.state), w'.threads[i]);
    }
  }

  lemma {:induction false} PlayAccounts(events: seq<Event>)
    ensures Accounted(Play(events))
  {
    if events != [] {
      var before, e := events[..|events| - 1], events[|events| - 1];
      PlayAccounts(before);
      PlayOk(before);
      if e.Run? && e.thread in Play(before).threads {
        RunAccounts(Play(before), e.thread, e.choice);
      } else {
        hide WorldOk;
        assert forall s :: Explained(Play(before).core.Past(s)) ==> Explained(Play(events).core.Past(s));
      }
    }
  }

  /** Whatever calls a state received, its flow was popped before its marker only by a Microsoft callback or a rejection. */
  lemma NeverExposed(events: seq<Event>, s: string)
    requires var h := Play(events).core.Past(s); h.started != Some(MICROSOFT) && !h.rejected
    ensures !Play(events).core.Past(s).exposed
  {
    PlayAccounts(events);
    assert Explained(Play(events).core.Past(s));
  }

  /** A poll of a live sign-in of any other provider, not rejected by its user, only raises once it has failed. */
  lemma PollsWaitForFailure(events: seq<Event>, i: int, verdict: Verdict)
    requires var w := Play(events);
             i in w.threads && w.threads[i].call.op.Poll? && w.threads[i].call.known && w.threads[i].pc == At(Finished(verdict))
    requires var h := Play(events).core.Past(Play(events).threads[i].call.op.state);
             h.started != Some(MICROSOFT) && !h.rejected && h.expired.None? && !h.evicted
    ensures verdict.Returned? || Play(events).core.Past(Play(events).threads[i].call.op.state).failed.Some?
         || Play(events).core.Past(Play(events).threads[i].call.op.state).crashed
  {
    var s := Play(events).threads[i].call.op.state;
    PollsNeverLie(events, i, verdict);
    NeverExposed(events, s);
    PlayOk(events);
    assert StateOk(Look(Play(events).core, s));
  }
}
