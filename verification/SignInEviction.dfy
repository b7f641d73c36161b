/** What a stored sign-in result can be lost to, over every run: an overfull store, or a logout of its own session. */
module SignInEviction {
  import opened Prelude
  import opened SignIn
  import opened SignInSafety
  import opened SignInRuns

  // ----- insertion-ordered dictionaries -----

  predicate Distinct(order: seq<string>) {
    forall a, b :: 0 <= a < b < |order| ==> order[a] != order[b]
  }

  /** The order lists the keys, each of them once. */
  ghost predicate Tidy<V>(d: Dict<V>) {
    (forall k :: k in d.at <==> k in d.order) && Distinct(d.order)
  }

  lemma {:induction false} WithoutOne(order: seq<string>, k: string)
    requires Distinct(order)
    ensures forall x :: x in Without(order, k) <==> x in order && x != k
    ensures Distinct(Without(order, k))
  {
    if order != [] {
      WithoutOne(order[1..], k);
      assert order == [order[0]] + order[1..];
      if order[0] != k {
        assert order[0] !in Without(order[1..], k);
        assert Without(order, k) == [order[0]] + Without(order[1..], k);
      } else {
        assert Without(order, k) == Without(order[1..], k);
      }
    }
  }

  ghost predicate Moves<V(!new)>(d: Dict<V>, d': Dict<V>) {
    d' == d || (exists k :: d' == d.Pop(k)) || (exists k, v :: d' == d.Set(k, v))
  }

  lemma MovesTidily<V(!new)>(d: Dict<V>, d': Dict<V>)
    requires Tidy(d) && Moves(d, d')
    ensures Tidy(d')
  {
    if k :| d' == d.Pop(k) {
      WithoutOne(d.order, k);
    }
  }

  /** As many keys as entries of the order. */
  lemma TidyCount<V>(d: Dict<V>)
    requires Tidy(d)
    ensures |d.at| == |d.order|
  {
    DistinctCount(d.order);
    assert d.at.Keys == set k | k in d.order;
  }

  lemma {:induction false} DistinctCount(order: seq<string>)
    requires Distinct(order)
    ensures |set k | k in order| == |order|
  {
    if order != [] {
      DistinctCount(order[1..]);
      assert order == [order[0]] + order[1..];
      assert (set k | k in order) == {order[0]} + set k | k in order[1..];
    }
  }

  // ----- what one step does to the dictionaries -----

  ghost predicate Moved(c: Core, c': Core) {
    Moves(c.results, c'.results) && Moves(c.flows, c'.flows) && Moves(c.errors, c'.errors)
  }

  lemma SweepMoves(c: Core, t: Thread, clock: int)
    requires t.pc.Sweeping?
    ensures var c' := StepSweep(c, t, clock).0; Moved(c, c')
  {
    hide Overdue, Oldest;
  }

  lemma EnterMoves(c: Core, i: int, t: Thread, place: EnterPlace)
    requires t.pc.At?
    ensures var c' := StepEnter(c, i, t, place).0; Moved(c, c')
  {
  }

  lemma WorkMoves(c: Core, t: Thread, place: WorkPlace, outcome: Outcome)
    requires t.pc.At?
    ensures var c' := StepWork(c, t, place, outcome).0; Moved(c, c')
  {
  }

  lemma LeaveMoves(c: Core, t: Thread, place: LeavePlace)
    requires t.pc.At?
    ensures var c' := StepLeave(c, t, place).0; Moved(c, c')
  {
  }

  lemma OtherMoves(c: Core, i: int, t: Thread, place: OtherPlace, choice: Choice)
    requires t.pc.At?
    ensures var c' := StepOther(c, i, t, place, choice).0; Moved(c, c')
  {
    hide OfSession;
  }

  lemma StepMoves(c: Core, i: int, t: Thread, choice: Choice)
    ensures var c' := Micro(c, i, t, choice).0; Moved(c, c')
  {
    hide StepPoll, StepEnter, StepWork, StepLeave, StepOther, StepSweep;
    if t.pc.Sweeping? {
      SweepMoves(c, t, choice.clock);
    } else {
      match t.pc.next {
        case Entering(place) => EnterMoves(c, i, t, place);
        case Working(place) => WorkMoves(c, t, place, choice.outcome);
        case Leaving(place) => LeaveMoves(c, t, place);
        case Other(place) => OtherMoves(c, i, t, place, choice);
        case _ =>
      }
    }
  }

  // ----- what one step does to one stored result -----

  /** Nothing, the loss of a stored result, or the first one. */
  predicate Shifts(g: Glance, g': Glance) {
    || (g'.result == g.result && g'.h.evicted == g.h.evicted)
    || (g.result.Some? && g'.result.None? && g'.h.evicted)
    || (g.h.published.None? && g'.result.Some? && g'.h.published.Some? && g'.h.evicted == g.h.evicted)
  }

  lemma EvictShifts(c: Core, x: string, s: string)
    ensures Shifts(Look(c, s), Look(EvictResult(c, x), s))
  {
    EvictLook(c, x, s);
    hide EvictResult, Look;
  }

  lemma SweepShifts(c: Core, t: Thread, clock: int, s: string)
    requires t.pc.Sweeping?
    ensures Shifts(Look(c, s), Look(StepSweep(c, t, clock).0, s))
  {
    if t.pc.sweep.Trim? && t.pc.sweep.oldest != [] {
      EvictShifts(c, t.pc.sweep.oldest[0], s);
      hide EvictResult, Shifts;
    }
    hide Overdue, Oldest;
  }

  lemma EnterShifts(c: Core, i: int, t: Thread, place: EnterPlace, s: string)
    requires t.pc.At?
    ensures Shifts(Look(c, s), Look(StepEnter(c, i, t, place).0, s))
  {
  }

  lemma WorkShifts(c: Core, i: int, t: Thread, place: WorkPlace, outcome: Outcome, s: string)
    requires t.pc == At(Working(place)) && LocalOk(c.lock, i, t, Look(c, t.call.state))
    ensures Shifts(Look(c, s), Look(StepWork(c, t, place, outcome).0, s))
  {
    hide PollOk, EnterOk, LeaveOk, OtherOk, FinishedOk;
  }

  lemma LeaveShifts(c: Core, t: Thread, place: LeavePlace, s: string)
    requires t.pc.At?
    ensures Shifts(Look(c, s), Look(StepLeave(c, t, place).0, s))
  {
  }

  lemma OtherShifts(c: Core, i: int, t: Thread, place: OtherPlace, choice: Choice, s: string)
    requires t.pc == At(Other(place)) && LocalOk(c.lock, i, t, Look(c, t.call.state))
    ensures Shifts(Look(c, s), Look(StepOther(c, i, t, place, choice).0, s))
  {
    hide PollOk, EnterOk, WorkOk, LeaveOk, FinishedOk, OfSession;
    if place.Evict? && place.states != [] {
      EvictShifts(c, place.states[0], s);
      hide EvictResult, Shifts;
    }
  }

  lemma StepShifts(c: Core, i: int, t: Thread, choice: Choice, s: string)
    requires LocalOk(c.lock, i, t, Look(c, t.call.state))
    ensures Shifts(Look(c, s), Look(Micro(c, i, t, choice).0, s))
  {
    hide StepPoll, StepEnter, StepWork, StepLeave, StepOther, StepSweep, Look, LocalOk;
    if t.pc.Sweeping? {
      SweepShifts(c, t, choice.clock, s);
    } else {
      match t.pc.next {
        case Entering(place) => EnterShifts(c, i, t, place, s);
        case Working(place) => WorkShifts(c, i, t, place, choice.outcome, s);
        case Leaving(place) => LeaveShifts(c, t, place, s);
        case Other(place) => OtherShifts(c, i, t, place, choice, s);
        case _ =>
      }
    }
  }

  // ----- the states a call still has to drop -----

  /** What is left of the list a purge or a logout works through. */
  function Listed(t: Thread): seq<string> {
    match t.pc
    case Sweeping(Trim(oldest), _) => oldest
    case At(Other(Evict(states))) => states
    case _ => []
  }

  /** Nothing but the head of such a list is ever dropped. */
  lemma OnlyHeads(c: Core, i: int, t: Thread, choice: Choice, s: string)
    requires LocalOk(c.lock, i, t, Look(c, t.call.state))
    ensures Micro(c, i, t, choice).0.Past(s).evicted ==> c.Past(s).evicted || (Listed(t) != [] && s == Listed(t)[0])
  {
    hide StepPoll, StepEnter, StepLeave, LocalOk, Look, Oldest, Overdue, OfSession;
    if t.pc.At? {
      match t.pc.next {
        case Entering(place) => EnterDrops(c, i, t, place, s);
        case Working(place) => WorkDrops(c, t, place, choice.outcome, s);
        case Leaving(place) => LeaveDrops(c, t, place, s);
        case Other(place) =>
        case _ =>
      }
      hide StepWork;
    }
  }

  lemma EnterDrops(c: Core, i: int, t: Thread, place: EnterPlace, s: string)
    requires t.pc.At?
    ensures StepEnter(c, i, t, place).0.Past(s).evicted == c.Past(s).evicted
  {
  }

  lemma WorkDrops(c: Core, t: Thread, place: WorkPlace, outcome: Outcome, s: string)
    requires t.pc.At?
    ensures StepWork(c, t, place, outcome).0.Past(s).evicted == c.Past(s).evicted
  {
  }

  lemma LeaveDrops(c: Core, t: Thread, place: LeavePlace, s: string)
    requires t.pc.At?
    ensures StepLeave(c, t, place).0.Past(s).evicted == c.Past(s).evicted
  {
  }

  /** More than a hundred results are stored, and `s` is older than the newest hundred. */
  predicate Overfull(c: Core, s: string) {
    |c.results.at| > 100 && exists k :: 0 <= k < |c.results.order| - 100 && c.results.order[k] == s
  }

  /** The call ends the session that this state's published result carries. */
  predicate Ends(op: Op, h: History) {
    op.Logout? && h.published.Some? && h.published.value.session == Some(op.session)
  }

  lemma {:induction false} OfSessionOf(order: seq<string>, results: map<string, Status>, session: string)
    ensures forall s :: s in OfSession(order, results, session)
                        <==> s in order && s in results && results[s].session == Some(session)
  {
    if order != [] {
      OfSessionOf(order[1..], results, session);
      assert order == [order[0]] + order[1..];
    }
  }

  /** A logout never sweeps, and looks for the session it was called with. */
  predicate CallOk(t: Thread) {
    && (t.call.op.Logout? ==> t.pc.At?)
    && (t.pc.next.Other? && t.pc.next.other.Snapshot? ==> t.call.op == Logout(t.pc.next.other.session))
    && (t.pc.next.Other? && t.pc.next.other.Evict? ==> t.call.op.Logout?)
  }

  lemma LogoutPlaces(lock: Option<int>, i: int, t: Thread, g: Glance)
    requires LocalOk(lock, i, t, g) && t.call.op.Logout?
    ensures t.pc.next.Finished? || (t.pc.next.Other? && (t.pc.next.other.Snapshot? || t.pc.next.other.Evict?))
  {
  }

  lemma EnterStays(c: Core, i: int, t: Thread, place: EnterPlace)
    requires t.pc == At(Entering(place))
    ensures !StepEnter(c, i, t, place).1.pc.next.Other?
  {
  }

  lemma PollStays(c: Core, t: Thread, place: PollPlace)
    requires t.pc == At(Polling(place))
    ensures !StepPoll(c, t, place).pc.next.Other?
  {
  }

  lemma WorkStays(c: Core, t: Thread, place: WorkPlace, outcome: Outcome)
    requires t.pc == At(Working(place))
    ensures !StepWork(c, t, place, outcome).1.pc.next.Other?
  {
  }

  lemma LeaveStays(c: Core, t: Thread, place: LeavePlace)
    requires t.pc == At(Leaving(place))
    ensures !StepLeave(c, t, place).1.pc.next.Other?
  {
  }

  lemma CallStays(c: Core, i: int, t: Thread, choice: Choice)
    requires LocalOk(c.lock, i, t, Look(c, t.call.state)) && CallOk(t)
    ensures CallOk(Micro(c, i, t, choice).1)
  {
    SameCall(c, i, t, choice);
    if t.call.op.Logout? {
      LogoutPlaces(c.lock, i, t, Look(c, t.call.state));
      LogoutStays(c, i, t, choice);
      hide *;
    } else {
      OthersStay(c, i, t, choice);
      hide Micro, LocalOk, Look;
    }
  }

  lemma LogoutStays(c: Core, i: int, t: Thread, choice: Choice)
    requires CallOk(t) && t.call.op.Logout?
    requires t.pc.next.Finished? || (t.pc.next.Other? && (t.pc.next.other.Snapshot? || t.pc.next.other.Evict?))
    ensures CallOk(Micro(c, i, t, choice).1)
  {
    hide OfSession, EvictResult;
  }

  /** No other call ever gets to the end of a logout. */
  lemma OthersStay(c: Core, i: int, t: Thread, choice: Choice)
    requires CallOk(t) && !t.call.op.Logout?
    ensures var next := Micro(c, i, t, choice).1.pc.next; next.Other? ==> !next.other.Snapshot? && !next.other.Evict?
  {
    hide StepPoll, StepEnter, StepWork, StepLeave, OfSession, EvictResult, Lapse, Overdue, Oldest;
    if t.pc.At? {
      match t.pc.next {
        case Polling(place) => PollStays(c, t, place);
        case Entering(place) => EnterStays(c, i, t, place);
        case Working(place) => WorkStays(c, t, place, choice.outcome);
        case Leaving(place) => LeaveStays(c, t, place);
        case _ =>
      }
    }
  }

  lemma OldestOf(c: Core, s: string)
    requires Tidy(c.results) && s in Oldest(c.results.order)
    ensures Overfull(c, s)
  {
    TidyCount(c.results);
    var k :| 0 <= k < |Oldest(c.results.order)| && Oldest(c.results.order)[k] == s;
    assert c.results.order[k] == s;
  }

  /** Where the entries of such a list come from. */
  lemma ListsFrom(c: Core, i: int, t: Thread, choice: Choice, s: string)
    requires LocalOk(c.lock, i, t, Look(c, t.call.state)) && CallOk(t) && Tidy(c.results)
    requires s in Listed(Micro(c, i, t, choice).1)
    ensures var t' := Micro(c, i, t, choice).1;
            && t'.pc.Sweeping? == t.pc.Sweeping?
            && (s in Listed(t) || (if t.pc.Sweeping? then Overfull(c, s)
                                   else t.call.op.Logout? && s in c.results.at && c.results.at[s].session == Some(t.call.op.session)))
  {
    hide Look, Overdue, Lapse, EvictResult;
    if t.pc.Sweeping? {
      SweepLists(c, t, choice.clock, s);
      hide *;
    } else if t.pc.next.Other? {
      OtherLists(c, i, t, t.pc.next.other, choice, s);
      hide *;
    } else {
      PlainLists(c, i, t, choice);
      hide *;
    }
  }

  lemma PlainLists(c: Core, i: int, t: Thread, choice: Choice)
    requires t.pc.At? && !t.pc.next.Other?
    ensures Listed(Micro(c, i, t, choice).1) == []
  {
    hide StepPoll, StepEnter, StepWork, StepLeave;
    match t.pc.next {
      case Polling(place) => PollStays(c, t, place);
      case Entering(place) => EnterStays(c, i, t, place);
      case Working(place) => WorkStays(c, t, place, choice.outcome);
      case Leaving(place) => LeaveStays(c, t, place);
      case Finished(_) =>
    }
  }

  lemma SweepLists(c: Core, t: Thread, clock: int, s: string)
    requires t.pc.Sweeping? && CallOk(t) && Tidy(c.results) && s in Listed(StepSweep(c, t, clock).1)
    ensures StepSweep(c, t, clock).1.pc.Sweeping? && (s in Listed(t) || Overfull(c, s))
  {
    hide Tidy, Overfull, Overdue, Lapse, EvictResult, Oldest;
    if s in Oldest(c.results.order) { OldestOf(c, s); }
  }

  lemma OtherLists(c: Core, i: int, t: Thread, place: OtherPlace, choice: Choice, s: string)
    requires t.pc == At(Other(place)) && CallOk(t) && s in Listed(StepOther(c, i, t, place, choice).1)
    ensures StepOther(c, i, t, place, choice).1.pc.At?
    ensures s in Listed(t) || (t.call.op.Logout? && s in c.results.at && c.results.at[s].session == Some(t.call.op.session))
  {
    hide EvictResult;
    if place.Snapshot? { OfSessionOf(c.results.order, c.results.at, place.session); }
    hide OfSession;
  }

  // ----- the one error a step forgets -----

  lemma OnlyOldestError(c: Core, i: int, t: Thread, choice: Choice, s: string)
    requires Tidy(c.errors)
    ensures Micro(c, i, t, choice).0.Past(s).forgotten ==> c.Past(s).forgotten || ErrorsFull(c, s)
  {
    hide StepPoll, StepEnter, StepWork, Oldest, Overdue, OfSession, Tidy;
    TidyCount(c.errors);
    if t.pc.At? {
      match t.pc.next {
        case Entering(place) => EnterForgets(c, i, t, place, s);
        case Working(place) => WorkForgets(c, t, place, choice.outcome, s);
        case _ =>
      }
    }
  }

  lemma EnterForgets(c: Core, i: int, t: Thread, place: EnterPlace, s: string)
    requires t.pc.At?
    ensures StepEnter(c, i, t, place).0.Past(s).forgotten == c.Past(s).forgotten
  {
  }

  lemma WorkForgets(c: Core, t: Thread, place: WorkPlace, outcome: Outcome, s: string)
    requires t.pc.At?
    ensures StepWork(c, t, place, outcome).0.Past(s).forgotten == c.Past(s).forgotten
  {
  }

  // ----- the whole run -----

  /** At some point of the run more than a hundred results were stored and `s` was older than the newest hundred. */
  ghost predicate Crowded(events: seq<Event>, s: string) {
    exists n :: 0 <= n <= |events| && Overfull(Play(events[..n]).core, s)
  }

  /** More than a hundred errors are stored, and that of `s` is the oldest. */
  predicate ErrorsFull(c: Core, s: string) {
    |c.errors.at| > 100 && |c.errors.order| > 0 && c.errors.order[0] == s
  }

  ghost predicate ErrorsCrowded(events: seq<Event>, s: string) {
    exists n :: 0 <= n <= |events| && ErrorsFull(Play(events[..n]).core, s)
  }

  /** Some call of the run was a logout of exactly the session that the result of `s` was published with. */
  ghost predicate LoggedOut(w: World, s: string) {
    exists i :: i in w.threads && Ends(w.threads[i].call.op, w.core.Past(s))
  }

  ghost predicate Dropped(events: seq<Event>, s: string) {
    Crowded(events, s) || LoggedOut(Play(events), s)
  }

  /** A call has only such states left to drop. */
  ghost predicate ListOk(events: seq<Event>, t: Thread) {
    forall s :: s in Listed(t) ==> if t.pc.Sweeping? then Crowded(events, s) else Ends(t.call.op, Play(events).core.Past(s))
  }

  ghost predicate KeptOk(events: seq<Event>) {
    var w := Play(events);
    && Tidy(w.core.results) && Tidy(w.core.flows) && Tidy(w.core.errors)
    && (forall s :: w.core.Past(s).forgotten ==> ErrorsCrowded(events, s))
    && (forall s :: w.core.Past(s).evicted ==> w.core.Past(s).published.Some? && s !in w.core.results.at && Dropped(events, s))
    && forall i :: i in w.threads ==> CallOk(w.threads[i]) && ListOk(events, w.threads[i])
  }

  lemma CrowdedLater(events: seq<Event>, more: seq<Event>, s: string)
    requires Crowded(events, s)
    ensures Crowded(events + more, s)
  {
    var n :| 0 <= n <= |events| && Overfull(Play(events[..n]).core, s);
    assert (events + more)[..n] == events[..n];
    hide Play, Overfull;
  }

  lemma CrowdedNow(events: seq<Event>, more: seq<Event>, s: string)
    requires Overfull(Play(events).core, s)
    ensures Crowded(events + more, s)
  {
    assert (events + more)[..|events|] == events;
    hide Play, Overfull;
  }

  lemma ErrorsCrowdedLater(events: seq<Event>, more: seq<Event>, s: string)
    requires ErrorsCrowded(events, s)
    ensures ErrorsCrowded(events + more, s)
  {
    var n :| 0 <= n <= |events| && ErrorsFull(Play(events[..n]).core, s);
    assert (events + more)[..n] == events[..n];
    hide Play, ErrorsFull;
  }

  lemma ErrorsCrowdedNow(events: seq<Event>, more: seq<Event>, s: string)
    requires ErrorsFull(Play(events).core, s)
    ensures ErrorsCrowded(events + more, s)
  {
    assert (events + more)[..|events|] == events;
    hide Play, ErrorsFull;
  }

  lemma EndsLater(op: Op, h: History, h': History)
    requires Ends(op, h) && Grows(h, h')
    ensures Ends(op, h')
  {
  }

  lemma DroppedLater(events: seq<Event>, more: seq<Event>, s: string)
    requires Dropped(events, s)
    ensures Dropped(events + more, s)
  {
    if Crowded(events, s) {
      CrowdedLater(events, more, s);
    } else {
      var w, w' := Play(events), Play(events + more);
      var i :| i in w.threads && Ends(w.threads[i].call.op, w.core.Past(s));
      PlayLater(events, more, i, s);
      EndsLater(w.threads[i].call.op, w.core.Past(s), w'.core.Past(s));
      hide Play, Ends, Grows;
      assert i in w'.threads && Ends(w'.threads[i].call.op, w'.core.Past(s));
    }
  }

  lemma ListLater(events: seq<Event>, more: seq<Event>, i: int)
    requires i in Play(events).threads && i in Play(events + more).threads
    requires Play(events + more).threads[i] == Play(events).threads[i] && ListOk(events, Play(events).threads[i])
    ensures ListOk(events + more, Play(events).threads[i])
  {
    var t := Play(events).threads[i];
    forall s | s in Listed(t)
      ensures if t.pc.Sweeping? then Crowded(events + more, s) else Ends(t.call.op, Play(events + more).core.Past(s))
    {
      if t.pc.Sweeping? {
        CrowdedLater(events, more, s);
      } else {
        PlayLater(events, more, i, s);
        EndsLater(t.call.op, Play(events).core.Past(s), Play(events + more).core.Past(s));
      }
    }
    hide Play, Ends, Grows, Listed, Crowded;
  }

  lemma PlayStep(before: seq<Event>, e: Event)
    ensures Play(before + [e]) == Next(Play(before), e)
  {
    assert (before + [e])[..|before|] == before;
    hide Next;
  }

  /** The step shifts nothing a lost result would come back by. */
  lemma LostStays(g: Glance, g': Glance)
    requires StateOk(g) && Shifts(g, g') && Grows(g.h, g'.h) && g'.h.evicted
    requires g.h.evicted ==> g.h.published.Some? && g.result.None?
    ensures g'.result.None? && g'.h.published.Some?
  {
  }

  lemma EvictedByStep(before: seq<Event>, i: int, choice: Choice, s: string)
    requires KeptOk(before) && i in Play(before).threads
    ensures var w' := Play(before + [Run(i, choice)]);
            w'.core.Past(s).evicted
            ==> w'.core.Past(s).published.Some? && s !in w'.core.results.at && Dropped(before + [Run(i, choice)], s)
  {
    var w, e := Play(before), Run(i, choice);
    var c, t, w' := w.core, w.threads[i], Play(before + [e]);
    PlayStep(before, e);
    PlayOk(before);
    assert ThreadOk(c, i, t) && StateOk(Look(c, s));
    PlayLater(before, [e], i, s);
    StepShifts(c, i, t, choice, s);
    OnlyHeads(c, i, t, choice, s);
    assert w'.core == Micro(c, i, t, choice).0;
    assert c.Past(s) == Look(c, s).h && w'.core.Past(s) == Look(w'.core, s).h;
    assert s in w'.core.results.at <==> Look(w'.core, s).result.Some?;
    assert s in c.results.at <==> Look(c, s).result.Some?;
    assert ListOk(before, t);
    hide Play, Micro, StateOk, Shifts, Grows, Look, LocalOk, WorldOk, Listed, Crowded, Ends, Tidy;
    if w'.core.Past(s).evicted {
      LostStays(Look(c, s), Look(w'.core, s));
      if c.Past(s).evicted {
        DroppedLater(before, [e], s);
      } else if t.pc.Sweeping? {
        CrowdedLater(before, [e], s);
      } else {
        EndsLater(t.call.op, c.Past(s), w'.core.Past(s));
      }
    }
  }

  lemma ListByStep(before: seq<Event>, i: int, choice: Choice)
    requires KeptOk(before) && i in Play(before).threads
    ensures var t' := Play(before + [Run(i, choice)]).threads[i]; CallOk(t') && ListOk(before + [Run(i, choice)], t')
  {
    var w, e := Play(before), Run(i, choice);
    var c, t, w' := w.core, w.threads[i], Play(before + [e]);
    PlayStep(before, e);
    PlayOk(before);
    assert ThreadOk(c, i, t);
    SameCall(c, i, t, choice);
    assert CallOk(t) && ListOk(before, t);
    CallStays(c, i, t, choice);
    var t' := w'.threads[i];
    assert t' == Micro(c, i, t, choice).1;
    forall s | s in Listed(t')
      ensures if t'.pc.Sweeping? then Crowded(before + [e], s) else Ends(t'.call.op, w'.core.Past(s))
    {
      ListsFrom(c, i, t, choice, s);
      assert StateOk(Look(c, s));
      PlayLater(before, [e], i, s);
      ListedCause(before, e, t, s);
    }
    hide *;
  }

  lemma ListedCause(before: seq<Event>, e: Event, t: Thread, s: string)
    requires ListOk(before, t) && StateOk(Look(Play(before).core, s))
    requires Grows(Play(before).core.Past(s), Play(before + [e]).core.Past(s))
    requires var c := Play(before).core;
             s in Listed(t) || (if t.pc.Sweeping? then Overfull(c, s)
                                else t.call.op.Logout? && s in c.results.at && c.results.at[s].session == Some(t.call.op.session))
    ensures if t.pc.Sweeping? then Crowded(before + [e], s) else Ends(t.call.op, Play(before + [e]).core.Past(s))
  {
    hide Play, Listed, Overfull, Crowded;
    if t.pc.Sweeping? {
      if s in Listed(t) { CrowdedLater(before, [e], s); } else { CrowdedNow(before, [e], s); }
    } else {
      assert Ends(t.call.op, Play(before).core.Past(s));
      EndsLater(t.call.op, Play(before).core.Past(s), Play(before + [e]).core.Past(s));
    }
  }

  lemma ForgottenByStep(before: seq<Event>, i: int, choice: Choice, s: string)
    requires KeptOk(before) && i in Play(before).threads && Play(before + [Run(i, choice)]).core.Past(s).forgotten
    ensures ErrorsCrowded(before + [Run(i, choice)], s)
  {
    var w, e := Play(before), Run(i, choice);
    PlayStep(before, e);
    OnlyOldestError(w.core, i, w.threads[i], choice, s);
    hide Play, Micro, ErrorsFull, Crowded, Listed;
    if w.core.Past(s).forgotten { ErrorsCrowdedLater(before, [e], s); } else { ErrorsCrowdedNow(before, [e], s); }
  }

  lemma RunKept(before: seq<Event>, i: int, choice: Choice)
    requires KeptOk(before) && i in Play(before).threads
    ensures KeptOk(before + [Run(i, choice)])
  {
    var w, e := Play(before), Run(i, choice);
    var w' := Play(before + [e]);
    PlayStep(before, e);
    StepMoves(w.core, i, w.threads[i], choice);
    MovesTidily(w.core.results, w'.core.results);
    MovesTidily(w.core.flows, w'.core.flows);
    MovesTidily(w.core.errors, w'.core.errors);
    assert w'.threads == w.threads[i := w'.threads[i]];
    forall s | w'.core.Past(s).evicted
      ensures w'.core.Past(s).published.Some? && s !in w'.core.results.at && Dropped(before + [e], s)
    {
      EvictedByStep(before, i, choice, s);
    }
    forall s | w'.core.Past(s).forgotten ensures ErrorsCrowded(before + [e], s) { ForgottenByStep(before, i, choice, s); }
    forall j | j in w'.threads ensures CallOk(w'.threads[j]) && ListOk(before + [e], w'.threads[j]) {
      if j == i {
        ListByStep(before, i, choice);
      } else {
        assert CallOk(w.threads[j]) && ListOk(before, w.threads[j]);
        ListLater(before, [e], j);
      }
    }
  }

  lemma EntryLists(op: Op, t: Thread)
    requires t.call.op == op && t.pc == Entry(op)
    ensures CallOk(t) && Listed(t) == []
  {
  }

  lemma SpawnKept(before: seq<Event>, i: int, op: Op)
    requires KeptOk(before) && i !in Play(before).threads
    ensures KeptOk(before + [Spawn(i, op)])
  {
    var w, e := Play(before), Spawn(i, op);
    var w' := Play(before + [e]);
    PlayStep(before, e);
    EntryLists(op, w'.threads[i]);
    assert w'.threads == w.threads[i := w'.threads[i]];
    assert forall s :: w'.core.Past(s).evicted == w.core.Past(s).evicted && w'.core.Past(s).published == w.core.Past(s).published
                && w'.core.Past(s).forgotten == w.core.Past(s).forgotten;
    hide Next, Entry, Listed, Tidy, Crowded, ErrorsCrowded, Ends, Play, CallOk;
    forall s | w'.core.Past(s).forgotten ensures ErrorsCrowded(before + [e], s) { ErrorsCrowdedLater(before, [e], s); }
    forall s | w'.core.Past(s).evicted
      ensures w'.core.Past(s).published.Some? && s !in w'.core.results.at && Dropped(before + [e], s)
    {
      DroppedLater(before, [e], s);
    }
    hide Dropped;
    forall j | j in w'.threads ensures CallOk(w'.threads[j]) && ListOk(before + [e], w'.threads[j]) {
      if j != i {
        assert CallOk(w.threads[j]) && ListOk(before, w.threads[j]);
        ListLater(before, [e], j);
      }
    }
  }

  lemma {:induction false} PlayKept(events: seq<Event>)
    ensures KeptOk(events)
  {
    if events != [] {
      var before, e := events[..|events| - 1], events[|events| - 1];
      PlayKept(before);
      assert events == before + [e];
      var w := Play(before);
      match e {
        case Spawn(i, op) => if i !in w.threads { SpawnKept(before, i, op); } else { IdleKept(before, e); }
        case Run(i, choice) => if i in w.threads { RunKept(before, i, choice); } else { IdleKept(before, e); }
      }
      hide *;
    }
  }

  lemma IdleKept(before: seq<Event>, e: Event)
    requires KeptOk(before) && Next(Play(before), e) == Play(before)
    ensures KeptOk(before + [e])
  {
    var w := Play(before);
    PlayStep(before, e);
    hide Next, Listed, Tidy, Crowded, ErrorsCrowded, Ends, Play, CallOk;
    forall s | w.core.Past(s).forgotten ensures ErrorsCrowded(before + [e], s) { ErrorsCrowdedLater(before, [e], s); }
    forall s | w.core.Past(s).evicted ensures Dropped(before + [e], s) {
      DroppedLater(before, [e], s);
    }
    hide Dropped;
    forall j | j in w.threads ensures ListOk(before + [e], w.threads[j]) {
      assert ListOk(before, w.threads[j]);
      ListLater(before, [e], j);
    }
  }

  // ----- what the runs promise -----

  /**
   * However the calls interleave, a published result is lost only if more than a hundred results were stored at some point
   * and it was older than the newest hundred, or if a logout was called for exactly the session it carries.
   */
  lemma LostOnlyByCause(events: seq<Event>, s: string)
    requires var w := Play(events); w.core.Past(s).published.Some? && s !in w.core.results.at
    ensures Dropped(events, s)
  {
    PlayOk(events);
    PlayKept(events);
    assert StateOk(Look(Play(events).core, s));
    hide Play, Dropped;
  }

  /** A recorded error is lost only if more than a hundred errors were stored at some point and it was the oldest of them. */
  lemma ErrorLostOnlyByCause(events: seq<Event>, s: string)
    requires var w := Play(events); w.core.Past(s).failed.Some? && s !in w.core.errors.at
    ensures ErrorsCrowded(events, s)
  {
    PlayOk(events);
    PlayKept(events);
    assert StateOk(Look(Play(events).core, s));
    hide Play, ErrorsCrowded;
  }

  /** A poll that begins after a result was published returns it, unless there was such a cause to lose it. */
  lemma PublishedIsSeen(events: seq<Event>, more: seq<Event>, i: int, s: string, verdict: Verdict)
    requires i !in Play(events).threads && Play(events).core.Past(s).published.Some?
    requires var all := events + [Spawn(i, Poll(s))] + more;
             i in Play(all).threads && Play(all).threads[i].pc == At(Finished(verdict)) && !Dropped(all, s)
    ensures verdict.Returned? && Some(verdict.status) == Play(events).core.Past(s).published
  {
    var all := events + [Spawn(i, Poll(s))] + more;
    PlayKept(all);
    assert !Play(all).core.Past(s).evicted;
    hide KeptOk, Dropped, Play;
    PublishedUntilEvicted(events, more, i, s, verdict);
  }

  /** A poll of a started state raises unknown only for a cause that is not the sign-in's own. */
  lemma UnknownHasCause(events: seq<Event>, i: int)
    requires var w := Play(events);
             i in w.threads && w.threads[i].call.op.Poll? && w.threads[i].call.known && w.threads[i].pc == At(Finished(RaisedUnknown))
    ensures var s := Play(events).threads[i].call.op.state;
            var h := Play(events).core.Past(s);
            || (h.expired.Some? && h.deadline <= h.expired.value)
            || h.crashed || ErrorsCrowded(events, s) || Dropped(events, s) || Play(events).threads[i].blind
  {
    PollsNeverLie(events, i, RaisedUnknown);
    PlayKept(events);
    hide Play, ErrorsCrowded, Dropped;
  }
}
