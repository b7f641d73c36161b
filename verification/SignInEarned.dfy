/** Where published results and recorded errors come from: nobody gets a session that no exchange of this sign-in returned. */
module SignInEarned {
  import opened Prelude
  import opened SignIn
  import opened SignInSafety
  import opened SignInRuns
  import opened SignInEviction

  /** At this step a callback of `s` gets this outcome of its exchange, or of storing its refresh credential. */
  predicate Delivers(w: World, e: Event, s: string, outcome: Outcome) {
    && e.Run? && e.thread in w.threads && e.choice.outcome == outcome
    && var t := w.threads[e.thread];
       && t.call.state == s && IsComplete(t.call.op) && t.pc.At? && t.pc.next.Working?
       && (t.pc.next.work.Exchange? || (outcome.Fails? && t.pc.next.work.Save?))
  }

  ghost predicate Happened(events: seq<Event>, s: string, outcome: Outcome) {
    exists n :: 0 <= n < |events| && Delivers(Play(events[..n]), events[n], s, outcome)
  }

  /** A result of the flow's own provider, with the session an exchange returned or the reason a rejection gave. */
  ghost predicate Earned(events: seq<Event>, s: string, status: Status) {
    && Play(events).core.Past(s).started == Some(status.provider)
    && match status.phase
       case Pending => false
       case Authenticated => status.session.Some? && Happened(events, s, Succeeds(status.session.value))
       case Rejected(reason) => status.session.None? && exists i :: Asks(Play(events), i, Reject(s, reason))
  }

  predicate Asks(w: World, i: int, op: Op) {
    i in w.threads && w.threads[i].call.op == op
  }

  ghost predicate Blamed(events: seq<Event>, s: string, message: Message) {
    message.InvalidState? || Happened(events, s, Fails(message))
  }

  // ----- what one step publishes and records -----

  predicate PublishesOnly(c: Core, t: Thread, c': Core, s: string) {
    c'.Past(s).published == c.Past(s).published ||
    (&& s == t.call.state && t.pc.At?
     && ((t.pc.next.Working? && t.pc.next.work.Publish? && c'.Past(s).published == Some(t.pc.next.work.status))
         || (t.pc.next.Other? && t.pc.next.other.PublishRejection?
             && c'.Past(s).published == Some(Status(t.provider, Rejected(t.pc.next.other.reason), None)))))
  }

  predicate RecordsOnly(c: Core, t: Thread, c': Core, s: string) {
    c'.Past(s).failed == c.Past(s).failed ||
    (&& s == t.call.state && t.pc.At? && t.pc.next.Leaving? && t.pc.next.leave.Fail?
     && c'.Past(s).failed == Some(t.pc.next.leave.message))
  }

  predicate TellsOnly(c: Core, t: Thread, c': Core, s: string) {
    PublishesOnly(c, t, c', s) && RecordsOnly(c, t, c', s)
  }

  lemma SweepTells(c: Core, t: Thread, clock: int, s: string)
    requires t.pc.Sweeping?
    ensures TellsOnly(c, t, StepSweep(c, t, clock).0, s)
  {
    hide Overdue, Oldest;
  }

  lemma EnterTells(c: Core, i: int, t: Thread, place: EnterPlace, s: string)
    requires t.pc == At(Entering(place))
    ensures TellsOnly(c, t, StepEnter(c, i, t, place).0, s)
  {
  }

  lemma WorkTells(c: Core, t: Thread, place: WorkPlace, outcome: Outcome, s: string)
    requires t.pc == At(Working(place))
    ensures TellsOnly(c, t, StepWork(c, t, place, outcome).0, s)
  {
  }

  lemma LeaveTells(c: Core, t: Thread, place: LeavePlace, s: string)
    requires t.pc == At(Leaving(place))
    ensures TellsOnly(c, t, StepLeave(c, t, place).0, s)
  {
  }

  lemma OtherTells(c: Core, i: int, t: Thread, place: OtherPlace, choice: Choice, s: string)
    requires t.pc == At(Other(place))
    ensures TellsOnly(c, t, StepOther(c, i, t, place, choice).0, s)
  {
    hide OfSession;
  }

  lemma StepTells(c: Core, i: int, t: Thread, choice: Choice, s: string)
    ensures TellsOnly(c, t, Micro(c, i, t, choice).0, s)
  {
    hide StepPoll, StepEnter, StepWork, StepLeave, StepOther, StepSweep;
    if t.pc.Sweeping? {
      SweepTells(c, t, choice.clock, s);
    } else {
      match t.pc.next {
        case Entering(place) => EnterTells(c, i, t, place, s);
        case Working(place) => WorkTells(c, t, place, choice.outcome, s);
        case Leaving(place) => LeaveTells(c, t, place, s);
        case Other(place) => OtherTells(c, i, t, place, choice, s);
        case _ =>
      }
    }
  }

  // ----- what a call carries -----

  /** The result a call is about to publish or has published, the reason it was given, and the error it is about to record. */
  datatype Load = Nothing | Result(status: Status) | Reason(reason: string) | Error(message: Message)

  function LoadOf(t: Thread): Load {
    match t.pc.next
    case Working(Publish(status)) => Result(status)
    case Working(Save(status)) => Result(status)
    case Other(ClaimRejected(reason)) => Reason(reason)
    case Other(PublishRejection(reason)) => Reason(reason)
    case Leaving(Fail(message)) => Error(message)
    case _ => Nothing
  }

  predicate Rejecting(t: Thread) {
    t.pc.next.Other? && t.pc.next.other.PublishRejection?
  }

  /** A load is passed on, or is what this step delivers. */
  predicate LoadsFrom(t: Thread, outcome: Outcome, t': Thread) {
    match LoadOf(t')
    case Nothing => true
    case Result(status) =>
      || (LoadOf(t) == Result(status) && t'.provider == t.provider)
      || (t.pc == At(Working(Exchange)) && outcome.Succeeds? && status == Status(t.provider, Authenticated, Some(outcome.session)))
    case Reason(reason) => LoadOf(t) == Reason(reason)
    case Error(message) =>
      || LoadOf(t) == Error(message) || message == InvalidState
      || (t.pc.At? && t.pc.next.Working? && (t.pc.next.work.Exchange? || t.pc.next.work.Save?) && outcome == Fails(message))
  }

  lemma SweepLoads(c: Core, t: Thread, clock: int, outcome: Outcome)
    requires t.pc.Sweeping?
    ensures LoadsFrom(t, outcome, StepSweep(c, t, clock).1)
  {
    hide Overdue, Oldest, Lapse, EvictResult;
  }

  lemma EnterLoads(c: Core, i: int, t: Thread, place: EnterPlace, outcome: Outcome)
    requires t.pc == At(Entering(place))
    ensures LoadsFrom(t, outcome, StepEnter(c, i, t, place).1)
  {
  }

  lemma WorkLoads(c: Core, t: Thread, place: WorkPlace, outcome: Outcome)
    requires t.pc == At(Working(place))
    ensures LoadsFrom(t, outcome, StepWork(c, t, place, outcome).1)
  {
  }

  lemma LeaveLoads(c: Core, t: Thread, place: LeavePlace, outcome: Outcome)
    requires t.pc == At(Leaving(place))
    ensures LoadsFrom(t, outcome, StepLeave(c, t, place).1)
  {
    hide Forget;
  }

  lemma OtherLoads(c: Core, i: int, t: Thread, place: OtherPlace, choice: Choice)
    requires t.pc == At(Other(place))
    ensures LoadsFrom(t, choice.outcome, StepOther(c, i, t, place, choice).1)
  {
    hide OfSession, EvictResult;
  }

  lemma PollLoads(c: Core, t: Thread, place: PollPlace, outcome: Outcome)
    requires t.pc == At(Polling(place))
    ensures LoadsFrom(t, outcome, StepPoll(c, t, place))
  {
  }

  lemma StepLoads(c: Core, i: int, t: Thread, choice: Choice)
    ensures LoadsFrom(t, choice.outcome, Micro(c, i, t, choice).1)
  {
    hide StepPoll, StepEnter, StepWork, StepLeave, StepOther, StepSweep;
    if t.pc.Sweeping? {
      SweepLoads(c, t, choice.clock, choice.outcome);
    } else {
      match t.pc.next {
        case Polling(place) => PollLoads(c, t, place, choice.outcome);
        case Entering(place) => EnterLoads(c, i, t, place, choice.outcome);
        case Working(place) => WorkLoads(c, t, place, choice.outcome);
        case Leaving(place) => LeaveLoads(c, t, place, choice.outcome);
        case Other(place) => OtherLoads(c, i, t, place, choice);
        case Finished(_) =>
      }
    }
  }

  /** A rejection knows the provider of the flow it popped. */
  lemma RejectsOwn(c: Core, i: int, t: Thread, choice: Choice)
    requires StateOk(Look(c, t.call.state))
    requires Rejecting(Micro(c, i, t, choice).1)
    ensures var t' := Micro(c, i, t, choice).1;
            (Rejecting(t) && t'.provider == t.provider) || c.Past(t.call.state).started == Some(t'.provider)
  {
    hide StepPoll, StepEnter, StepWork, StepLeave, Overdue, Oldest, OfSession, Lapse, EvictResult;
    if t.pc.At? {
      match t.pc.next {
        case Polling(place) => PollStays(c, t, place);
        case Entering(place) => EnterStays(c, i, t, place);
        case Working(place) => WorkStays(c, t, place, choice.outcome);
        case Leaving(place) => LeaveStays(c, t, place);
        case _ =>
      }
    }
  }

  // ----- the whole run -----

  /** What a call carries is accounted for. */
  ghost predicate Carries(events: seq<Event>, t: Thread) {
    var s := t.call.state;
    && (match LoadOf(t)
        case Nothing => true
        case Result(status) =>
          && status.provider == t.provider && status.phase.Authenticated? && status.session.Some?
          && Happened(events, s, Succeeds(status.session.value))
        case Reason(reason) => t.call.op == Reject(s, reason)
        case Error(message) => Blamed(events, s, message))
    && (Rejecting(t) ==> Play(events).core.Past(s).started == Some(t.provider))
  }

  ghost predicate StateEarned(events: seq<Event>, s: string) {
    var h := Play(events).core.Past(s);
    && (h.published.Some? ==> Earned(events, s, h.published.value))
    && (h.failed.Some? ==> Blamed(events, s, h.failed.value))
  }

  ghost predicate EarnedOk(events: seq<Event>) {
    && (forall s :: StateEarned(events, s))
    && forall i :: i in Play(events).threads ==> Carries(events, Play(events).threads[i])
  }

  lemma HappenedLater(events: seq<Event>, e: Event, s: string, outcome: Outcome)
    requires Happened(events, s, outcome)
    ensures Happened(events + [e], s, outcome)
  {
    var n :| 0 <= n < |events| && Delivers(Play(events[..n]), events[n], s, outcome);
    assert (events + [e])[..n] == events[..n] && (events + [e])[n] == events[n];
    hide Play, Delivers;
  }

  lemma HappenedNow(events: seq<Event>, e: Event, s: string, outcome: Outcome)
    requires Delivers(Play(events), e, s, outcome)
    ensures Happened(events + [e], s, outcome)
  {
    assert (events + [e])[..|events|] == events && (events + [e])[|events|] == e;
    hide Play, Delivers;
  }

  lemma BlamedLater(events: seq<Event>, e: Event, s: string, message: Message)
    requires Blamed(events, s, message)
    ensures Blamed(events + [e], s, message)
  {
    if message != InvalidState { HappenedLater(events, e, s, Fails(message)); }
  }

  lemma EarnedLater(events: seq<Event>, e: Event, s: string, status: Status)
    requires Earned(events, s, status)
    ensures Earned(events + [e], s, status)
  {
    PlayLater(events, [e], 0, s);
    match status.phase {
      case Pending =>
      case Authenticated => HappenedLater(events, e, s, Succeeds(status.session.value));
      case Rejected(reason) =>
        var i :| Asks(Play(events), i, Reject(s, reason));
        PlayLater(events, [e], i, s);
        assert Asks(Play(events + [e]), i, Reject(s, reason));
    }
    hide Play, Happened;
  }

  lemma CarriesLater(events: seq<Event>, e: Event, t: Thread)
    requires Carries(events, t)
    ensures Carries(events + [e], t)
  {
    var s := t.call.state;
    PlayLater(events, [e], 0, s);
    match LoadOf(t) {
      case Result(status) => HappenedLater(events, e, s, Succeeds(status.session.value));
      case Error(message) => BlamedLater(events, e, s, message);
      case _ =>
    }
    hide Play, Happened, Blamed, LoadOf;
  }

  lemma WorkerKnows(lock: Option<int>, i: int, t: Thread, g: Glance)
    requires LocalOk(lock, i, t, g) && t.pc.next.Working?
    ensures g.h.started == Some(t.provider) && IsComplete(t.call.op)
  {
  }

  /** The call that steps: what it carries on. */
  lemma StepCarries(before: seq<Event>, i: int, choice: Choice)
    requires EarnedOk(before) && i in Play(before).threads
    ensures Carries(before + [Run(i, choice)], Play(before + [Run(i, choice)]).threads[i])
  {
    var w, e := Play(before), Run(i, choice);
    var c, t, w' := w.core, w.threads[i], Play(before + [e]);
    var s, t' := t.call.state, w'.threads[i];
    PlayStep(before, e);
    PlayOk(before);
    assert ThreadOk(c, i, t) && StateOk(Look(c, s)) && Carries(before, t);
    if t.pc.next.Working? { WorkerKnows(c.lock, i, t, Look(c, s)); }
    SameCall(c, i, t, choice);
    StepLoads(c, i, t, choice);
    if Rejecting(t') { RejectsOwn(c, i, t, choice); }
    PlayLater(before, [e], i, s);
    assert t' == Micro(c, i, t, choice).1;
    hide Play, Micro, LocalOk, StateOk, Look, LoadOf, Happened, WorldOk, EarnedOk;
    match LoadOf(t') {
      case Nothing =>
      case Result(status) =>
        if LoadOf(t) == Result(status) {
          HappenedLater(before, e, s, Succeeds(status.session.value));
        } else {
          HappenedNow(before, e, s, choice.outcome);
        }
      case Reason(_) =>
      case Error(message) =>
        if LoadOf(t) == Error(message) {
          BlamedLater(before, e, s, message);
        } else if message != InvalidState {
          HappenedNow(before, e, s, choice.outcome);
        }
    }
  }

  /** What a step publishes or records is what its call carried. */
  lemma StepEarns(before: seq<Event>, i: int, choice: Choice, s: string)
    requires EarnedOk(before) && i in Play(before).threads
    ensures StateEarned(before + [Run(i, choice)], s)
  {
    var w, e := Play(before), Run(i, choice);
    var c, t, w' := w.core, w.threads[i], Play(before + [e]);
    PlayStep(before, e);
    PlayOk(before);
    assert ThreadOk(c, i, t) && Carries(before, t) && StateEarned(before, s);
    StepTells(c, i, t, choice, s);
    if t.pc.next.Working? { WorkerKnows(c.lock, i, t, Look(c, t.call.state)); }
    assert t.pc.At? && t.pc.next.Other? && t.pc.next.other.PublishRejection? ==> Asks(w, i, Reject(t.call.state, t.pc.next.other.reason));
    assert w'.core == Micro(c, i, t, choice).0;
    hide Play, Micro, LocalOk, StateOk, Happened, WorldOk, EarnedOk;
    if w'.core.Past(s).published.Some? {
      Publishing(before, e, i, t, s, w'.core.Past(s).published.value);
    }
    hide Earned, Carries, PublishesOnly;
    if w'.core.Past(s).failed.Some? && c.Past(s).failed == w'.core.Past(s).failed {
      BlamedLater(before, e, s, c.Past(s).failed.value);
    } else if w'.core.Past(s).failed.Some? {
      Recording(before, e, t);
    }
  }

  lemma Publishing(before: seq<Event>, e: Event, i: int, t: Thread, s: string, status: Status)
    requires StateEarned(before, s) && Carries(before, t)
    requires var h := Play(before).core.Past(s);
             || h.published == Some(status)
             || (&& s == t.call.state && t.pc.At? && h.started == Some(t.provider)
                 && ((t.pc.next.Working? && t.pc.next.work.Publish? && status == t.pc.next.work.status)
                     || (t.pc.next.Other? && t.pc.next.other.PublishRejection? && Asks(Play(before), i, t.call.op)
                         && status == Status(t.provider, Rejected(t.pc.next.other.reason), None))))
    ensures Earned(before + [e], s, status)
  {
    assert Earned(before, s, status) by { hide Play, Happened; }
    EarnedLater(before, e, s, status);
    hide *;
  }

  lemma Recording(before: seq<Event>, e: Event, t: Thread)
    requires Carries(before, t) && t.pc.next.Leaving? && t.pc.next.leave.Fail?
    ensures Blamed(before + [e], t.call.state, t.pc.next.leave.message)
  {
    BlamedLater(before, e, t.call.state, t.pc.next.leave.message);
    hide Play, Happened;
  }

  lemma RunEarns(before: seq<Event>, i: int, choice: Choice)
    requires EarnedOk(before) && i in Play(before).threads
    ensures EarnedOk(before + [Run(i, choice)])
  {
    var w, e := Play(before), Run(i, choice);
    var w' := Play(before + [e]);
    PlayStep(before, e);
    assert w'.threads == w.threads[i := w'.threads[i]];
    forall s ensures StateEarned(before + [e], s) { StepEarns(before, i, choice, s); }
    forall j | j in w'.threads ensures Carries(before + [e], w'.threads[j]) {
      if j == i {
        StepCarries(before, i, choice);
      } else {
        assert Carries(before, w.threads[j]);
        CarriesLater(before, e, w.threads[j]);
      }
    }
    hide *;
  }

  lemma QuietEarns(before: seq<Event>, e: Event, s: string)
    requires StateEarned(before, s)
    requires var h, h' := Play(before).core.Past(s), Play(before + [e]).core.Past(s); h'.published == h.published && h'.failed == h.failed
    ensures StateEarned(before + [e], s)
  {
    var h := Play(before).core.Past(s);
    if h.published.Some? { EarnedLater(before, e, s, h.published.value); }
    if h.failed.Some? { BlamedLater(before, e, s, h.failed.value); }
    hide Play, Earned, Blamed;
  }

  lemma EntryCarries(events: seq<Event>, t: Thread)
    requires t.pc == Entry(t.call.op) && t.call.state == StateOf(t.call.op)
    ensures Carries(events, t)
  {
    hide Play;
  }

  lemma SpawnEarns(before: seq<Event>, i: int, op: Op)
    requires EarnedOk(before) && i !in Play(before).threads
    ensures EarnedOk(before + [Spawn(i, op)])
  {
    var w, e := Play(before), Spawn(i, op);
    var w' := Play(before + [e]);
    PlayStep(before, e);
    assert w'.threads == w.threads[i := w'.threads[i]];
    assert forall s :: w'.core.Past(s).published == w.core.Past(s).published && w'.core.Past(s).failed == w.core.Past(s).failed;
    EntryCarries(before + [e], w'.threads[i]);
    hide Play, Next, Entry, Carries, StateEarned;
    forall s ensures StateEarned(before + [e], s) { QuietEarns(before, e, s); }
    forall j | j in w'.threads ensures Carries(before + [e], w'.threads[j]) {
      if j != i {
        assert Carries(before, w.threads[j]);
        CarriesLater(before, e, w.threads[j]);
      }
    }
  }

  lemma IdleEarns(before: seq<Event>, e: Event)
    requires EarnedOk(before) && Next(Play(before), e) == Play(before)
    ensures EarnedOk(before + [e])
  {
    PlayStep(before, e);
    hide Play, Next, Carries, StateEarned;
    forall s ensures StateEarned(before + [e], s) { QuietEarns(before, e, s); }
    forall j | j in Play(before).threads ensures Carries(before + [e], Play(before).threads[j]) {
      assert Carries(before, Play(before).threads[j]);
      CarriesLater(before, e, Play(before).threads[j]);
    }
  }

  lemma {:induction false} PlayEarned(events: seq<Event>)
    ensures EarnedOk(events)
  {
    if events != [] {
      var before, e := events[..|events| - 1], events[|events| - 1];
      PlayEarned(before);
      assert events == before + [e];
      var w := Play(before);
      match e {
        case Spawn(i, op) => if i !in w.threads { SpawnEarns(before, i, op); } else { IdleEarns(before, e); }
        case Run(i, choice) => if i in w.threads { RunEarns(before, i, choice); } else { IdleEarns(before, e); }
      }
      hide *;
    }
  }

  /**
   * Every result ever published for a sign-in is of the provider it was started with, and either carries the session that one of
   * its own callbacks got from its exchange, or no session and the reason one of its own rejections was called with.
   */
  lemma ResultsAreEarned(events: seq<Event>, s: string, status: Status)
    requires Play(events).core.Past(s).published == Some(status)
    ensures Play(events).core.Past(s).started == Some(status.provider)
    ensures match status.phase
            case Pending => false
            case Authenticated => status.session.Some? && Happened(events, s, Succeeds(status.session.value))
            case Rejected(reason) => status.session.None? && exists i :: Asks(Play(events), i, Reject(s, reason))
  {
    PlayEarned(events);
    assert StateEarned(events, s);
    hide Play, Happened;
  }

  /** Every error ever recorded for a sign-in is the refusal of its state, or what one of its own callbacks failed with. */
  lemma ErrorsAreOwn(events: seq<Event>, s: string, message: Message)
    requires Play(events).core.Past(s).failed == Some(message)
    ensures message == InvalidState || Happened(events, s, Fails(message))
  {
    PlayEarned(events);
    assert StateEarned(events, s);
    hide Play, Happened;
  }

  predicate Current(c: Core, s: string, verdict: Verdict) {
    match verdict
    case Returned(status) =>
      || (s in c.results.at && status == c.results.at[s])
      || (s in c.flows.at && status == Status(c.flows.at[s].provider, Pending, None))
      || (s in c.markers && status == Status(c.markers[s], Pending, None))
    case Raised(message) => s in c.errors.at && message == c.errors.at[s]
    case RaisedUnknown => s !in c.flows.at
    case _ => false
  }

  /** A poll answers with what is stored at its last step, and raises unknown only if no flow is stored then. */
  lemma AnswersAreCurrent(events: seq<Event>, i: int, choice: Choice, verdict: Verdict)
    requires var w := Play(events);
             i in w.threads && w.threads[i].call.op.Poll? && !w.threads[i].pc.next.Finished?
    requires Play(events + [Run(i, choice)]).threads[i].pc == At(Finished(verdict))
    ensures Current(Play(events).core, Play(events).threads[i].call.op.state, verdict)
  {
    var w := Play(events);
    PlayStep(events, Run(i, choice));
    PlayOk(events);
    assert ThreadOk(w.core, i, w.threads[i]);
    PollPlaces(w.core.lock, i, w.threads[i], Look(w.core, w.threads[i].call.state));
    PollAnswers(w.core, i, w.threads[i], choice, verdict);
    hide Play, Micro, LocalOk, WorldOk, Current, Look;
  }

  lemma PollPlaces(lock: Option<int>, i: int, t: Thread, g: Glance)
    requires LocalOk(lock, i, t, g) && t.call.op.Poll?
    ensures t.pc.next.Polling? || t.pc.next.Finished?
  {
  }

  lemma PollAnswers(c: Core, i: int, t: Thread, choice: Choice, verdict: Verdict)
    requires t.pc.next.Polling? && Micro(c, i, t, choice).1.pc == At(Finished(verdict))
    ensures Current(c, t.call.state, verdict)
  {
    hide StepEnter, StepWork, StepLeave, StepOther, Overdue, Oldest, Lapse, EvictResult;
  }
}
