/** What every interleaving of the sign-in protocol keeps, by rely and guarantee: one thread steps, the others stand. */
module SignInSafety {
  import opened Prelude
  import opened SignIn

  /** Everything the protocol holds about one state. */
  datatype Glance = Glance(
    flow: Option<Flow>, result: Option<Status>, error: Option<Message>, marker: Option<string>, h: History)

  function Look(c: Core, s: string): Glance {
    Glance(c.flows.Get(s), c.results.Get(s), c.errors.Get(s), if s in c.markers then Some(c.markers[s]) else None, c.Past(s))
  }

  /** The sign-in is over: it ran out of time, published, failed, or died on an exception nobody handles. */
  predicate Decided(h: History) {
    h.expired.Some? || h.published.Some? || h.failed.Some? || h.crashed
  }

  /** Something took a stored outcome away, or overtook it. */
  predicate Excused(h: History) {
    h.evicted || h.forgotten || h.crashed || h.rejected || h.unsaved
  }

  predicate Unpublished(h: History) { h.published.None? || Excused(h) }

  predicate Unfailed(h: History) { h.failed.None? || h.forgotten }

  predicate StateOk(g: Glance) {
    && (g.flow.Some? ==>
         (&& g.h.named && g.h.started == Some(g.flow.value.provider) && g.h.deadline == g.flow.value.expires
          && g.h.consumer.None? && g.h.expired.None? && g.h.failed.None? && !g.h.lost))
    && (g.h.started.Some? ==> g.h.named && (g.flow.Some? || g.marker.Some? || g.h.gap || Decided(g.h)))
    && (g.result.Some? ==> g.h.published == g.result)
    && (g.h.published.Some? ==> g.h.consumer.Some? && (g.result.Some? || g.h.evicted))
    && (g.error.Some? ==> g.h.failed == g.error)
    && (g.h.failed.Some? ==> g.h.named && (g.error.Some? || g.h.forgotten))
    && (g.h.forgotten ==> g.h.failed.Some?)
    && (g.marker.Some? ==> g.h.started == g.marker)
    && (g.h.consumer.None? ==> g.h.exchanges == 0 && !g.h.gap)
    && (g.h.consumer.Some? || g.h.expired.Some? ==> g.h.named)
    && g.h.exchanges <= 1
    && (g.h.gap ==> g.h.exposed)
    && (g.h.lost ==> g.h.named)
    && (g.h.expired.Some? ==> g.h.deadline <= g.h.expired.value)
    && (!Excused(g.h) ==> (g.h.published.None? || g.h.failed.None?) && (g.h.lost ==> g.h.published.None? && g.h.failed.None?))
  }

  /** A flow still in the dictionary has never been used. */
  predicate Untouched(g: Glance) {
    g.flow.Some? ==>
      (&& g.h.started == Some(g.flow.value.provider) && g.h.deadline == g.flow.value.expires
       && g.h.consumer.None? && g.h.expired.None? && g.h.failed.None? && !g.h.lost && g.h.published.None? && g.h.exchanges == 0)
  }

  lemma FlowUntouched(g: Glance)
    requires StateOk(g)
    ensures Untouched(g)
  {
  }

  /** History is only ever added to. */
  predicate Grows(h: History, h': History) {
    && (h.named ==> h'.named)
    && (h.started.Some? ==> h'.started == h.started && h'.deadline == h.deadline)
    && (h.consumer.Some? ==> h'.consumer == h.consumer)
    && (h.published.Some? ==> h'.published == h.published)
    && (h.failed.Some? ==> h'.failed == h.failed)
    && (h.expired.Some? ==> h'.expired.Some?)
    && (h.exposed ==> h'.exposed) && (h.lost ==> h'.lost) && (h.evicted ==> h'.evicted) && (h.forgotten ==> h'.forgotten)
    && (h.crashed ==> h'.crashed) && (h.rejected ==> h'.rejected) && (h.unsaved ==> h'.unsaved)
  }

  /** What thread `i` may rely on while others step. */
  predicate Rely(i: int, lock: Option<int>, g: Glance, lock': Option<int>, g': Glance) {
    && Grows(g.h, g'.h)
    && (g.h.named && g.flow.None? ==> g'.flow.None?)
    && (lock == Some(i) ==>
         (&& lock' == Some(i)
          && g'.marker == g.marker && g'.error == g.error && g'.h.failed == g.h.failed && g'.h.lost == g.h.lost
          && (g'.h.published == g.h.published || g'.h.rejected)))
    && (g.h.consumer == Some(i) ==>
         g'.h.published == g.h.published && g'.h.exchanges == g.h.exchanges && g'.h.gap == g.h.gap)
  }

  // ----- what a thread knows at each program point -----

  predicate CompleteVerdict(v: Verdict, h: History) {
    match v
    case Returned(status) => h.published == Some(status)
    case Raised(message) => h.failed == Some(message) || (h.lost && message == InvalidState)
    case Crashed => h.crashed
    case RaisedUnknown => false
    case Done => false
  }

  predicate Excuse(t: Thread, h: History) {
    t.blind || h.expired.Some? || h.crashed || h.forgotten
  }

  predicate PollVerdict(t: Thread, v: Verdict, h: History) {
    match v
    case Returned(status) => h.published == Some(status) || (h.started.Some? && status == Status(h.started.value, Pending, None))
    case Raised(message) => h.failed == Some(message)
    case RaisedUnknown => Excuse(t, h) || h.evicted
    case Crashed => false
    case Done => false
  }

  predicate Marked(g: Glance) {
    g.marker.Some? && g.h.failed.None? && !g.h.lost
  }

  predicate IsComplete(op: Op) { op.Complete? || op.CompleteMicrosoft? }

  predicate PollOk(t: Thread, g: Glance, place: PollPlace) {
    && t.call.op.Poll?
    && (t.call.late && !place.ReadResult? ==> g.h.evicted)
    && match place
       case ReadResult => true
       case ReadFlow => true
       case ReadMarker => g.flow.None?
       case ReadError => t.call.known ==> t.blind || Decided(g.h)
       case ReadResultAgain => t.call.known ==> Excuse(t, g.h) || g.h.published.Some?
       case ReadFlowAgain => t.call.known ==> Excuse(t, g.h) || g.h.evicted
  }

  predicate EnterOk(lock: Option<int>, i: int, t: Thread, g: Glance, place: EnterPlace) {
    && IsComplete(t.call.op)
    && (!place.Peek? && !place.Lock? ==> lock == Some(i))
    && (!place.Claim? ==> !t.owns)
    && match place
       case Peek => true
       case Lock => true
       case CheckResult => true
       case CheckError => Unpublished(g.h)
       case FindFlow => Unpublished(g.h) && Unfailed(g.h)
       case SetMarker => Unpublished(g.h) && g.h.failed.None? && !g.h.lost && g.h.started == Some(t.provider)
       case Claim => Unpublished(g.h) && (if t.owns then Marked(g) else Unfailed(g.h) && (t.microsoft || g.flow.None?))
  }

  /** The flow is this thread's own and nothing has come of it yet. */
  predicate WorkOk(lock: Option<int>, i: int, t: Thread, g: Glance, place: WorkPlace) {
    && IsComplete(t.call.op) && lock == Some(i) && g.flow.None?
    && g.h.consumer == Some(i) && g.h.failed.None? && !g.h.lost && g.h.started == Some(t.provider)
    && (place.GapMarker? || (t.owns && g.marker.Some?))
    && match place
       case GapMarker => g.h.exchanges == 0 && g.h.published.None?
       case Exchange => g.h.exchanges == 0 && g.h.published.None?
       case Publish(_) => g.h.published.None?
       case Save(status) => if t.microsoft then g.h.published.None? else g.h.published == Some(status)
  }

  predicate LeaveOk(lock: Option<int>, i: int, t: Thread, g: Glance, place: LeavePlace) {
    && IsComplete(t.call.op) && lock == Some(i)
    && match place
       case Fail(message) =>
         && g.flow.None? && Unpublished(g.h)
         && (if t.owns then Marked(g) else message == InvalidState && Unfailed(g.h))
       case TrimErrors(message) => g.h.failed == Some(message)
       case Unmark(verdict) => Decided(g.h) && CompleteVerdict(verdict, g.h)
       case Release(verdict) => CompleteVerdict(verdict, g.h)
  }

  predicate OtherOk(i: int, t: Thread, g: Glance, place: OtherPlace) {
    match place
    case ClaimRejected(_) => t.call.op.Reject?
    case PublishRejection(_) => t.call.op.Reject? && g.flow.None? && g.h.consumer == Some(i) && g.h.published.None? && g.h.rejected
    case Issue => t.call.op.Start?
    case Snapshot(_) => t.call.op.Logout?
    case Evict(_) => t.call.op.Logout?
  }

  predicate FinishedOk(t: Thread, g: Glance, verdict: Verdict) {
    && (t.call.op.Poll? && t.call.known ==> PollVerdict(t, verdict, g.h))
    && (t.call.op.Poll? && t.call.late ==> g.h.evicted || (verdict.Returned? && g.h.published == Some(verdict.status)))
    && (IsComplete(t.call.op) ==> CompleteVerdict(verdict, g.h))
  }

  predicate PlaceOk(lock: Option<int>, i: int, t: Thread, g: Glance, place: Place) {
    match place
    case Polling(p) => PollOk(t, g, p)
    case Entering(p) => EnterOk(lock, i, t, g, p)
    case Working(p) => WorkOk(lock, i, t, g, p)
    case Leaving(p) => LeaveOk(lock, i, t, g, p)
    case Other(p) => OtherOk(i, t, g, p)
    case Finished(v) => FinishedOk(t, g, v)
  }

  predicate LocalOk(lock: Option<int>, i: int, t: Thread, g: Glance) {
    && g.h.named
    && (t.call.known ==> g.h.started.Some?)
    && (t.call.late ==> g.h.published.Some?)
    && (t.blind ==> g.h.exposed)
    && PlaceOk(lock, i, t, g, t.pc.next)
  }

  /** Every state a sweep is about to pop had its deadline pass at the sweep's clock. */
  ghost predicate SweepOk(c: Core, t: Thread) {
    t.pc.Sweeping? && t.pc.sweep.Expire? ==>
      forall s :: s in t.pc.sweep.overdue ==> c.Past(s).started.Some? && c.Past(s).deadline <= t.clock
  }

  // ----- the other threads -----

  lemma PollStands(i: int, t: Thread, place: PollPlace, lock: Option<int>, g: Glance, lock': Option<int>, g': Glance)
    requires g.h.named && (t.call.known ==> g.h.started.Some?) && (t.call.late ==> g.h.published.Some?) && PollOk(t, g, place) && Rely(i, lock, g, lock', g')
    ensures PollOk(t, g', place)
  {
  }

  lemma EnterStands(i: int, t: Thread, place: EnterPlace, lock: Option<int>, g: Glance, lock': Option<int>, g': Glance)
    requires g.h.named && (t.call.known ==> g.h.started.Some?) && (t.call.late ==> g.h.published.Some?) && EnterOk(lock, i, t, g, place) && Rely(i, lock, g, lock', g')
    ensures EnterOk(lock', i, t, g', place)
  {
  }

  lemma WorkStands(i: int, t: Thread, place: WorkPlace, lock: Option<int>, g: Glance, lock': Option<int>, g': Glance)
    requires g.h.named && (t.call.known ==> g.h.started.Some?) && (t.call.late ==> g.h.published.Some?) && WorkOk(lock, i, t, g, place) && Rely(i, lock, g, lock', g')
    ensures WorkOk(lock', i, t, g', place)
  {
  }

  lemma LeaveStands(i: int, t: Thread, place: LeavePlace, lock: Option<int>, g: Glance, lock': Option<int>, g': Glance)
    requires g.h.named && (t.call.known ==> g.h.started.Some?) && (t.call.late ==> g.h.published.Some?) && LeaveOk(lock, i, t, g, place) && Rely(i, lock, g, lock', g')
    ensures LeaveOk(lock', i, t, g', place)
  {
  }

  lemma Stands(i: int, t: Thread, lock: Option<int>, g: Glance, lock': Option<int>, g': Glance)
    requires LocalOk(lock, i, t, g) && Rely(i, lock, g, lock', g')
    ensures LocalOk(lock', i, t, g')
  {
    hide PollOk, EnterOk, WorkOk, LeaveOk;
    match t.pc.next
    case Polling(p) => PollStands(i, t, p, lock, g, lock', g');
    case Entering(p) => EnterStands(i, t, p, lock, g, lock', g');
    case Working(p) => WorkStands(i, t, p, lock, g, lock', g');
    case Leaving(p) => LeaveStands(i, t, p, lock, g, lock', g');
    case _ =>
  }

  // ----- the stepping thread, on its own state -----

  /** The thread's next place, once its own step is done. */
  predicate Lands(c: Core, i: int, t: Thread, r: (Core, Thread)) {
    r.1.call == t.call && LocalOk(r.0.lock, i, r.1, Look(r.0, t.call.state))
  }

  lemma PollLands(c: Core, i: int, t: Thread, place: PollPlace)
    requires t.pc == At(Polling(place)) && StateOk(Look(c, t.call.state)) && LocalOk(c.lock, i, t, Look(c, t.call.state))
    ensures Lands(c, i, t, (c, StepPoll(c, t, place)))
  {
    hide EnterOk, WorkOk, LeaveOk, OtherOk, StateOf;
  }

  lemma EnterLands(c: Core, i: int, t: Thread, place: EnterPlace)
    requires t.pc == At(Entering(place)) && StateOk(Look(c, t.call.state)) && LocalOk(c.lock, i, t, Look(c, t.call.state)) && !place.Claim?
    ensures Lands(c, i, t, StepEnter(c, i, t, place))
  {
    hide PollOk, WorkOk, OtherOk, FinishedOk;
  }

  /** What a claim leaves of its state. */
  function Claimed(g: Glance, i: int, t: Thread): Glance {
    if g.flow.None? then g
    else
      var h := g.h.(consumer := Some(i));
      g.(flow := None,
         h := if g.flow.value.expires <= t.clock then h.(expired := Some(t.clock))
              else if t.microsoft then h.(gap := true, exposed := true)
              else h)
  }

  function Claimant(g: Glance, t: Thread): Thread {
    if g.flow.None? || g.flow.value.expires <= t.clock then t.To(Leaving(Fail(InvalidState)))
    else t.To(Working(if t.microsoft then GapMarker else Exchange)).(provider := g.flow.value.provider)
  }

  lemma ClaimLook(c: Core, i: int, t: Thread)
    requires t.pc.At?
    ensures Look(StepClaim(c, i, t).0, t.call.state) == Claimed(Look(c, t.call.state), i, t)
    ensures StepClaim(c, i, t).0.lock == c.lock
    ensures StepClaim(c, i, t).1 == Claimant(Look(c, t.call.state), t)
  {
  }

  lemma ClaimantOk(lock: Option<int>, i: int, t: Thread, g: Glance)
    requires t.pc == At(Entering(Claim)) && Untouched(g) && LocalOk(lock, i, t, g)
    ensures LocalOk(lock, i, Claimant(g, t), Claimed(g, i, t))
  {
    hide PollOk, OtherOk, FinishedOk;
  }

  lemma ClaimLands(c: Core, i: int, t: Thread)
    requires t.pc == At(Entering(Claim)) && Untouched(Look(c, t.call.state)) && LocalOk(c.lock, i, t, Look(c, t.call.state))
    ensures Lands(c, i, t, StepClaim(c, i, t))
  {
    ClaimLook(c, i, t);
    ClaimantOk(c.lock, i, t, Look(c, t.call.state));
    hide LocalOk, Look, StepClaim;
  }

  lemma WorkLands(c: Core, i: int, t: Thread, place: WorkPlace, outcome: Outcome)
    requires t.pc == At(Working(place)) && StateOk(Look(c, t.call.state)) && LocalOk(c.lock, i, t, Look(c, t.call.state))
    ensures Lands(c, i, t, StepWork(c, t, place, outcome))
  {
    hide PollOk, EnterOk, OtherOk, FinishedOk, StateOk;
  }

  lemma LeaveLands(c: Core, i: int, t: Thread, place: LeavePlace)
    requires t.pc == At(Leaving(place)) && LocalOk(c.lock, i, t, Look(c, t.call.state))
    ensures Lands(c, i, t, StepLeave(c, t, place))
  {
    hide PollOk, EnterOk, WorkOk, OtherOk, PollVerdict;
    if place.Fail? {
      FailLands(c, i, t, place);
      hide *;
    }
  }

  lemma FailLands(c: Core, i: int, t: Thread, place: LeavePlace)
    requires t.pc == At(Leaving(place)) && LocalOk(c.lock, i, t, Look(c, t.call.state)) && place.Fail?
    ensures Lands(c, i, t, StepLeave(c, t, place))
  {
    hide PollOk, EnterOk, WorkOk, OtherOk, FinishedOk, Look, StepLeave;
    FailLook(c, t, place.message);
  }

  lemma FailLook(c: Core, t: Thread, message: Message)
    requires t.pc.At?
    ensures var g, r := Look(c, t.call.state), StepLeave(c, t, Fail(message));
            && r.0.lock == c.lock
            && Look(r.0, t.call.state) == (if t.owns then g.(error := Some(message), h := g.h.(failed := Some(message)))
                                      else g.(h := g.h.(lost := true)))
            && r.1 == t.To(Leaving(if t.owns then TrimErrors(message) else Release(Raised(message))))
  {
  }

  lemma RejectLands(c: Core, i: int, t: Thread, place: OtherPlace, choice: Choice)
    requires t.pc == At(Other(place)) && Untouched(Look(c, t.call.state)) && LocalOk(c.lock, i, t, Look(c, t.call.state))
    requires place.ClaimRejected? || place.PublishRejection?
    ensures Lands(c, i, t, StepOther(c, i, t, place, choice))
  {
    hide PollOk, EnterOk, WorkOk, LeaveOk, PollVerdict, CompleteVerdict;
  }

  lemma OtherLands(c: Core, i: int, t: Thread, place: OtherPlace, choice: Choice)
    requires t.pc == At(Other(place)) && LocalOk(c.lock, i, t, Look(c, t.call.state))
    requires place.Issue? || place.Snapshot? || place.Evict?
    ensures Lands(c, i, t, StepOther(c, i, t, place, choice))
  {
    hide PollOk, EnterOk, WorkOk, LeaveOk, PollVerdict, CompleteVerdict;
  }

  // ----- what a step does to the state it works on -----

  lemma EnterSound(c: Core, i: int, t: Thread, place: EnterPlace)
    requires t.pc == At(Entering(place)) && StateOk(Look(c, t.call.state)) && LocalOk(c.lock, i, t, Look(c, t.call.state)) && !place.Claim?
    ensures StateOk(Look(StepEnter(c, i, t, place).0, t.call.state))
  {
    hide PollOk, WorkOk, LeaveOk, OtherOk, FinishedOk;
  }

  lemma ClaimSound(c: Core, i: int, t: Thread)
    requires t.pc == At(Entering(Claim)) && StateOk(Look(c, t.call.state)) && LocalOk(c.lock, i, t, Look(c, t.call.state))
    ensures StateOk(Look(StepClaim(c, i, t).0, t.call.state))
  {
    hide PollOk, WorkOk, LeaveOk, OtherOk, FinishedOk;
  }

  lemma WorkSound(c: Core, i: int, t: Thread, place: WorkPlace, outcome: Outcome)
    requires t.pc == At(Working(place)) && StateOk(Look(c, t.call.state)) && LocalOk(c.lock, i, t, Look(c, t.call.state))
    ensures StateOk(Look(StepWork(c, t, place, outcome).0, t.call.state))
  {
    hide PollOk, EnterOk, LeaveOk, OtherOk, FinishedOk;
  }

  lemma LeaveSound(c: Core, i: int, t: Thread, place: LeavePlace)
    requires t.pc == At(Leaving(place)) && StateOk(Look(c, t.call.state)) && LocalOk(c.lock, i, t, Look(c, t.call.state))
    ensures StateOk(Look(StepLeave(c, t, place).0, t.call.state))
  {
    hide PollOk, EnterOk, WorkOk, OtherOk, FinishedOk, CompleteVerdict;
  }

  lemma RejectSound(c: Core, i: int, t: Thread, place: OtherPlace, choice: Choice)
    requires t.pc == At(Other(place)) && StateOk(Look(c, t.call.state)) && LocalOk(c.lock, i, t, Look(c, t.call.state))
    requires place.ClaimRejected? || place.PublishRejection?
    ensures StateOk(Look(StepOther(c, i, t, place, choice).0, t.call.state))
  {
    hide PollOk, EnterOk, WorkOk, LeaveOk, FinishedOk;
  }

  lemma ClaimedRelied(lock: Option<int>, i: int, t: Thread, g: Glance, j: int)
    requires lock == Some(i) && g.h.named && Untouched(g) && i != j
    ensures Rely(j, lock, g, lock, Claimed(g, i, t))
  {
  }

  lemma ClaimRelied(c: Core, i: int, t: Thread, j: int)
    requires t.pc == At(Entering(Claim)) && Untouched(Look(c, t.call.state)) && LocalOk(c.lock, i, t, Look(c, t.call.state)) && i != j
    ensures Rely(j, c.lock, Look(c, t.call.state), StepClaim(c, i, t).0.lock, Look(StepClaim(c, i, t).0, t.call.state))
  {
    hide PollOk, WorkOk, LeaveOk, OtherOk, FinishedOk, Rely, Untouched, Look, StepClaim;
    ClaimLook(c, i, t);
    ClaimedRelied(c.lock, i, t, Look(c, t.call.state), j);
  }

  lemma EnterRelied(c: Core, i: int, t: Thread, place: EnterPlace, j: int)
    requires t.pc == At(Entering(place)) && StateOk(Look(c, t.call.state)) && LocalOk(c.lock, i, t, Look(c, t.call.state)) && !place.Claim? && i != j
    ensures Rely(j, c.lock, Look(c, t.call.state), StepEnter(c, i, t, place).0.lock, Look(StepEnter(c, i, t, place).0, t.call.state))
  {
    hide PollOk, WorkOk, LeaveOk, OtherOk, FinishedOk, StateOk;
  }

  lemma WorkRelied(c: Core, i: int, t: Thread, place: WorkPlace, outcome: Outcome, j: int)
    requires t.pc == At(Working(place)) && LocalOk(c.lock, i, t, Look(c, t.call.state)) && i != j
    ensures Rely(j, c.lock, Look(c, t.call.state), c.lock, Look(StepWork(c, t, place, outcome).0, t.call.state))
    ensures StepWork(c, t, place, outcome).0.lock == c.lock
  {
    hide PollOk, EnterOk, LeaveOk, OtherOk, FinishedOk;
  }

  lemma LeaveRelied(c: Core, i: int, t: Thread, place: LeavePlace, j: int)
    requires t.pc == At(Leaving(place)) && LocalOk(c.lock, i, t, Look(c, t.call.state)) && i != j
    ensures Rely(j, c.lock, Look(c, t.call.state), StepLeave(c, t, place).0.lock, Look(StepLeave(c, t, place).0, t.call.state))
  {
    hide PollOk, EnterOk, WorkOk, OtherOk, FinishedOk, CompleteVerdict;
  }

  lemma RejectRelied(c: Core, i: int, t: Thread, place: OtherPlace, choice: Choice, j: int)
    requires t.pc == At(Other(place)) && Untouched(Look(c, t.call.state)) && LocalOk(c.lock, i, t, Look(c, t.call.state)) && i != j
    requires place.ClaimRejected? || place.PublishRejection?
    ensures Rely(j, c.lock, Look(c, t.call.state), c.lock, Look(StepOther(c, i, t, place, choice).0, t.call.state))
    ensures StepOther(c, i, t, place, choice).0.lock == c.lock
  {
    hide PollOk, EnterOk, WorkOk, LeaveOk, FinishedOk;
  }

  // ----- what a step does to other states -----

  lemma LapseSpot(c: Core, x: string, clock: int, s: string, j: int)
    requires StateOk(Look(c, s)) && (s == x ==> c.Past(x).deadline <= clock)
    ensures var c' := Lapse(c, x, clock); StateOk(Look(c', s)) && Rely(j, c.lock, Look(c, s), c'.lock, Look(c', s))
  {
  }

  lemma EvictLook(c: Core, x: string, s: string)
    ensures var g, c' := Look(c, s), EvictResult(c, x);
            && c'.lock == c.lock
            && Look(c', s) == if s == x && g.result.Some? then g.(result := None, h := g.h.(evicted := true)) else g
  {
  }

  lemma EvictSpot(c: Core, x: string, s: string, j: int)
    requires StateOk(Look(c, s))
    ensures var c' := EvictResult(c, x); StateOk(Look(c', s)) && Rely(j, c.lock, Look(c, s), c'.lock, Look(c', s))
  {
    EvictLook(c, x, s);
    hide Look, EvictResult;
  }

  lemma IssueLook(c: Core, i: int, t: Thread, choice: Choice, s: string)
    requires t.pc.At?
    ensures var g, c', flow := Look(c, s), StepOther(c, i, t, Issue, choice).0, Flow(choice.provider, t.clock + FLOW_LIFETIME);
            && c'.lock == c.lock
            && Look(c', s) == if s != choice.newState || g.h.named then g
                              else g.(flow := Some(flow), h := g.h.(named := true, started := Some(flow.provider), deadline := flow.expires))
  {
  }

  lemma IssueSpot(c: Core, i: int, t: Thread, choice: Choice, s: string, j: int)
    requires t.pc.At? && StateOk(Look(c, s))
    ensures var c' := StepOther(c, i, t, Issue, choice).0;
            StateOk(Look(c', s)) && Rely(j, c.lock, Look(c, s), c'.lock, Look(c', s))
  {
    IssueLook(c, i, t, choice, s);
    hide Look, StepOther;
  }

  lemma ForgetLook(c: Core, t: Thread, message: Message, s: string)
    requires t.pc.At?
    requires s != t.call.state
    ensures var g, c' := Look(c, s), StepLeave(c, t, TrimErrors(message)).0;
            && c'.lock == c.lock
            && (Look(c', s) == g || (g.error.Some? && Look(c', s) == g.(error := None, h := g.h.(forgotten := true))))
  {
  }

  lemma ForgetSpot(c: Core, t: Thread, message: Message, s: string, j: int)
    requires t.pc.At?
    requires StateOk(Look(c, s)) && c.lock != Some(j) && s != t.call.state
    ensures var c' := StepLeave(c, t, TrimErrors(message)).0;
            StateOk(Look(c', s)) && Rely(j, c.lock, Look(c, s), c'.lock, Look(c', s))
  {
    ForgetLook(c, t, message, s);
    hide Look, StepLeave;
  }

  /** A step elsewhere shows at `s` only through the lock. */
  lemma Unseen(c: Core, c': Core, s: string, j: int)
    requires Look(c', s) == Look(c, s) && (c.lock == Some(j) ==> c'.lock == c.lock)
    ensures Rely(j, c.lock, Look(c, s), c'.lock, Look(c', s))
  {
  }

  lemma EnterElsewhere(c: Core, i: int, t: Thread, place: EnterPlace, s: string)
    requires t.pc.At?
    requires s != t.call.state
    ensures Look(StepEnter(c, i, t, place).0, s) == Look(c, s)
  {
    ClaimElsewhere(c, i, t, s);
    hide StepClaim;
  }

  lemma ClaimElsewhere(c: Core, i: int, t: Thread, s: string)
    requires t.pc.At? && s != t.call.state
    ensures Look(StepClaim(c, i, t).0, s) == Look(c, s)
  {
  }

  lemma WorkElsewhere(c: Core, t: Thread, place: WorkPlace, outcome: Outcome, s: string)
    requires t.pc.At?
    requires s != t.call.state
    ensures Look(StepWork(c, t, place, outcome).0, s) == Look(c, s)
  {
  }

  lemma LeaveElsewhere(c: Core, t: Thread, place: LeavePlace, s: string)
    requires t.pc.At?
    requires s != t.call.state && !place.TrimErrors?
    ensures Look(StepLeave(c, t, place).0, s) == Look(c, s)
  {
  }

  lemma RejectElsewhere(c: Core, i: int, t: Thread, place: OtherPlace, choice: Choice, s: string)
    requires t.pc.At?
    requires s != t.call.state && (place.ClaimRejected? || place.PublishRejection?)
    ensures Look(StepOther(c, i, t, place, choice).0, s) == Look(c, s)
  {
  }

  lemma {:induction false} OverdueAreDue(order: seq<string>, flows: map<string, Flow>, clock: int)
    ensures forall s :: s in Overdue(order, flows, clock) ==> s in flows && flows[s].expires <= clock
  {
    if order != [] {
      OverdueAreDue(order[1..], flows, clock);
    }
  }

  // ----- one step, whoever takes it -----

  ghost predicate AllOk(c: Core) {
    forall s :: StateOk(Look(c, s))
  }

  /** No step misleads another thread, nor unsettles any state. */
  lemma StepKeeps(c: Core, i: int, t: Thread, choice: Choice, s: string, j: int)
    requires AllOk(c) && LocalOk(c.lock, i, t, Look(c, t.call.state)) && SweepOk(c, t) && i != j
    ensures var c' := Micro(c, i, t, choice).0;
            StateOk(Look(c', s)) && Rely(j, c.lock, Look(c, s), c'.lock, Look(c', s))
  {
    hide Look, StateOk, LocalOk, Rely, StepPoll, StepEnter, StepWork, StepLeave, StepOther, Lapse, EvictResult;
    assert StateOk(Look(c, s)) && StateOk(Look(c, t.call.state));
    FlowUntouched(Look(c, t.call.state));
    if t.pc.Sweeping? {
      SweepKeeps(c, t, choice.clock, s, j);
    } else {
      match t.pc.next
      case Polling(place) => Unseen(c, c, s, j);
      case Entering(place) => EnterKeeps(c, i, t, place, s, j);
      case Working(place) =>
        WorkRelied(c, i, t, place, choice.outcome, j);
        WorkSound(c, i, t, place, choice.outcome);
        if s != t.call.state {
          WorkElsewhere(c, t, place, choice.outcome, s);
          Unseen(c, StepWork(c, t, place, choice.outcome).0, s, j);
        }
      case Leaving(place) => LeaveKeeps(c, i, t, place, s, j);
      case Other(place) => OtherKeeps(c, i, t, place, choice, s, j);
      case Finished(_) => Unseen(c, c, s, j);
    }
  }

  lemma SweepKeeps(c: Core, t: Thread, clock: int, s: string, j: int)
    requires StateOk(Look(c, s)) && SweepOk(c, t) && t.pc.Sweeping?
    ensures var c' := StepSweep(c, t, clock).0;
            StateOk(Look(c', s)) && Rely(j, c.lock, Look(c, s), c'.lock, Look(c', s))
  {
    hide Look, StateOk, Rely, Lapse, EvictResult;
    Unseen(c, c, s, j);
    match t.pc.sweep {
      case Begin =>
      case Expire(overdue) =>
        if overdue != [] {
          assert overdue[0] in overdue;
          LapseSpot(c, overdue[0], t.clock, s, j);
        }
      case Trim(oldest) =>
        if oldest != [] {
          EvictSpot(c, oldest[0], s, j);
        }
    }
  }

  lemma EnterKeeps(c: Core, i: int, t: Thread, place: EnterPlace, s: string, j: int)
    requires StateOk(Look(c, s)) && StateOk(Look(c, t.call.state)) && Untouched(Look(c, t.call.state)) && i != j
    requires t.pc == At(Entering(place)) && LocalOk(c.lock, i, t, Look(c, t.call.state))
    ensures var c' := StepEnter(c, i, t, place).0;
            StateOk(Look(c', s)) && Rely(j, c.lock, Look(c, s), c'.lock, Look(c', s))
  {
    hide Look, StateOk, Rely, LocalOk, Untouched, StepClaim;
    var c' := StepEnter(c, i, t, place).0;
    if s != t.call.state {
      EnterElsewhere(c, i, t, place, s);
      assert c.lock == Some(j) ==> c'.lock == c.lock by { ClaimLook(c, i, t); }
      Unseen(c, c', s, j);
    } else if place.Claim? {
      ClaimRelied(c, i, t, j);
      ClaimSound(c, i, t);
    } else {
      EnterRelied(c, i, t, place, j);
      EnterSound(c, i, t, place);
    }
  }

  lemma LeaveKeeps(c: Core, i: int, t: Thread, place: LeavePlace, s: string, j: int)
    requires StateOk(Look(c, s)) && StateOk(Look(c, t.call.state)) && i != j
    requires t.pc == At(Leaving(place)) && LocalOk(c.lock, i, t, Look(c, t.call.state))
    ensures var c' := StepLeave(c, t, place).0;
            StateOk(Look(c', s)) && Rely(j, c.lock, Look(c, s), c'.lock, Look(c', s))
  {
    hide Look, StateOk, Rely, LeaveOk;
    assert c.lock == Some(i) by { LeaverHolds(c, i, t, place); }
    var c' := StepLeave(c, t, place).0;
    if s == t.call.state {
      LeaveRelied(c, i, t, place, j);
      LeaveSound(c, i, t, place);
    } else if place.TrimErrors? {
      ForgetSpot(c, t, place.message, s, j);
    } else {
      LeaveElsewhere(c, t, place, s);
      Unseen(c, c', s, j);
    }
  }

  lemma LeaverHolds(c: Core, i: int, t: Thread, place: LeavePlace)
    requires t.pc == At(Leaving(place)) && LocalOk(c.lock, i, t, Look(c, t.call.state))
    ensures c.lock == Some(i)
  {
  }

  lemma OtherKeeps(c: Core, i: int, t: Thread, place: OtherPlace, choice: Choice, s: string, j: int)
    requires StateOk(Look(c, s)) && StateOk(Look(c, t.call.state)) && Untouched(Look(c, t.call.state)) && i != j
    requires t.pc == At(Other(place)) && LocalOk(c.lock, i, t, Look(c, t.call.state))
    ensures var c' := StepOther(c, i, t, place, choice).0;
            StateOk(Look(c', s)) && Rely(j, c.lock, Look(c, s), c'.lock, Look(c', s))
  {
    hide Look, StateOk, Rely, LocalOk, Untouched, EvictResult;
    var c' := StepOther(c, i, t, place, choice).0;
    Unseen(c, c, s, j);
    match place {
      case Issue => IssueSpot(c, i, t, choice, s, j);
      case Snapshot(_) =>
      case Evict(states) =>
        if states != [] {
          EvictSpot(c, states[0], s, j);
        }
      case _ =>
        if s == t.call.state {
          RejectRelied(c, i, t, place, choice, j);
          RejectSound(c, i, t, place, choice);
        } else {
          RejectElsewhere(c, i, t, place, choice, s);
          assert c'.lock == c.lock;
          Unseen(c, c', s, j);
        }
    }
  }
}
