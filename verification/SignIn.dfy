/** The sign-in completion protocol: threads that share four dictionaries, one dictionary operation a step. */
module SignIn {
  import opened Prelude

  const FLOW_LIFETIME := 300
  const KEPT := 100
  const MICROSOFT := "microsoft"

  /** An insertion-ordered dictionary. */
  datatype Dict<V> = Dict(order: seq<string>, at: map<string, V>) {
    function Get(k: string): Option<V> { if k in at then Some(at[k]) else None }

    function Set(k: string, v: V): Dict<V> { Dict(if k in at then order else order + [k], at[k := v]) }

    function Pop(k: string): Dict<V> { Dict(Without(order, k), at - {k}) }
  }

  function Without(order: seq<string>, k: string): seq<string> {
    if order == [] then [] else (if order[0] == k then [] else [order[0]]) + Without(order[1..], k)
  }

  datatype Flow = Flow(provider: string, expires: int)

  datatype Phase = Pending | Authenticated | Rejected(reason: string)

  /** `DesktopAuthStatus`. */
  datatype Status = Status(provider: string, phase: Phase, session: Option<string>)

  /** What has happened to one state so far; no thread ever reads it. */
  datatype History = History(
    named: bool, started: Option<string>, deadline: int, consumer: Option<int>, exchanges: nat,
    gap: bool, exposed: bool, published: Option<Status>, failed: Option<Message>, lost: bool,
    expired: Option<int>, evicted: bool, forgotten: bool, crashed: bool, rejected: bool, unsaved: bool)

  const BLANK := History(false, None, 0, None, 0, false, false, None, None, false, None, false, false, false, false, false)

  /** `_flows`, `_results`, `_completion_errors`, `_completing_states` and `_completion_lock`. */
  datatype Core = Core(
    flows: Dict<Flow>, results: Dict<Status>, errors: Dict<Message>, markers: map<string, string>,
    lock: Option<int>, past: map<string, History>)
  {
    function Past(s: string): History { if s in past then past[s] else BLANK }

    function Note(s: string, h: History): Core { this.(past := past[s := h]) }
  }

  datatype Op =
    | Poll(state: string) | Complete(state: string) | CompleteMicrosoft(state: string)
    | Reject(state: string, reason: string) | Start | Logout(session: string)

  /** The text of a `DesktopIdentityError`: the refusal of a consumed or unknown state, or whatever else went wrong. */
  datatype Message = InvalidState | Failure(text: string)

  datatype Verdict = Returned(status: Status) | Raised(message: Message) | RaisedUnknown | Crashed | Done

  datatype PollPlace = ReadResult | ReadFlow | ReadMarker | ReadError | ReadResultAgain | ReadFlowAgain

  datatype EnterPlace = Peek | Lock | CheckResult | CheckError | FindFlow | SetMarker | Claim

  datatype WorkPlace = GapMarker | Exchange | Publish(status: Status) | Save(status: Status)

  datatype LeavePlace = Fail(message: Message) | TrimErrors(message: Message) | Unmark(verdict: Verdict) | Release(verdict: Verdict)

  datatype OtherPlace =
    | ClaimRejected(reason: string) | PublishRejection(reason: string) | Issue | Snapshot(session: string) | Evict(states: seq<string>)

  /** What a call does next, `_purge` apart. */
  datatype Place =
    | Polling(poll: PollPlace) | Entering(enter: EnterPlace) | Working(work: WorkPlace) | Leaving(leave: LeavePlace)
    | Other(other: OtherPlace) | Finished(verdict: Verdict)

  datatype Sweep = Begin | Expire(overdue: seq<string>) | Trim(oldest: seq<string>)

  datatype Pc = Sweeping(sweep: Sweep, next: Place) | At(next: Place)

  /** A call, and whether its state had been started, and its result published, before it began; no thread reads these. */
  datatype Call = Call(op: Op, state: string, known: bool, late: bool)

  /** A running call: its local variables and where it stands. `blind` is history too. */
  datatype Thread = Thread(
    call: Call, clock: int, microsoft: bool, owns: bool, provider: string, blind: bool, pc: Pc)
  {
    function To(place: Place): Thread { this.(pc := At(place)) }

    function PurgeThen(place: Place): Thread { this.(pc := Sweeping(Begin, place)) }

    /** The same call, later on, and not in the middle of a sweep. */
    predicate Continues(t: Thread) {
      call == t.call && (pc.Sweeping? ==> pc.sweep.Begin?)
    }
  }

  datatype Outcome = Succeeds(session: string) | Fails(message: Message) | Crashes

  /** What the outside world decides at a step: the time, the fresh state, how the network and the store behave. */
  datatype Choice = Choice(clock: int, newState: string, provider: string, outcome: Outcome)

  // ----- purge -----

  function Overdue(order: seq<string>, flows: map<string, Flow>, clock: int): seq<string> {
    if order == [] then []
    else (if order[0] in flows && flows[order[0]].expires <= clock then [order[0]] else []) + Overdue(order[1..], flows, clock)
  }

  function Oldest(order: seq<string>): seq<string> {
    if |order| > KEPT then order[..|order| - KEPT] else []
  }

  function Lapse(c: Core, s: string, clock: int): Core {
    if s in c.flows.at then c.(flows := c.flows.Pop(s)).Note(s, c.Past(s).(expired := Some(clock))) else c
  }

  function EvictResult(c: Core, s: string): Core {
    if s in c.results.at then c.(results := c.results.Pop(s)).Note(s, c.Past(s).(evicted := true)) else c
  }

  function StepSweep(c: Core, t: Thread, clock: int): (Core, Thread)
    requires t.pc.Sweeping?
  {
    match t.pc.sweep
    case Begin => (c, t.(clock := clock, pc := Sweeping(Expire(Overdue(c.flows.order, c.flows.at, clock)), t.pc.next)))
    case Expire(overdue) =>
      if overdue == [] then (c, t.(pc := Sweeping(Trim(Oldest(c.results.order)), t.pc.next)))
      else (Lapse(c, overdue[0], t.clock), t.(pc := Sweeping(Expire(overdue[1..]), t.pc.next)))
    case Trim(oldest) =>
      if oldest == [] then (c, t.To(t.pc.next))
      else (EvictResult(c, oldest[0]), t.(pc := Sweeping(Trim(oldest[1..]), t.pc.next)))
  }

  function Forget(c: Core, s: string): Core {
    if s in c.errors.at then c.(errors := c.errors.Pop(s)).Note(s, c.Past(s).(forgotten := true)) else c
  }

  // ----- status -----

  function PollResultOr(c: Core, t: Thread, place: PollPlace): (r: Thread)
    requires t.pc.At?
    ensures r.Continues(t)
  {
    if t.call.state in c.results.at then t.To(Finished(Returned(c.results.at[t.call.state]))) else t.To(Polling(place))
  }

  function PollFlowOr(c: Core, t: Thread, place: Place): (r: Thread)
    requires t.pc.At?
    ensures r.Continues(t)
  {
    if t.call.state in c.flows.at then t.To(Finished(Returned(Status(c.flows.at[t.call.state].provider, Pending, None)))) else t.To(place)
  }

  function StepPoll(c: Core, t: Thread, place: PollPlace): (r: Thread)
    requires t.pc.At?
    ensures r.Continues(t)
  {
    match place
    case ReadResult => PollResultOr(c, t, ReadFlow)
    case ReadFlow => PollFlowOr(c, t, Polling(ReadMarker))
    case ReadMarker =>
      if t.call.state in c.markers then t.To(Finished(Returned(Status(c.markers[t.call.state], Pending, None))))
      else t.To(Polling(ReadError)).(blind := c.Past(t.call.state).gap)
    case ReadError =>
      if t.call.state in c.errors.at then t.To(Finished(Raised(c.errors.at[t.call.state])))
      else t.PurgeThen(Polling(ReadResultAgain))
    case ReadResultAgain => PollResultOr(c, t, ReadFlowAgain)
    case ReadFlowAgain => PollFlowOr(c, t, Finished(RaisedUnknown))
  }

  // ----- complete, in both orders -----

  /** Up to the claim: the lock, the published result, the recorded error, and the marker where it comes first. */
  function StepEnter(c: Core, i: int, t: Thread, place: EnterPlace): (r: (Core, Thread))
    requires t.pc.At?
    ensures r.1.Continues(t)
  {
    var s := t.call.state;
    match place
    case Peek => (c, t.To(Entering(Lock)).(microsoft := s in c.flows.at && c.flows.at[s].provider == MICROSOFT))
    case Lock => if c.lock.Some? then (c, t) else (c.(lock := Some(i)), t.To(Entering(CheckResult)))
    case CheckResult =>
      if s in c.results.at then (c, t.To(Leaving(Release(Returned(c.results.at[s]))))) else (c, t.To(Entering(CheckError)))
    case CheckError =>
      if s in c.errors.at then (c, t.To(Leaving(Release(Raised(c.errors.at[s])))))
      else if t.microsoft then (c, t.PurgeThen(Entering(Claim)))
      else (c, t.To(Entering(FindFlow)))
    case FindFlow =>
      if s in c.flows.at then (c, t.To(Entering(SetMarker)).(provider := c.flows.at[s].provider))
      else (c, t.PurgeThen(Entering(Claim)))
    case SetMarker => (c.(markers := c.markers[s := t.provider]), t.PurgeThen(Entering(Claim)).(owns := true))
    case Claim => StepClaim(c, i, t)
  }

  /** The one-time flow is popped; the Microsoft order has not set its marker yet. */
  function StepClaim(c: Core, i: int, t: Thread): (r: (Core, Thread))
    requires t.pc.At?
    ensures r.1.Continues(t)
  {
    var s := t.call.state;
    if s !in c.flows.at then (c, t.To(Leaving(Fail(InvalidState))))
    else
      var flow := c.flows.at[s];
      var popped := c.(flows := c.flows.Pop(s));
      var h := c.Past(s).(consumer := Some(i));
      if flow.expires <= t.clock then (popped.Note(s, h.(expired := Some(t.clock))), t.To(Leaving(Fail(InvalidState))))
      else if t.microsoft then
        (popped.Note(s, h.(gap := true, exposed := true)), t.To(Working(GapMarker)).(provider := flow.provider))
      else (popped.Note(s, h), t.To(Working(Exchange)).(provider := flow.provider))
  }

  /** The late marker, the network exchange, the stored refresh credential and the published result. */
  function StepWork(c: Core, t: Thread, place: WorkPlace, outcome: Outcome): (r: (Core, Thread))
    requires t.pc.At?
    ensures r.1.Continues(t)
  {
    var s := t.call.state;
    var h := c.Past(s);
    match place
    case GapMarker =>
      (c.(markers := c.markers[s := t.provider]).Note(s, h.(gap := false)), t.To(Working(Exchange)).(owns := true))
    case Exchange =>
      (match outcome
       case Succeeds(session) =>
         var status := Status(t.provider, Authenticated, Some(session));
         (c.Note(s, h.(exchanges := h.exchanges + 1)), t.To(Working(if t.microsoft then Save(status) else Publish(status))))
       case Fails(message) => (c.Note(s, h.(exchanges := h.exchanges + 1)), t.To(Leaving(Fail(message))))
       case Crashes => (c.Note(s, h.(exchanges := h.exchanges + 1, crashed := true)), t.To(Leaving(Unmark(Crashed)))))
    case Publish(status) =>
      (c.(results := c.results.Set(s, status)).Note(s, h.(published := Some(status))),
       t.To(if t.microsoft then Leaving(Unmark(Returned(status))) else Working(Save(status))))
    case Save(status) =>
      match outcome
      case Succeeds(_) => (c, t.To(if t.microsoft then Working(Publish(status)) else Leaving(Unmark(Returned(status)))))
      case Fails(message) => (c.Note(s, h.(unsaved := h.unsaved || !t.microsoft)), t.To(Leaving(Fail(message))))
      case Crashes => (c.Note(s, h.(crashed := true)), t.To(Leaving(Unmark(Crashed))))
  }

  /** The recorded error, the cleared marker and the released lock. */
  function StepLeave(c: Core, t: Thread, place: LeavePlace): (r: (Core, Thread))
    requires t.pc.At?
    ensures r.1.Continues(t)
  {
    var s := t.call.state;
    match place
    case Fail(message) =>
      if t.owns then
        (c.(errors := c.errors.Set(s, message)).Note(s, c.Past(s).(failed := Some(message))), t.To(Leaving(TrimErrors(message))))
      else (c.Note(s, c.Past(s).(lost := true)), t.To(Leaving(Release(Raised(message)))))
    case TrimErrors(message) =>
      var next := t.To(Leaving(Unmark(Raised(message))));
      if |c.errors.order| > KEPT && c.errors.order[0] != s then
        (Forget(c, c.errors.order[0]), next)
      else (c, next)
    case Unmark(verdict) => (c.(markers := c.markers - {s}), t.To(Leaving(Release(verdict))))
    case Release(verdict) => (c.(lock := None), t.To(Finished(verdict)))
  }

  // ----- reject, start, logout -----

  function StepOther(c: Core, i: int, t: Thread, place: OtherPlace, choice: Choice): (r: (Core, Thread))
    requires t.pc.At?
    ensures r.1.Continues(t)
  {
    var s := t.call.state;
    match place
    case ClaimRejected(reason) =>
      if s !in c.flows.at then (c, t.To(Finished(Raised(InvalidState))))
      else
        (c.(flows := c.flows.Pop(s)).Note(s, c.Past(s).(consumer := Some(i), gap := true, exposed := true, rejected := true)),
         t.To(Other(PublishRejection(reason))).(provider := c.flows.at[s].provider))
    case PublishRejection(reason) =>
      var status := Status(t.provider, Rejected(reason), None);
      (c.(results := c.results.Set(s, status)).Note(s, c.Past(s).(gap := false, published := Some(status))),
       t.To(Finished(Done)))
    case Issue =>
      var h := c.Past(choice.newState);
      if h.named then (c, t)
      else
        var flow := Flow(choice.provider, t.clock + FLOW_LIFETIME);
        (c.(flows := c.flows.Set(choice.newState, flow)).Note(choice.newState,
           h.(named := true, started := Some(flow.provider), deadline := flow.expires)),
         t.To(Finished(Done)))
    case Snapshot(session) => (c, t.To(Other(Evict(OfSession(c.results.order, c.results.at, session)))))
    case Evict(states) =>
      if states == [] then (c, t.To(Finished(Done)))
      else (EvictResult(c, states[0]), t.To(Other(Evict(states[1..]))))
  }

  function OfSession(order: seq<string>, results: map<string, Status>, session: string): seq<string> {
    if order == [] then []
    else (if order[0] in results && results[order[0]].session == Some(session) then [order[0]] else [])
         + OfSession(order[1..], results, session)
  }

  // ----- one step of one thread, and runs -----

  function Micro(c: Core, i: int, t: Thread, choice: Choice): (Core, Thread) {
    if t.pc.Sweeping? then StepSweep(c, t, choice.clock)
    else
      match t.pc.next
      case Polling(place) => (c, StepPoll(c, t, place))
      case Entering(place) => StepEnter(c, i, t, place)
      case Working(place) => StepWork(c, t, place, choice.outcome)
      case Leaving(place) => StepLeave(c, t, place)
      case Other(place) => StepOther(c, i, t, place, choice)
      case Finished(_) => (c, t)
  }

  datatype Event = Spawn(thread: int, op: Op) | Run(thread: int, choice: Choice)

  datatype World = World(core: Core, threads: map<int, Thread>)

  const INIT := World(Core(Dict([], map[]), Dict([], map[]), Dict([], map[]), map[], None, map[]), map[])

  function Entry(op: Op): Pc {
    match op
    case Poll(_) => Sweeping(Begin, Polling(ReadResult))
    case Complete(_) => At(Entering(Lock))
    case CompleteMicrosoft(_) => At(Entering(Peek))
    case Reject(_, reason) => Sweeping(Begin, Other(ClaimRejected(reason)))
    case Start => Sweeping(Begin, Other(Issue))
    case Logout(session) => At(Other(Snapshot(session)))
  }

  function StateOf(op: Op): string {
    match op
    case Poll(s) => s
    case Complete(s) => s
    case CompleteMicrosoft(s) => s
    case Reject(s, _) => s
    case Start => ""
    case Logout(_) => ""
  }

  function Next(w: World, e: Event): World {
    match e
    case Spawn(i, op) =>
      if i in w.threads then w
      else
        var h := w.core.Past(StateOf(op));
        World(w.core.Note(StateOf(op), h.(named := true)),
              w.threads[i := Thread(Call(op, StateOf(op), h.started.Some?, h.published.Some?), 0, false, false, "", false, Entry(op))])
    case Run(i, choice) =>
      if i !in w.threads then w
      else
        var (core, thread) := Micro(w.core, i, w.threads[i], choice);
        World(core, w.threads[i := thread])
  }

  function Play(events: seq<Event>): World {
    if events == [] then INIT else Next(Play(events[..|events| - 1]), events[|events| - 1])
  }
}
