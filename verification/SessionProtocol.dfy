/** The session refresh protocol as a transition system: one step runs from one `await` to the next.
    Network answers, the clock and the interleaving of the callers are chosen by the events. */
module SessionProtocol {
  import opened Prelude
  import opened SessionSnapshot

  /** Date.parse; None stands for NaN. */
  type DateParser = string -> Option<int>

  const ACCESS_TOKEN_REFRESH_WINDOW_MS := 60_000

  predicate ExpiredAt(parse: DateParser, value: string, now: int, margin: int) {
    value == "" || parse(value).None? || parse(value).value <= now + margin
  }

  function AccessExpiry(s: Session): string {
    if s.tokenSet.Some? && s.tokenSet.value.expiresAt != "" then s.tokenSet.value.expiresAt else s.expiresAt
  }

  function RefreshExpiry(s: Session): string {
    if s.tokenSet.Some? && s.tokenSet.value.refreshExpiresAt != "" then s.tokenSet.value.refreshExpiresAt
    else s.refreshExpiresAt
  }

  /** `session?.tokenSet?.accessToken?.trim()`, None when it is falsy. */
  function Token(s: Option<Session>): Option<string> {
    if s.None? || s.value.tokenSet.None? then None else NormalizeId(Some(s.value.tokenSet.value.accessToken))
  }

  predicate Usable(parse: DateParser, s: Option<Session>, now: int, margin: int) {
    && s.Some? && s.value.authenticationState == "active"
    && Token(s).Some? && !ExpiredAt(parse, AccessExpiry(s.value), now, margin)
  }

  predicate CanRefresh(parse: DateParser, s: Option<Session>, now: int) {
    && s.Some? && s.value.authenticationState == "active"
    && s.value.tokenSet.Some? && NormalizeId(Some(s.value.tokenSet.value.refreshToken)).Some?
    && !ExpiredAt(parse, RefreshExpiry(s.value), now, 0)
  }

  // ----- State -----

  /** The answer to one refresh call; an empty body arrives as JNull. */
  datatype Reply = Replied(login: Json) | Refused(failure: Failure)

  /** How an episode's promise settled: the session read back, or null after the catch block. */
  datatype Outcome = Renewed(session: Option<Session>) | Expired
  {
    function Value(): Option<Session> { if Renewed? then session else None }
  }

  /** One promise stored in `inFlightSessionRefresh`, for the session it was started with. */
  datatype Episode = Episode(session: Session, calls: nat, replies: seq<Reply>, outcome: Option<Outcome>)

  datatype Leg = First | Second
  datatype Kind = EnsureCall | RefreshCall | RequestCall(suppress: bool)
  datatype Verdict = Returned(session: Option<Session>) | Fulfilled | Unauthenticated | Thrown(failure: Failure)

  /** Where a call of the module is suspended: on an episode, before sending, on its own request, or finished. */
  datatype Stage =
    | Waiting(leg: Leg, episode: nat)
    | Ready(leg: Leg, session: Option<Session>)
    | Sending(leg: Leg, token: string)
    | Done(verdict: Verdict)

  /** An episode joined before the first request or between the two. */
  datatype Join = Join(leg: Leg, episode: nat)

  /** `sent`, `awaited` and `handled` record the tokens sent, the episodes awaited and the handler calls made. */
  datatype Caller = Caller(kind: Kind, stage: Stage, sent: seq<string>, awaited: seq<Join>,
                           rejected: Option<Failure>, handled: nat)

  datatype Handler = Unset | Invalidates | Foreign
  datatype Hint = ExpiredHint
  datatype Origin = ByEpisode(k: nat) | ByCaller(c: nat) | ByApplication

  /** `hints` and `events` record every hint written and every invalidation event dispatched, by origin;
      `entries` counts the entries into refreshConsoleShellSession. */
  datatype State = State(stored: Stored, hint: Option<Hint>, inFlight: Option<nat>, handler: Handler,
                         episodes: seq<Episode>, callers: map<nat, Caller>,
                         hints: multiset<Origin>, events: multiset<Origin>, entries: nat)

  /** A freshly loaded page over any stored content. */
  function Init(stored: Stored): State {
    State(stored, None, None, Unset, [], map[], multiset{}, multiset{}, 0)
  }

  // ----- Steps -----

  /** Date.now() at each expiry check of one step. */
  datatype Clock = Clock(t1: int, t2: int, t3: int)

  datatype RefreshArg = Default | Given(session: Option<Session>)
  datatype RequestReply = Answered | Rejected(failure: Failure)

  datatype Event =
    | Login(login: Json, tenantId: Option<string>)
    | SignOut
    | SetHandler(handler: Handler)
    | Invalidate
    | Ensure(c: nat, clock: Clock)
    | Refresh(c: nat, arg: RefreshArg, now: int)
    | Request(c: nat, suppress: bool, clock: Clock)
    | RefreshReplied(k: nat, reply: Reply)
    | Resume(c: nat)
    | RequestReplied(c: nat, answer: RequestReply, now: int)

  /** What an awaited call yields: a value already there, or the promise of an episode. */
  datatype Awaited = Now(session: Option<Session>) | Joined(k: nat)

  predicate RetryableReply(r: Reply) {
    r.Refused? && (r.failure.retryable || r.failure.status == Some(429) || r.failure.status == Some(504))
  }

  /** The reply cannot be persisted: a refusal, or an empty body whose members cannot be read. */
  predicate FailedReply(r: Reply) { r.Refused? || r.login.JNull? }

  function ClearUnusable(s: State, o: Origin): State {
    s.(stored := Missing, hint := Some(ExpiredHint),
       hints := s.hints + multiset{o}, events := s.events + multiset{o})
  }

  function InvalidateSession(s: State, o: Origin): State {
    var (session, stored) := Read(s.stored);
    if session.Some? then ClearUnusable(s.(stored := stored), o) else s.(stored := stored)
  }

  function EnterRefresh(parse: DateParser, s: State, o: Origin, session: Option<Session>, now: int): (State, Awaited) {
    var s := s.(entries := s.entries + 1);
    if session.None? then (s.(stored := Missing), Now(None))
    else if !CanRefresh(parse, session, now) then (ClearUnusable(s, o), Now(None))
    else if s.inFlight.Some? then (s, Joined(s.inFlight.value))
    else
      var k := |s.episodes|;
      (s.(inFlight := Some(k), episodes := s.episodes + [Episode(session.value, 1, [], None)]), Joined(k))
  }

  function EnterEnsure(parse: DateParser, s: State, o: Origin, clock: Clock): (State, Awaited) {
    var (session, stored) := Read(s.stored);
    var s := s.(stored := stored);
    if session.None? then (s, Now(None))
    else if Usable(parse, session, clock.t1, ACCESS_TOKEN_REFRESH_WINDOW_MS) then (s, Now(session))
    else if !CanRefresh(parse, session, clock.t2) then (ClearUnusable(s, o), Now(None))
    else EnterRefresh(parse, s, o, session, clock.t3)
  }

  /** Only requests have code after the await; the other calls return the value itself. */
  function Arrive(kind: Kind, leg: Leg, session: Option<Session>): Stage {
    if kind.RequestCall? then Ready(leg, session) else Done(Returned(session))
  }

  function Suspend(s: State, c: nat, caller: Caller, leg: Leg, a: Awaited): State {
    s.(callers := s.callers[c :=
      match a
      case Joined(k) => caller.(stage := Waiting(leg, k), awaited := caller.awaited + [Join(leg, k)])
      case Now(session) => caller.(stage := Arrive(caller.kind, leg, session))])
  }

  function NewCaller(kind: Kind): Caller {
    Caller(kind, Ready(First, None), [], [], None, 0)
  }

  function SetStage(s: State, c: nat, stage: Stage): State
    requires c in s.callers
  {
    s.(callers := s.callers[c := s.callers[c].(stage := stage)])
  }

  function StepRefreshReplied(s: State, k: nat, reply: Reply): State
    requires k < |s.episodes| && s.episodes[k].outcome.None?
  {
    var e := s.episodes[k].(replies := s.episodes[k].replies + [reply]);
    if e.calls == 1 && RetryableReply(reply) then
      s.(episodes := s.episodes[k := e.(calls := 2)])
    else if FailedReply(reply) then
      ClearUnusable(s, ByEpisode(k)).(episodes := s.episodes[k := e.(outcome := Some(Expired))], inFlight := None)
    else
      var (session, stored) := Read(Parsed(Snapshot(reply.login, e.session.tenantId)));
      s.(stored := stored, episodes := s.episodes[k := e.(outcome := Some(Renewed(session)))], inFlight := None)
  }

  function StepResume(s: State, c: nat): State
    requires c in s.callers
  {
    match s.callers[c].stage
    case Waiting(leg, k) =>
      if k < |s.episodes| && s.episodes[k].outcome.Some?
      then SetStage(s, c, Arrive(s.callers[c].kind, leg, s.episodes[k].outcome.value.Value()))
      else s
    case Ready(leg, session) =>
      (match Token(session)
       case Some(token) =>
         var caller := s.callers[c].(stage := Sending(leg, token), sent := s.callers[c].sent + [token]);
         s.(callers := s.callers[c := caller])
       case None =>
         SetStage(s, c, Done(if leg.First? || s.callers[c].rejected.None? then Unauthenticated
                             else Thrown(s.callers[c].rejected.value))))
    case _ => s
  }

  function StepRequestReplied(parse: DateParser, s: State, c: nat, answer: RequestReply, now: int): State
    requires c in s.callers && s.callers[c].stage.Sending?
  {
    var caller := s.callers[c];
    if answer.Answered? then SetStage(s, c, Done(Fulfilled))
    else if caller.stage.leg.First? then
      if answer.failure.status != Some(401) then SetStage(s, c, Done(Thrown(answer.failure)))
      else
        var (session, stored) := Read(s.stored);
        var (s, a) := EnterRefresh(parse, s.(stored := stored), ByCaller(c), session, now);
        Suspend(s, c, caller.(rejected := Some(answer.failure)), Second, a)
    else
      var fires := answer.failure.status == Some(401) && caller.kind == RequestCall(false) && !s.handler.Unset?;
      var s := if fires && s.handler.Invalidates? then InvalidateSession(s, ByCaller(c)) else s;
      s.(callers := s.callers[c := caller.(stage := Done(Thrown(answer.failure)),
                                           handled := caller.handled + if fires then 1 else 0)])
  }

  /** One atomic step; an event that cannot happen in s leaves it unchanged. */
  function Step(parse: DateParser, s: State, ev: Event): State {
    match ev
    case Login(login, tenantId) => if login.JNull? then s else s.(stored := Parsed(Snapshot(login, tenantId)))
    case SignOut => s.(stored := Missing)
    case SetHandler(handler) => s.(handler := handler)
    case Invalidate => InvalidateSession(s, ByApplication)
    case Ensure(c, clock) =>
      if c in s.callers then s
      else
        var (s, a) := EnterEnsure(parse, s, ByCaller(c), clock);
        Suspend(s, c, NewCaller(EnsureCall), First, a)
    case Refresh(c, arg, now) =>
      if c in s.callers then s
      else
        var (session, stored) := if arg.Default? then Read(s.stored) else (arg.session, s.stored);
        var (s, a) := EnterRefresh(parse, s.(stored := stored), ByCaller(c), session, now);
        Suspend(s, c, NewCaller(RefreshCall), First, a)
    case Request(c, suppress, clock) =>
      if c in s.callers then s
      else
        var (s, a) := EnterEnsure(parse, s, ByCaller(c), clock);
        Suspend(s, c, NewCaller(RequestCall(suppress)), First, a)
    case RefreshReplied(k, reply) =>
      if k < |s.episodes| && s.episodes[k].outcome.None? then StepRefreshReplied(s, k, reply) else s
    case Resume(c) => if c in s.callers then StepResume(s, c) else s
    case RequestReplied(c, answer, now) =>
      if c in s.callers && s.callers[c].stage.Sending? then StepRequestReplied(parse, s, c, answer, now) else s
  }

  function Run(parse: DateParser, s: State, evs: seq<Event>): State
    decreases |evs|
  {
    if evs == [] then s else Run(parse, Step(parse, s, evs[0]), evs[1..])
  }

  // ----- Invariant -----

  /** The module variable points at the one unsettled episode, and is null when there is none. */
  predicate SingleFlight(inFlight: Option<nat>, episodes: seq<Episode>) {
    && (inFlight.Some? ==> inFlight.value < |episodes|)
    && forall k :: 0 <= k < |episodes| ==> (episodes[k].outcome.None? <==> inFlight == Some(k))
  }

  /** One call, or two when the first was refused retryably; the last reply alone decides whether it fails. */
  predicate EpisodeOk(e: Episode) {
    && 1 <= e.calls <= 2
    && |e.replies| == (if e.outcome.Some? then e.calls else e.calls - 1)
    && (e.calls == 2 <==> |e.replies| > 0 && RetryableReply(e.replies[0]))
    && (e.outcome.Some? ==> (e.outcome.value.Expired? <==> FailedReply(e.replies[|e.replies| - 1])))
  }

  predicate EpisodesOk(episodes: seq<Episode>) {
    forall k :: 0 <= k < |episodes| ==> EpisodeOk(episodes[k])
  }

  predicate HasExpired(episodes: seq<Episode>, k: nat) {
    k < |episodes| && episodes[k].outcome == Some(Expired)
  }

  ghost predicate EffectsOk(episodes: seq<Episode>, effects: multiset<Origin>) {
    forall k: nat :: effects[ByEpisode(k)] == if HasExpired(episodes, k) then 1 else 0
  }

  predicate SettledWith(episodes: seq<Episode>, k: nat, session: Option<Session>) {
    k < |episodes| && episodes[k].outcome.Some? && episodes[k].outcome.value.Value() == session
  }

  predicate JoinedOnlyFirst(awaited: seq<Join>) {
    |awaited| <= 1 && (awaited != [] ==> awaited[0].leg.First?)
  }

  predicate JoinedLast(awaited: seq<Join>, leg: Leg) {
    awaited != [] && awaited[|awaited| - 1].leg == leg
  }

  predicate LegOk(caller: Caller, leg: Leg) {
    match leg
    case First => caller.sent == [] && caller.rejected.None? && JoinedOnlyFirst(caller.awaited)
    case Second => |caller.sent| == 1 && caller.rejected.Some? && caller.rejected.value.status == Some(401)
  }

  predicate StageOk(episodes: seq<Episode>, caller: Caller) {
    match caller.stage
    case Waiting(leg, k) =>
      && LegOk(caller, leg) && caller.handled == 0 && (leg.Second? ==> caller.kind.RequestCall?)
      && caller.awaited != [] && caller.awaited[|caller.awaited| - 1] == Join(leg, k)
    case Ready(leg, session) =>
      && caller.kind.RequestCall? && LegOk(caller, leg) && caller.handled == 0
      && (leg.Second? && session.Some? ==> JoinedLast(caller.awaited, leg))
      && (JoinedLast(caller.awaited, leg) ==>
            SettledWith(episodes, caller.awaited[|caller.awaited| - 1].episode, session))
    case Sending(leg, token) =>
      && caller.kind.RequestCall? && caller.handled == 0
      && |caller.sent| == (if leg.First? then 1 else 2) && caller.sent[|caller.sent| - 1] == token
      && (leg.Second? ==> caller.rejected.Some? && caller.rejected.value.status == Some(401))
      && (leg.First? ==> JoinedOnlyFirst(caller.awaited))
    case Done(verdict) =>
      && (verdict.Returned? <==> !caller.kind.RequestCall?)
      && (verdict.Returned? && caller.awaited != [] ==>
            SettledWith(episodes, caller.awaited[0].episode, verdict.session))
      && (verdict.Thrown? && verdict.failure.status == Some(401) ==>
            && caller.rejected.Some? && caller.rejected.value.status == Some(401)
            && (|caller.sent| == 2 || (|caller.sent| == 1 && verdict.failure == caller.rejected.value)))
      && (caller.handled > 0 ==> |caller.sent| == 2 && caller.kind == RequestCall(false)
                                 && verdict.Thrown? && verdict.failure.status == Some(401))
  }

  predicate CallerOk(episodes: seq<Episode>, caller: Caller) {
    && (forall i :: 0 <= i < |caller.awaited| ==> caller.awaited[i].episode < |episodes|)
    && |caller.sent| <= 2 && |caller.awaited| <= 2 && caller.handled <= 1
    && (!caller.kind.RequestCall? ==> |caller.awaited| <= 1 && caller.sent == [])
    && StageOk(episodes, caller)
  }

  predicate CallersOk(episodes: seq<Episode>, callers: map<nat, Caller>) {
    forall c :: c in callers ==> CallerOk(episodes, callers[c])
  }

  ghost predicate Inv(s: State) {
    && SingleFlight(s.inFlight, s.episodes)
    && EpisodesOk(s.episodes)
    && EffectsOk(s.episodes, s.hints)
    && EffectsOk(s.episodes, s.events)
    && CallersOk(s.episodes, s.callers)
    && |s.episodes| <= s.entries
  }

  /** Episodes are only ever appended, and an outcome is final. */
  predicate Extends(a: seq<Episode>, b: seq<Episode>) {
    |a| <= |b| && forall k :: 0 <= k < |a| && a[k].outcome.Some? ==> b[k].outcome == a[k].outcome
  }

  lemma CallersOkExtends(a: seq<Episode>, b: seq<Episode>, callers: map<nat, Caller>)
    requires Extends(a, b) && CallersOk(a, callers)
    ensures CallersOk(b, callers)
  {
    forall c | c in callers ensures CallerOk(b, callers[c]) {
      assert CallerOk(a, callers[c]);
    }
  }

  lemma EffectsOfOthers(episodes: seq<Episode>, effects: multiset<Origin>, o: Origin)
    requires EffectsOk(episodes, effects) && !o.ByEpisode?
    ensures EffectsOk(episodes, effects + multiset{o})
  {}

  lemma StartedEpisode(s: State, session: Session)
    requires Inv(s) && s.inFlight.None? && |s.episodes| < s.entries
    ensures Inv(s.(inFlight := Some(|s.episodes|), episodes := s.episodes + [Episode(session, 1, [], None)]))
  {
    var episodes := s.episodes + [Episode(session, 1, [], None)];
    CallersOkExtends(s.episodes, episodes, s.callers);
    forall k: nat ensures HasExpired(episodes, k) == HasExpired(s.episodes, k) {}
  }

  lemma ClearUnusableKeeps(s: State, o: Origin)
    requires Inv(s) && !o.ByEpisode?
    ensures Inv(ClearUnusable(s, o))
  {
    EffectsOfOthers(s.episodes, s.hints, o);
    EffectsOfOthers(s.episodes, s.events, o);
  }

  /** Entering a refresh keeps the invariant, and any episode it joins exists. */
  lemma EnterRefreshKeeps(parse: DateParser, s: State, c: nat, session: Option<Session>, now: int)
    requires Inv(s)
    ensures var (s', a) := EnterRefresh(parse, s, ByCaller(c), session, now);
      Inv(s') && s'.callers == s.callers && (a.Joined? ==> a.k < |s'.episodes|) && (a.Now? ==> a.session.None?)
  {
    hide CanRefresh, EpisodesOk, EffectsOk, CallersOk;
    var s1 := s.(entries := s.entries + 1);
    assert Inv(s1);
    if session.Some? {
      if !CanRefresh(parse, session, now) { ClearUnusableKeeps(s1, ByCaller(c)); }
      else if s.inFlight.None? { StartedEpisode(s1, session.value); }
    }
  }

  lemma EnterEnsureKeeps(parse: DateParser, s: State, c: nat, clock: Clock)
    requires Inv(s)
    ensures var (s', a) := EnterEnsure(parse, s, ByCaller(c), clock);
      Inv(s') && s'.callers == s.callers && (a.Joined? ==> a.k < |s'.episodes|)
  {
    hide Read, Usable, CanRefresh, EnterRefresh, SingleFlight, EpisodesOk, EffectsOk, CallersOk;
    var (session, stored) := Read(s.stored);
    var s1 := s.(stored := stored);
    assert Inv(s1);
    EnterRefreshKeeps(parse, s1, c, session, clock.t3);
    ClearUnusableKeeps(s1, ByCaller(c));
  }

  lemma SuspendKeeps(s: State, c: nat, caller: Caller, leg: Leg, a: Awaited)
    requires Inv(s) && (a.Joined? ==> a.k < |s.episodes|)
    requires LegOk(caller, leg) && caller.handled == 0
    requires forall i :: 0 <= i < |caller.awaited| ==> caller.awaited[i].episode < |s.episodes|
    requires if leg.First? then caller.awaited == []
             else JoinedOnlyFirst(caller.awaited) && caller.kind.RequestCall? && (a.Now? ==> a.session.None?)
    ensures Inv(Suspend(s, c, caller, leg, a))
  {
    assert CallerOk(s.episodes, Suspend(s, c, caller, leg, a).callers[c]);
  }

  lemma SettledEpisode(s: State, k: nat, e: Episode)
    requires Inv(s) && k < |s.episodes| && s.episodes[k].outcome.None?
    requires EpisodeOk(e) && e.outcome.Some?
    ensures var s' := s.(episodes := s.episodes[k := e], inFlight := None);
      && (e.outcome.value.Renewed? ==> Inv(s'))
      && (e.outcome.value.Expired? ==> Inv(ClearUnusable(s', ByEpisode(k))))
  {
    var episodes := s.episodes[k := e];
    CallersOkExtends(s.episodes, episodes, s.callers);
    forall j: nat | j != k ensures HasExpired(episodes, j) == HasExpired(s.episodes, j) {}
    assert !HasExpired(s.episodes, k) && HasExpired(episodes, k) == e.outcome.value.Expired?;
  }

  lemma RefreshRepliedKeeps(s: State, k: nat, reply: Reply)
    requires Inv(s) && k < |s.episodes| && s.episodes[k].outcome.None?
    ensures Inv(StepRefreshReplied(s, k, reply))
  {
    hide Read, Snapshot;
    var e := s.episodes[k].(replies := s.episodes[k].replies + [reply]);
    assert EpisodeOk(s.episodes[k]);
    if e.calls == 1 && RetryableReply(reply) {
      var episodes := s.episodes[k := e.(calls := 2)];
      assert EpisodeOk(episodes[k]);
      CallersOkExtends(s.episodes, episodes, s.callers);
      forall j: nat ensures HasExpired(episodes, j) == HasExpired(s.episodes, j) {}
    } else if FailedReply(reply) {
      SettledEpisode(s, k, e.(outcome := Some(Expired)));
    } else {
      SettledEpisode(s, k, e.(outcome := Some(Renewed(Read(Parsed(Snapshot(reply.login, e.session.tenantId))).0))));
    }
  }

  lemma CallerUpdateKeeps(s: State, c: nat, caller: Caller)
    requires Inv(s) && CallerOk(s.episodes, caller)
    ensures Inv(s.(callers := s.callers[c := caller]))
  {}

  lemma InvalidateKeeps(s: State, o: Origin)
    requires Inv(s) && !o.ByEpisode?
    ensures Inv(InvalidateSession(s, o)) && InvalidateSession(s, o).episodes == s.episodes
    ensures InvalidateSession(s, o).callers == s.callers
  {
    hide Read;
    var s1 := s.(stored := Read(s.stored).1);
    assert Inv(s1);
    ClearUnusableKeeps(s1, o);
  }

  lemma RequestRepliedKeeps(parse: DateParser, s: State, c: nat, answer: RequestReply, now: int)
    requires Inv(s) && c in s.callers && s.callers[c].stage.Sending?
    ensures Inv(StepRequestReplied(parse, s, c, answer, now))
  {
    hide Read, EnterRefresh;
    var caller := s.callers[c];
    assert CallerOk(s.episodes, caller);
    if answer.Answered? {
      CallerUpdateKeeps(s, c, caller.(stage := Done(Fulfilled)));
    } else if caller.stage.leg.First? {
      if answer.failure.status != Some(401) {
        CallerUpdateKeeps(s, c, caller.(stage := Done(Thrown(answer.failure))));
      } else {
        var (session, stored) := Read(s.stored);
        var s0 := s.(stored := stored);
        assert Inv(s0);
        EnterRefreshKeeps(parse, s0, c, session, now);
        var (s1, a) := EnterRefresh(parse, s0, ByCaller(c), session, now);
        assert CallerOk(s1.episodes, s1.callers[c]);
        SuspendKeeps(s1, c, caller.(rejected := Some(answer.failure)), Second, a);
      }
    } else {
      InvalidateKeeps(s, ByCaller(c));
      var fires := answer.failure.status == Some(401) && caller.kind == RequestCall(false) && !s.handler.Unset?;
      var s1 := if fires && s.handler.Invalidates? then InvalidateSession(s, ByCaller(c)) else s;
      CallerUpdateKeeps(s1, c, caller.(stage := Done(Thrown(answer.failure)),
                                       handled := caller.handled + if fires then 1 else 0));
    }
  }

  lemma ResumeKeeps(s: State, c: nat)
    requires Inv(s) && c in s.callers
    ensures Inv(StepResume(s, c))
  {
    hide Token, SingleFlight, EpisodesOk, EffectsOk;
    assert CallerOk(s.episodes, s.callers[c]);
    ResumedCaller(s, c);
    CallerUpdateKeeps(s, c, StepResume(s, c).callers[c]);
    assert s.callers == s.callers[c := s.callers[c]];
  }

  lemma ResumedCaller(s: State, c: nat)
    requires c in s.callers && CallerOk(s.episodes, s.callers[c])
    ensures CallerOk(s.episodes, StepResume(s, c).callers[c])
  {
    hide Token;
  }

  lemma StepKeepsInv(parse: DateParser, s: State, ev: Event)
    requires Inv(s)
    ensures Inv(Step(parse, s, ev))
  {
    hide Read, EnterRefresh, EnterEnsure, StepRefreshReplied, StepResume, StepRequestReplied, InvalidateSession;
    match ev
    case Ensure(c, clock) =>
      EnterEnsureKeeps(parse, s, c, clock);
      var (s1, a) := EnterEnsure(parse, s, ByCaller(c), clock);
      SuspendKeeps(s1, c, NewCaller(EnsureCall), First, a);
    case Request(c, suppress, clock) =>
      EnterEnsureKeeps(parse, s, c, clock);
      var (s1, a) := EnterEnsure(parse, s, ByCaller(c), clock);
      SuspendKeeps(s1, c, NewCaller(RequestCall(suppress)), First, a);
    case Refresh(c, arg, now) =>
      var (session, stored) := if arg.Default? then Read(s.stored) else (arg.session, s.stored);
      var s0 := s.(stored := stored);
      assert Inv(s0);
      EnterRefreshKeeps(parse, s0, c, session, now);
      var (s1, a) := EnterRefresh(parse, s0, ByCaller(c), session, now);
      SuspendKeeps(s1, c, NewCaller(RefreshCall), First, a);
    case RefreshReplied(k, reply) =>
      if k < |s.episodes| && s.episodes[k].outcome.None? { RefreshRepliedKeeps(s, k, reply); }
    case Resume(c) =>
      if c in s.callers { ResumeKeeps(s, c); }
    case RequestReplied(c, answer, now) =>
      if c in s.callers && s.callers[c].stage.Sending? { RequestRepliedKeeps(parse, s, c, answer, now); }
    case Invalidate => InvalidateKeeps(s, ByApplication);
    case _ =>
  }

  lemma {:induction false} RunFromKeepsInv(parse: DateParser, s: State, evs: seq<Event>)
    requires Inv(s)
    ensures Inv(Run(parse, s, evs))
    decreases |evs|
  {
    hide Step, Inv;
    if evs != [] {
      StepKeepsInv(parse, s, evs[0]);
      RunFromKeepsInv(parse, Step(parse, s, evs[0]), evs[1..]);
    }
  }

  /** Every run from every stored content keeps the invariant. */
  lemma RunKeepsInv(parse: DateParser, stored: Stored, evs: seq<Event>)
    ensures Inv(Run(parse, Init(stored), evs))
  {
    RunFromKeepsInv(parse, Init(stored), evs);
  }
}
