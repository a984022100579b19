/** What the session refresh protocol promises over every run. */
module SessionGuarantees {
  import opened Prelude
  import opened SessionSnapshot
  import opened SessionProtocol

  // ----- Expiry -----

  /** A session usable at a later time or with a wider margin was usable before. */
  lemma UsabilityIsAntitone(parse: DateParser, s: Option<Session>, now: int, margin: int, later: int, wider: int)
    requires now <= later && margin <= wider && Usable(parse, s, later, wider)
    ensures Usable(parse, s, now, margin)
  {}

  lemma EnsureWithoutRefresh(parse: DateParser, s: State, o: Origin, clock: Clock, session: Session)
    requires EnterEnsure(parse, s, o, clock).1 == Now(Some(session))
    ensures Read(s.stored).0 == Some(session) && Usable(parse, Some(session), clock.t1, ACCESS_TOKEN_REFRESH_WINDOW_MS)
    ensures EnterEnsure(parse, s, o, clock).0 == s
  {
    hide Read, Usable, CanRefresh;
    ReadIsSoundAndIdempotent(s.stored);
  }

  /** A session that ensureConsoleSession returns without any refresh has a token and more than 60 s left. */
  lemma UnrefreshedSessionIsFresh(parse: DateParser, s: State, c: nat, clock: Clock, session: Session)
    requires c !in s.callers
    requires Step(parse, s, Ensure(c, clock)).callers[c].stage == Done(Returned(Some(session)))
    ensures Read(s.stored).0 == Some(session) && Token(Some(session)).Some?
    ensures parse(AccessExpiry(session)).Some? && parse(AccessExpiry(session)).value - clock.t1 > 60_000
    ensures Step(parse, s, Ensure(c, clock)) == s.(callers := Step(parse, s, Ensure(c, clock)).callers)
  {
    hide Read, CanRefresh, EnterEnsure;
    var (s1, a) := EnterEnsure(parse, s, ByCaller(c), clock);
    assert Step(parse, s, Ensure(c, clock)) == Suspend(s1, c, NewCaller(EnsureCall), First, a);
    EnsureWithoutRefresh(parse, s, ByCaller(c), clock, session);
  }

  // ----- Single flight -----

  /** At most one episode is unsettled, and the module variable is non-null exactly while one is. */
  lemma OneRefreshAtATime(parse: DateParser, stored: Stored, evs: seq<Event>)
    ensures var s := Run(parse, Init(stored), evs);
      && (s.inFlight.Some? ==> s.inFlight.value < |s.episodes|)
      && (forall k :: 0 <= k < |s.episodes| ==> (s.episodes[k].outcome.None? <==> s.inFlight == Some(k)))
  {
    hide Run, EpisodesOk, EffectsOk, CallersOk;
    RunKeepsInv(parse, stored, evs);
  }

  /** Every episode made one call, or two when and only when the first was refused with a retryable, 429 or 504
      failure; once settled it failed exactly when its last reply did. */
  lemma RetriesOnce(parse: DateParser, stored: Stored, evs: seq<Event>, k: nat)
    requires k < |Run(parse, Init(stored), evs).episodes|
    ensures var e := Run(parse, Init(stored), evs).episodes[k];
      && 1 <= e.calls <= 2
      && (e.calls == 2 <==> e.replies != [] && RetryableReply(e.replies[0]))
      && (e.outcome.Some? ==> |e.replies| == e.calls
                              && (e.outcome.value.Expired? <==> FailedReply(e.replies[|e.replies| - 1])))
      && (e.outcome.None? ==> |e.replies| == e.calls - 1)
  {
    hide Run, SingleFlight, EffectsOk, CallersOk;
    RunKeepsInv(parse, stored, evs);
    assert EpisodeOk(Run(parse, Init(stored), evs).episodes[k]);
  }

  /** However many joined it, a failed episode wrote the hint and dispatched the event exactly once, and an
      episode that is pending or was renewed never did. */
  lemma FailureIsAnnouncedOnce(parse: DateParser, stored: Stored, evs: seq<Event>, k: nat)
    ensures var s := Run(parse, Init(stored), evs);
      s.hints[ByEpisode(k)] == s.events[ByEpisode(k)] ==
      (if k < |s.episodes| && s.episodes[k].outcome == Some(Expired) then 1 else 0)
  {
    hide Run, SingleFlight, EpisodesOk, CallersOk;
    RunKeepsInv(parse, stored, evs);
    var s := Run(parse, Init(stored), evs);
    assert HasExpired(s.episodes, k) || !HasExpired(s.episodes, k);
  }

  /** A pending episode fails exactly at a failed reply that is not retried, and that step leaves no snapshot, the
      expired hint and no refresh in flight. */
  lemma FailureClearsTheSession(parse: DateParser, s: State, k: nat, reply: Reply)
    requires Inv(s) && k < |s.episodes| && s.episodes[k].outcome.None?
    ensures var s' := Step(parse, s, RefreshReplied(k, reply));
      && (s'.episodes[k].outcome == Some(Expired) <==>
            FailedReply(reply) && (s.episodes[k].calls == 2 || !RetryableReply(reply)))
      && (s'.episodes[k].outcome == Some(Expired) ==>
            s'.stored == Missing && s'.hint == Some(ExpiredHint) && s'.inFlight.None?)
  {
    assert EpisodeOk(s.episodes[k]);
  }

  // ----- Authenticated requests -----

  /** Two requests and two episodes at most; the handler fires at most once, only after the second request met an
      unsuppressed 401. */
  lemma RequestIsBounded(parse: DateParser, stored: Stored, evs: seq<Event>, c: nat)
    requires c in Run(parse, Init(stored), evs).callers
    ensures var caller := Run(parse, Init(stored), evs).callers[c];
      && |caller.sent| <= 2 && |caller.awaited| <= 2 && caller.handled <= 1
      && (caller.handled == 1 ==>
            && |caller.sent| == 2 && caller.kind == RequestCall(false)
            && caller.stage.Done? && caller.stage.verdict.Thrown?
            && caller.stage.verdict.failure.status == Some(401))
  {
    hide Run, SingleFlight, EpisodesOk, EffectsOk;
    RunKeepsInv(parse, stored, evs);
    var s := Run(parse, Init(stored), evs);
    assert CallerOk(s.episodes, s.callers[c]);
  }

  predicate TokenOf(episodes: seq<Episode>, k: nat, token: string) {
    k < |episodes| && episodes[k].outcome.Some? && Token(episodes[k].outcome.value.Value()) == Some(token)
  }

  /** A request sent after waiting for an episode carries the token of the session that episode returned; the second
      request of a call is always such a one, sent after a 401. */
  predicate TokensOk(episodes: seq<Episode>, caller: Caller) {
    && (|caller.sent| == 2 ==>
          && JoinedLast(caller.awaited, Second) && caller.rejected.Some? && caller.rejected.value.status == Some(401)
          && TokenOf(episodes, caller.awaited[|caller.awaited| - 1].episode, caller.sent[1]))
    && (caller.stage.Sending? && caller.awaited != [] ==>
          TokenOf(episodes, caller.awaited[|caller.awaited| - 1].episode, caller.stage.token))
  }

  /** What a call does with the value of an episode it joined: ensure and refresh calls return it. A request goes on
      with its token, or without one is unauthenticated and sends nothing, or after its 401 throws that error and
      sends nothing more. */
  predicate ActedOn(caller: Caller, leg: Leg, value: Option<Session>) {
    if !caller.kind.RequestCall? then caller.stage == Done(Returned(value))
    else match Token(value)
      case Some(token) =>
        if leg.First? then caller.sent != [] && caller.sent[0] == token
        else |caller.sent| == 2 && caller.sent[1] == token
      case None =>
        if leg.First? then caller.stage == Done(Unauthenticated) && caller.sent == []
        else && |caller.sent| == 1 && caller.rejected.Some? && caller.rejected.value.status == Some(401)
             && caller.stage == Done(Thrown(caller.rejected.value))
  }

  /** The call has not yet acted on the episode it joined last. */
  predicate Undecided(caller: Caller, i: nat) {
    && i == |caller.awaited| - 1
    && (caller.stage.Waiting? || caller.stage.Ready?) && caller.stage.leg == caller.awaited[i].leg
  }

  predicate ActedOnAll(episodes: seq<Episode>, caller: Caller) {
    forall i :: 0 <= i < |caller.awaited| && !Undecided(caller, i) ==>
      && caller.awaited[i].episode < |episodes| && episodes[caller.awaited[i].episode].outcome.Some?
      && ActedOn(caller, caller.awaited[i].leg, episodes[caller.awaited[i].episode].outcome.value.Value())
  }

  predicate AllTokensOk(s: State) {
    forall c :: c in s.callers ==> TokensOk(s.episodes, s.callers[c]) && ActedOnAll(s.episodes, s.callers[c])
  }

  /** The storage is kept or emptied, and an episode may have been started for the given session. */
  predicate Entered(s: State, s': State, session: Option<Session>) {
    && (s'.stored == s.stored || s'.stored == Missing)
    && (|| (s'.episodes == s.episodes && s'.inFlight == s.inFlight)
        || (&& session.Some? && s.inFlight.None? && s'.inFlight == Some(|s.episodes|)
            && s'.episodes == s.episodes + [Episode(session.value, 1, [], None)]))
  }

  lemma RefreshEntry(parse: DateParser, s: State, o: Origin, session: Option<Session>, now: int)
    ensures Entered(s, EnterRefresh(parse, s, o, session, now).0, session)
    ensures EnterRefresh(parse, s, o, session, now).0.callers == s.callers
  {}

  lemma EnsureEntry(parse: DateParser, s: State, o: Origin, clock: Clock)
    ensures Entered(s, EnterEnsure(parse, s, o, clock).0, Read(s.stored).0)
    ensures EnterEnsure(parse, s, o, clock).0.callers == s.callers
  {
    hide Read, Usable, CanRefresh, EnterRefresh;
    var (session, stored) := Read(s.stored);
    ReadIsSoundAndIdempotent(s.stored);
    RefreshEntry(parse, s.(stored := stored), o, session, clock.t3);
  }

  /** The session a step may start an episode for. */
  function Source(s: State, ev: Event): Option<Session> {
    if ev.Refresh? && ev.arg.Given? then ev.arg.session else Read(s.stored).0
  }

  /** Only the entry of c may differ. */
  predicate OthersKept(s: State, s': State, c: nat) {
    c in s'.callers && s'.callers == s.callers[c := s'.callers[c]]
  }

  lemma InvalidateEntry(s: State, o: Origin)
    ensures Entered(s, InvalidateSession(s, o), None) && InvalidateSession(s, o).callers == s.callers
  {
    hide Read;
    ReadIsSoundAndIdempotent(s.stored);
  }

  lemma RequestReplyEntry(parse: DateParser, s: State, c: nat, answer: RequestReply, now: int)
    requires c in s.callers && s.callers[c].stage.Sending?
    ensures Entered(s, StepRequestReplied(parse, s, c, answer, now), Read(s.stored).0)
    ensures OthersKept(s, StepRequestReplied(parse, s, c, answer, now), c)
  {
    hide Read, EnterRefresh, InvalidateSession;
    ReadIsSoundAndIdempotent(s.stored);
    RefreshEntry(parse, s.(stored := Read(s.stored).1), ByCaller(c), Read(s.stored).0, now);
    InvalidateEntry(s, ByCaller(c));
  }

  lemma ResumeEntry(s: State, c: nat)
    requires c in s.callers
    ensures OthersKept(s, StepResume(s, c), c) && StepResume(s, c) == s.(callers := StepResume(s, c).callers)
  {
    hide Token;
    assert s.callers == s.callers[c := s.callers[c]];
  }

  /** Steps other than a login or a refresh reply only ever empty the storage, and start an episode only for the
      session found there or the one passed in. */
  lemma QuietStep(parse: DateParser, s: State, ev: Event)
    requires !ev.Login? && !ev.RefreshReplied?
    ensures Entered(s, Step(parse, s, ev), Source(s, ev))
  {
    hide Read, EnterRefresh, EnterEnsure, StepResume, StepRequestReplied;
    ReadIsSoundAndIdempotent(s.stored);
    var kept := s.(stored := Read(s.stored).1);
    match ev
    case Ensure(c, clock) => EnsureEntry(parse, s, ByCaller(c), clock);
    case Request(c, _, clock) => EnsureEntry(parse, s, ByCaller(c), clock);
    case Refresh(c, arg, now) =>
      RefreshEntry(parse, if arg.Default? then kept else s, ByCaller(c), Source(s, ev), now);
    case RequestReplied(c, answer, now) =>
      if c in s.callers && s.callers[c].stage.Sending? { RequestReplyEntry(parse, s, c, answer, now); }
    case Resume(c) => if c in s.callers { ResumeEntry(s, c); }
    case _ =>
  }

  /** No step touches a caller but its own. */
  lemma OtherCallersKept(parse: DateParser, s: State, ev: Event, c: nat)
    requires c in s.callers
    ensures c in Step(parse, s, ev).callers
    ensures Step(parse, s, ev).callers[c] == s.callers[c] || ev == Resume(c) || (ev.RequestReplied? && ev.c == c)
  {
    hide Read, EnterRefresh, EnterEnsure, StepResume, StepRequestReplied;
    match ev
    case Ensure(d, clock) => EnsureEntry(parse, s, ByCaller(d), clock);
    case Request(d, _, clock) => EnsureEntry(parse, s, ByCaller(d), clock);
    case Refresh(d, arg, now) =>
      RefreshEntry(parse, if arg.Default? then s.(stored := Read(s.stored).1) else s, ByCaller(d), Source(s, ev), now);
    case RequestReplied(d, answer, now) =>
      if d in s.callers && s.callers[d].stage.Sending? { RequestReplyEntry(parse, s, d, answer, now); }
    case Resume(d) => if d in s.callers { ResumeEntry(s, d); }
    case _ =>
  }

  /** A step touches the callers other than its own in no way, and the episodes only by extending them. */
  lemma StepFrame(parse: DateParser, s: State, ev: Event, c: nat)
    requires c in s.callers
    ensures var s' := Step(parse, s, ev);
      && Extends(s.episodes, s'.episodes) && c in s'.callers
      && (s'.callers[c] == s.callers[c] || ev == Resume(c) || (ev.RequestReplied? && ev.c == c))
  {
    OtherCallersKept(parse, s, ev, c);
    if !ev.Login? && !ev.RefreshReplied? { QuietStep(parse, s, ev); }
  }

  lemma RepliedCaller(parse: DateParser, s: State, c: nat, answer: RequestReply, now: int)
    requires c in s.callers && s.callers[c].stage.Sending?
    ensures var caller := StepRequestReplied(parse, s, c, answer, now).callers[c];
      && caller.sent == s.callers[c].sent
      && (|caller.sent| == 2 && s.callers[c].stage.leg.Second? ==>
            caller.awaited == s.callers[c].awaited && caller.rejected == s.callers[c].rejected)
      && Remaining(caller.stage) < Remaining(s.callers[c].stage) && !caller.stage.Sending?
  {
    hide Read, EnterRefresh, InvalidateSession;
  }

  /** How many steps of its own a call still has ahead of it. */
  function Remaining(stage: Stage): nat {
    match stage
    case Waiting(leg, _) => if leg.First? then 6 else 3
    case Ready(leg, _) => if leg.First? then 5 else 2
    case Sending(leg, _) => if leg.First? then 4 else 1
    case Done(_) => 0
  }

  lemma RefreshReplyKeepsCallers(s: State, k: nat, reply: Reply)
    ensures k < |s.episodes| && s.episodes[k].outcome.None? ==> StepRefreshReplied(s, k, reply).callers == s.callers
  {
    hide Read, Snapshot;
  }

  lemma NewCallersHaveSentNothing(parse: DateParser, s: State, ev: Event, c: nat)
    requires c !in s.callers && c in Step(parse, s, ev).callers
    ensures var caller := Step(parse, s, ev).callers[c];
      && caller.sent == [] && !caller.stage.Sending?
      && (caller.awaited != [] ==> exists k :: caller.awaited == [Join(First, k)] && caller.stage == Waiting(First, k))
  {
    hide Read, EnterRefresh, EnterEnsure, StepResume, StepRequestReplied, StepRefreshReplied, InvalidateSession;
    match ev
    case Ensure(d, clock) => EnsureEntry(parse, s, ByCaller(d), clock);
    case Request(d, _, clock) => EnsureEntry(parse, s, ByCaller(d), clock);
    case Refresh(d, arg, now) =>
      RefreshEntry(parse, if arg.Default? then s.(stored := Read(s.stored).1) else s, ByCaller(d), Source(s, ev), now);
    case RefreshReplied(k, reply) => RefreshReplyKeepsCallers(s, k, reply);
    case RequestReplied(d, answer, now) =>
      if d in s.callers && s.callers[d].stage.Sending? { RequestReplyEntry(parse, s, d, answer, now); }
    case Resume(d) => if d in s.callers { ResumeEntry(s, d); }
    case Invalidate => InvalidateEntry(s, ByApplication);
    case _ =>
  }

  lemma ResumedToken(s: State, c: nat)
    requires Inv(s) && c in s.callers && TokensOk(s.episodes, s.callers[c])
    ensures TokensOk(s.episodes, StepResume(s, c).callers[c])
  {
    assert CallerOk(s.episodes, s.callers[c]);
  }

  lemma ResumedActsOnAll(s: State, c: nat)
    requires Inv(s) && c in s.callers && ActedOnAll(s.episodes, s.callers[c])
    ensures ActedOnAll(s.episodes, StepResume(s, c).callers[c])
  {
    hide Token, SingleFlight, EpisodesOk, EffectsOk;
    assert CallerOk(s.episodes, s.callers[c]);
  }

  lemma RepliedActsOnAll(parse: DateParser, s: State, c: nat, answer: RequestReply, now: int)
    requires Inv(s) && c in s.callers && s.callers[c].stage.Sending? && ActedOnAll(s.episodes, s.callers[c])
    ensures ActedOnAll(s.episodes, StepRequestReplied(parse, s, c, answer, now).callers[c])
  {
    hide Token, Read, EnterRefresh, InvalidateSession, SingleFlight, EpisodesOk, EffectsOk;
    assert CallerOk(s.episodes, s.callers[c]);
  }

  lemma ActedOnAllExtends(a: seq<Episode>, b: seq<Episode>, caller: Caller)
    requires Extends(a, b) && ActedOnAll(a, caller)
    ensures ActedOnAll(b, caller)
  {
    hide ActedOn, Undecided;
  }

  lemma StepKeepsTokens(parse: DateParser, s: State, ev: Event, c: nat)
    requires Inv(s) && AllTokensOk(s) && c in Step(parse, s, ev).callers
    ensures TokensOk(Step(parse, s, ev).episodes, Step(parse, s, ev).callers[c])
  {
    hide Read, Token, EnterRefresh, EnterEnsure, StepRequestReplied, StepRefreshReplied, StepResume, ActedOnAll;
    if c !in s.callers {
      NewCallersHaveSentNothing(parse, s, ev, c);
    } else {
      StepFrame(parse, s, ev, c);
      assert CallerOk(s.episodes, s.callers[c]) && TokensOk(s.episodes, s.callers[c]);
      if ev == Resume(c) {
        ResumedToken(s, c);
      } else if ev.RequestReplied? && ev.c == c && s.callers[c].stage.Sending? {
        RepliedCaller(parse, s, c, ev.answer, ev.now);
      }
    }
  }

  lemma StepKeepsActs(parse: DateParser, s: State, ev: Event, c: nat)
    requires Inv(s) && AllTokensOk(s) && c in Step(parse, s, ev).callers
    ensures ActedOnAll(Step(parse, s, ev).episodes, Step(parse, s, ev).callers[c])
  {
    hide Read, Token, EnterRefresh, EnterEnsure, StepRequestReplied, StepRefreshReplied, StepResume, ActedOn, TokensOk;
    if c !in s.callers {
      NewCallersHaveSentNothing(parse, s, ev, c);
    } else {
      StepFrame(parse, s, ev, c);
      hide ActedOnAll, Inv, Extends;
      var s' := Step(parse, s, ev);
      if ev == Resume(c) {
        ResumedActsOnAll(s, c);
      } else if ev.RequestReplied? && ev.c == c && s.callers[c].stage.Sending? {
        RepliedActsOnAll(parse, s, c, ev.answer, ev.now);
      }
      ActedOnAllExtends(s.episodes, s'.episodes, s'.callers[c]);
    }
  }

  lemma {:induction false} RunKeepsTokens(parse: DateParser, s: State, evs: seq<Event>)
    requires Inv(s) && AllTokensOk(s)
    ensures AllTokensOk(Run(parse, s, evs))
    decreases |evs|
  {
    hide Step, Inv, TokensOk, ActedOnAll;
    if evs != [] {
      var s' := Step(parse, s, evs[0]);
      StepKeepsInv(parse, s, evs[0]);
      forall c | c in s'.callers
        ensures TokensOk(s'.episodes, s'.callers[c]) && ActedOnAll(s'.episodes, s'.callers[c])
      {
        StepKeepsTokens(parse, s, evs[0], c);
        StepKeepsActs(parse, s, evs[0], c);
      }
      RunKeepsTokens(parse, s', evs[1..]);
    }
  }

  lemma RequestsCarryTheRefreshedToken(parse: DateParser, stored: Stored, evs: seq<Event>, c: nat)
    requires c in Run(parse, Init(stored), evs).callers
    ensures TokensOk(Run(parse, Init(stored), evs).episodes, Run(parse, Init(stored), evs).callers[c])
  {
    RunKeepsTokens(parse, Init(stored), evs);
  }

  /** All calls that joined one episode, of whatever kind and at whatever point, act on the one value it settled with:
      none gets past it before it settled. */
  lemma JoinersShareTheOutcome(parse: DateParser, stored: Stored, evs: seq<Event>, k: nat)
    ensures var s := Run(parse, Init(stored), evs);
      forall c, i :: c in s.callers && 0 <= i < |s.callers[c].awaited| && s.callers[c].awaited[i].episode == k
                     && !Undecided(s.callers[c], i) ==>
        && k < |s.episodes| && s.episodes[k].outcome.Some?
        && ActedOn(s.callers[c], s.callers[c].awaited[i].leg, s.episodes[k].outcome.value.Value())
  {
    RunKeepsTokens(parse, Init(stored), evs);
    hide Run;
    var s := Run(parse, Init(stored), evs);
    assert forall c :: c in s.callers ==> ActedOnAll(s.episodes, s.callers[c]);
  }

  /** No interleaving sends a call backwards: a step leaves it alone or brings it nearer its end, and an unfinished
      call always waits for the network or can be resumed. */
  lemma CallsMakeProgress(parse: DateParser, s: State, ev: Event, c: nat)
    requires Inv(s) && c in s.callers
    ensures var s' := Step(parse, s, ev);
      && c in s'.callers
      && (s'.callers[c] == s.callers[c] || Remaining(s'.callers[c].stage) < Remaining(s.callers[c].stage))
    ensures
      || s.callers[c].stage.Done?
      || s.callers[c].stage.Sending?
      || (s.callers[c].stage.Waiting? && s.inFlight == Some(s.callers[c].stage.episode))
      || Remaining(Step(parse, s, Resume(c)).callers[c].stage) < Remaining(s.callers[c].stage)
  {
    hide Read, EnterRefresh, EnterEnsure, StepRequestReplied, StepRefreshReplied, InvalidateSession;
    StepFrame(parse, s, ev, c);
    assert CallerOk(s.episodes, s.callers[c]);
    if ev.RequestReplied? && ev.c == c && s.callers[c].stage.Sending? {
      RepliedCaller(parse, s, c, ev.answer, ev.now);
    }
  }

  // ----- Conservation -----

  function TotalCalls(episodes: seq<Episode>): nat {
    if episodes == [] then 0 else TotalCalls(episodes[..|episodes| - 1]) + episodes[|episodes| - 1].calls
  }

  lemma {:induction false} TotalCallsBounded(episodes: seq<Episode>)
    requires EpisodesOk(episodes)
    ensures TotalCalls(episodes) <= 2 * |episodes|
  {
    if episodes != [] {
      TotalCallsBounded(episodes[..|episodes| - 1]);
      assert EpisodeOk(episodes[|episodes| - 1]);
    }
  }

  /** Summed over a run, the refresh endpoint is called at most twice per entry into refreshConsoleShellSession. */
  lemma RefreshCallsAreBounded(parse: DateParser, stored: Stored, evs: seq<Event>)
    ensures var s := Run(parse, Init(stored), evs); TotalCalls(s.episodes) <= 2 * s.entries
  {
    RunKeepsInv(parse, stored, evs);
    TotalCallsBounded(Run(parse, Init(stored), evs).episodes);
  }

  // ----- What the storage holds -----

  /** Every renewed episode holds what persisting its last reply and reading it back yields. */
  predicate Faithful(episodes: seq<Episode>) {
    forall k :: 0 <= k < |episodes| && episodes[k].outcome.Some? && episodes[k].outcome.value.Renewed? ==>
      && episodes[k].replies != []
      && var last := episodes[k].replies[|episodes[k].replies| - 1];
         last.Replied? && episodes[k].outcome.value.session ==
           Read(Parsed(Snapshot(last.login, episodes[k].session.tenantId))).0
  }

  lemma StepKeepsFaithful(parse: DateParser, s: State, ev: Event)
    requires Faithful(s.episodes)
    ensures Faithful(Step(parse, s, ev).episodes)
  {
    hide Read, Snapshot, EnterRefresh, EnterEnsure, StepResume, StepRequestReplied;
    if !ev.Login? && !ev.RefreshReplied? { QuietStep(parse, s, ev); }
  }

  lemma {:induction false} RunKeepsFaithful(parse: DateParser, s: State, evs: seq<Event>)
    requires Faithful(s.episodes)
    ensures Faithful(Run(parse, s, evs).episodes)
    decreases |evs|
  {
    hide Step, Faithful;
    if evs != [] {
      StepKeepsFaithful(parse, s, evs[0]);
      RunKeepsFaithful(parse, Step(parse, s, evs[0]), evs[1..]);
    }
  }

  lemma RenewedSessionsAreFaithful(parse: DateParser, stored: Stored, evs: seq<Event>)
    ensures Faithful(Run(parse, Init(stored), evs).episodes)
  {
    RunKeepsFaithful(parse, Init(stored), evs);
  }

  /** An episode resolves to null without hint or event exactly when the endpoint answered with a body that is not
      an acceptable session. */
  lemma SilentNullIffUnacceptable(parse: DateParser, stored: Stored, evs: seq<Event>, k: nat)
    requires k < |Run(parse, Init(stored), evs).episodes|
    requires Run(parse, Init(stored), evs).episodes[k].outcome.Some?
    ensures var e := Run(parse, Init(stored), evs).episodes[k];
      e.replies != [] &&
      var last := e.replies[|e.replies| - 1];
      e.outcome == Some(Renewed(None)) <==>
        !FailedReply(last) && !(IsText(Field(last.login, KSessionId)) && Acceptable(last.login))
  {
    RetriesOnce(parse, stored, evs, k);
    RenewedSessionsAreFaithful(parse, stored, evs);
    var e := Run(parse, Init(stored), evs).episodes[k];
    var last := e.replies[|e.replies| - 1];
    if !FailedReply(last) { PersistThenRead(last.login, e.session.tenantId); }
  }

  /** An empty tenant id is not stored. */
  function Kept(tenantId: Option<string>): Option<string> { if tenantId == Some("") then None else tenantId }

  /** No login, and no refresh of a session handed in from elsewhere with another tenant. */
  predicate SameTenant(evs: seq<Event>, tenantId: Option<string>) {
    forall i :: 0 <= i < |evs| ==>
      && !evs[i].Login?
      && (evs[i].Refresh? && evs[i].arg.Given? && evs[i].arg.session.Some? ==>
            Kept(evs[i].arg.session.value.tenantId) == tenantId)
  }

  predicate StoredTenant(s: State, tenantId: Option<string>) {
    Read(s.stored).0.Some? ==> Read(s.stored).0.value.tenantId == tenantId
  }

  predicate TenantOk(s: State, from: nat, tenantId: Option<string>) {
    && StoredTenant(s, tenantId)
    && forall k :: 0 <= k < |s.episodes| ==>
         match s.episodes[k].outcome
         case None => Kept(s.episodes[k].session.tenantId) == tenantId
         case Some(o) => k >= from && o.Value().Some? ==> o.Value().value.tenantId == tenantId
  }

  lemma EnteredKeepsTenant(s: State, s': State, session: Option<Session>, from: nat, tenantId: Option<string>)
    requires TenantOk(s, from, tenantId) && Entered(s, s', session)
    requires session.Some? ==> Kept(session.value.tenantId) == tenantId
    ensures TenantOk(s', from, tenantId)
  {
    hide Read;
    ReadIsSoundAndIdempotent(s.stored);
  }

  lemma ReplyKeepsTenant(s: State, k: nat, reply: Reply, from: nat, tenantId: Option<string>)
    requires TenantOk(s, from, tenantId) && k < |s.episodes| && s.episodes[k].outcome.None?
    ensures TenantOk(StepRefreshReplied(s, k, reply), from, tenantId)
  {
    hide Read, Snapshot;
    var written := Parsed(Snapshot(if reply.Replied? then reply.login else JNull, s.episodes[k].session.tenantId));
    if reply.Replied? { PersistThenRead(reply.login, s.episodes[k].session.tenantId); }
    ReadIsSoundAndIdempotent(written);
  }

  lemma StepKeepsTenant(parse: DateParser, s: State, ev: Event, from: nat, tenantId: Option<string>)
    requires TenantOk(s, from, tenantId) && SameTenant([ev], tenantId)
    ensures TenantOk(Step(parse, s, ev), from, tenantId)
  {
    hide Read, EnterRefresh, EnterEnsure, StepResume, StepRequestReplied, StepRefreshReplied, InvalidateSession;
    assert [ev][0] == ev;
    ReadIsSoundAndIdempotent(s.stored);
    match ev
    case RefreshReplied(k, reply) =>
      if k < |s.episodes| && s.episodes[k].outcome.None? { ReplyKeepsTenant(s, k, reply, from, tenantId); }
    case _ =>
      QuietStep(parse, s, ev);
      EnteredKeepsTenant(s, Step(parse, s, ev), Source(s, ev), from, tenantId);
  }

  lemma {:induction false} RunKeepsTenant(parse: DateParser, s: State, evs: seq<Event>, from: nat,
                                          tenantId: Option<string>)
    requires TenantOk(s, from, tenantId) && SameTenant(evs, tenantId)
    ensures TenantOk(Run(parse, s, evs), from, tenantId)
    decreases |evs|
  {
    hide Step, TenantOk;
    if evs != [] {
      assert forall i :: 0 <= i < |evs[1..]| ==> evs[1..][i] == evs[i + 1];
      StepKeepsTenant(parse, s, evs[0], from, tenantId);
      RunKeepsTenant(parse, Step(parse, s, evs[0]), evs[1..], from, tenantId);
    }
  }

  /** Some response any deployment could send: a complete active session. */
  const SAMPLE := Session("session", None, "active", "active", "", "", "", None, None)

  lemma SampleReply(parse: DateParser, s: State, k: nat)
    requires Inv(s) && s.inFlight == Some(k)
    ensures var login := LoginResponse(SAMPLE, map[]);
      Read(Step(parse, s, RefreshReplied(k, Replied(login))).stored).0
        == Some(SAMPLE.(tenantId := Kept(s.episodes[k].session.tenantId)))
  {
    var login := LoginResponse(SAMPLE, map[]);
    LoginResponseCarries(SAMPLE, map[]);
    RoundTrip(login, SAMPLE);
    PersistThenRead(login, None);
    PersistThenRead(login, s.episodes[k].session.tenantId);
    ReadIsSoundAndIdempotent(Parsed(Snapshot(login, s.episodes[k].session.tenantId)));
  }

  lemma RunOfOne(parse: DateParser, s: State, ev: Event)
    ensures Run(parse, s, [ev]) == Step(parse, s, ev)
  {
    hide Step;
    assert [ev][1..] == [];
  }

  /** After a login the stored session keeps the tenant given there, through every run of refreshes until the next
      login, exactly when no refresh of another tenant's session was pending at that login. */
  lemma TenantIsKeptIff(parse: DateParser, stored: Stored, before: seq<Event>, login: Json, tenantId: Option<string>)
    requires login != JNull
    ensures var s := Run(parse, Init(stored), before);
      (s.inFlight.Some? ==> s.inFlight.value < |s.episodes|) &&
      ((forall evs :: SameTenant(evs, Kept(tenantId)) ==>
         StoredTenant(Run(parse, Step(parse, s, Login(login, tenantId)), evs), Kept(tenantId)))
       <==> (s.inFlight.Some? ==> Kept(s.episodes[s.inFlight.value].session.tenantId) == Kept(tenantId)))
  {
    var s := Run(parse, Init(stored), before);
    var s1 := Step(parse, s, Login(login, tenantId));
    RunKeepsInv(parse, stored, before);
    StepKeepsInv(parse, s, Login(login, tenantId));
    if s.inFlight.Some? && Kept(s.episodes[s.inFlight.value].session.tenantId) != Kept(tenantId) {
      var ev := RefreshReplied(s.inFlight.value, Replied(LoginResponse(SAMPLE, map[])));
      SampleReply(parse, s1, s.inFlight.value);
      RunOfOne(parse, s1, ev);
      assert SameTenant([ev], Kept(tenantId));
    } else {
      forall evs | SameTenant(evs, Kept(tenantId))
        ensures StoredTenant(Run(parse, s1, evs), Kept(tenantId))
      {
        PersistThenRead(login, tenantId);
        assert TenantOk(s1, |s.episodes|, Kept(tenantId));
        RunKeepsTenant(parse, s1, evs, |s.episodes|, Kept(tenantId));
      }
    }
  }

  predicate NoSessionHandedIn(evs: seq<Event>) {
    forall i :: 0 <= i < |evs| ==>
      !evs[i].Login? && !(evs[i].Refresh? && evs[i].arg.Given? && evs[i].arg.session.Some?)
  }

  lemma StepStaysSignedOut(parse: DateParser, s: State, ev: Event)
    requires Inv(s) && s.stored == Missing && s.inFlight.None? && NoSessionHandedIn([ev])
    ensures Inv(Step(parse, s, ev)) && Step(parse, s, ev).stored == Missing && Step(parse, s, ev).inFlight.None?
  {
    assert [ev][0] == ev;
    StepKeepsInv(parse, s, ev);
    if !ev.RefreshReplied? { QuietStep(parse, s, ev); }
  }

  lemma {:induction false} StaysSignedOut(parse: DateParser, s: State, evs: seq<Event>)
    requires Inv(s) && s.stored == Missing && s.inFlight.None? && NoSessionHandedIn(evs)
    ensures Run(parse, s, evs).stored == Missing
    decreases |evs|
  {
    hide Step, Inv;
    if evs != [] {
      assert forall i :: 0 <= i < |evs[1..]| ==> evs[1..][i] == evs[i + 1];
      StepStaysSignedOut(parse, s, evs[0]);
      StaysSignedOut(parse, Step(parse, s, evs[0]), evs[1..]);
    }
  }

  /** A sign-out is final, as long as nobody logs in or hands in a session, exactly when no refresh was pending:
      a pending one stores its own result afterwards. */
  lemma SignOutIsFinalIff(parse: DateParser, stored: Stored, before: seq<Event>)
    ensures var s := Run(parse, Init(stored), before);
      (forall evs :: NoSessionHandedIn(evs) ==> Run(parse, Step(parse, s, SignOut), evs).stored == Missing)
      <==> s.inFlight.None?
  {
    var s := Run(parse, Init(stored), before);
    var s1 := Step(parse, s, SignOut);
    RunKeepsInv(parse, stored, before);
    StepKeepsInv(parse, s, SignOut);
    if s.inFlight.Some? {
      var ev := RefreshReplied(s.inFlight.value, Replied(LoginResponse(SAMPLE, map[])));
      SampleReply(parse, s1, s.inFlight.value);
      RunOfOne(parse, s1, ev);
      assert NoSessionHandedIn([ev]);
    } else {
      forall evs | NoSessionHandedIn(evs) ensures Run(parse, s1, evs).stored == Missing {
        StaysSignedOut(parse, s1, evs);
      }
    }
  }
}
