/** What every entry point of the session module decides, stated on the fields of the session, the clock and the reply:
    who is told what, who waits, which request follows, and what is cleared, hinted and announced. */
module SessionOutcomes {
  import opened Prelude
  import opened SessionSnapshot
  import opened SessionProtocol
  import opened SessionGuarantees

  // ----- The two decisions about a session -----

  predicate Visible(t: string) { exists i :: 0 <= i < |t| && !IsSpace(t[i]) }

  /** The first non-empty of two dates is a date more than `margin` milliseconds away. */
  predicate Ahead(parse: DateParser, first: string, second: string, now: int, margin: int) {
    var date := if first != "" then first else second;
    date != "" && parse(date).Some? && parse(date).value - now > margin
  }

  predicate SignedIn(s: Session) { s.authenticationState == "active" && s.tokenSet.Some? }

  /** An active session whose access token is there and has more than a minute left. */
  predicate Fresh(parse: DateParser, s: Session, now: int) {
    && SignedIn(s) && Visible(s.tokenSet.value.accessToken)
    && Ahead(parse, s.tokenSet.value.expiresAt, s.expiresAt, now, 60_000)
  }

  /** An active session whose refresh token is there and has not expired. */
  predicate Refreshable(parse: DateParser, s: Session, now: int) {
    && SignedIn(s) && Visible(s.tokenSet.value.refreshToken)
    && Ahead(parse, s.tokenSet.value.refreshExpiresAt, s.refreshExpiresAt, now, 0)
  }

  lemma UsableIffFresh(parse: DateParser, s: Session, now: int)
    ensures Usable(parse, Some(s), now, ACCESS_TOKEN_REFRESH_WINDOW_MS) <==> Fresh(parse, s, now)
    ensures CanRefresh(parse, Some(s), now) <==> Refreshable(parse, s, now)
  {}

  /** The token a request carries is the trimmed access token, if that is visible at all. */
  lemma TokenIsTheAccessToken(s: Session)
    ensures Token(Some(s)) ==
      if s.tokenSet.Some? && Visible(s.tokenSet.value.accessToken) then Some(Trim(s.tokenSet.value.accessToken))
      else None
    ensures Token(None).None?
  {}

  // ----- Entering the module -----

  predicate SameEpisodes(s: State, s': State) { s'.episodes == s.episodes && s'.inFlight == s.inFlight }

  predicate SameEffects(s: State, s': State) { s'.hint == s.hint && s'.hints == s.hints && s'.events == s.events }

  /** The storage is emptied, and the hint and one event come from o. */
  predicate Cleared(s: State, s': State, o: Origin) {
    && s'.stored == Missing && s'.hint == Some(ExpiredHint)
    && s'.hints == s.hints + multiset{o} && s'.events == s.events + multiset{o}
  }

  /** The call waits for the pending episode, or for a new one of its own session. */
  predicate Joins(s: State, s': State, session: Session, a: Awaited) {
    && a.Joined? && s'.inFlight == Some(a.k)
    && if s.inFlight.Some? then SameEpisodes(s, s')
       else a.k == |s.episodes| && s'.episodes == s.episodes + [Episode(session, 1, [], None)]
  }

  /** Exactly a refreshable session is refreshed, and then nothing is cleared; any other ends the session. */
  predicate RefreshDecision(parse: DateParser, s: State, s': State, o: Origin, session: Option<Session>, now: int,
                            a: Awaited)
  {
    && s'.entries == s.entries + 1
    && match session
       case None => a == Now(None) && s'.stored == Missing && SameEffects(s, s') && SameEpisodes(s, s')
       case Some(x) =>
         if Refreshable(parse, x, now) then s'.stored == s.stored && SameEffects(s, s') && Joins(s, s', x, a)
         else a == Now(None) && Cleared(s, s', o) && SameEpisodes(s, s')
  }

  /** A fresh session is returned at once, a refreshable one is refreshed, and any other ends the session. */
  predicate EnsureDecision(parse: DateParser, s: State, s': State, o: Origin, clock: Clock, a: Awaited) {
    match Read(s.stored).0
    case None =>
      a == Now(None) && s'.stored == Read(s.stored).1 && SameEffects(s, s') && SameEpisodes(s, s')
      && s'.entries == s.entries
    case Some(x) =>
      if Fresh(parse, x, clock.t1) then a == Now(Some(x)) && s' == s.(callers := s'.callers)
      else if !Refreshable(parse, x, clock.t2) then
        a == Now(None) && Cleared(s, s', o) && SameEpisodes(s, s') && s'.entries == s.entries
      else RefreshDecision(parse, s, s', o, Some(x), clock.t3, a)
  }

  /** The call c is new, has sent nothing, and is where `a` leaves it: waiting for the episode, or with the value. */
  predicate Placed(s: State, s': State, c: nat, kind: Kind, a: Awaited) {
    && s'.handler == s.handler && OthersKept(s, s', c)
    && s'.callers[c].kind == kind && s'.callers[c].sent == [] && s'.callers[c].rejected.None?
    && s'.callers[c].handled == 0
    && match a
       case Joined(k) => s'.callers[c].stage == Waiting(First, k) && s'.callers[c].awaited == [Join(First, k)]
       case Now(x) =>
         && s'.callers[c].awaited == []
         && s'.callers[c].stage == if kind.RequestCall? then Ready(First, x) else Done(Returned(x))
  }

  lemma EnterRefreshDecides(parse: DateParser, s: State, o: Origin, session: Option<Session>, now: int)
    ensures var (s', a) := EnterRefresh(parse, s, o, session, now);
      RefreshDecision(parse, s, s', o, session, now, a) && s'.callers == s.callers && s'.handler == s.handler
  {
    hide CanRefresh, Refreshable;
    if session.Some? { UsableIffFresh(parse, session.value, now); }
  }

  lemma EnterEnsureDecides(parse: DateParser, s: State, o: Origin, clock: Clock)
    ensures var (s', a) := EnterEnsure(parse, s, o, clock);
      EnsureDecision(parse, s, s', o, clock, a) && s'.callers == s.callers && s'.handler == s.handler
  {
    hide Read, Usable, CanRefresh, Fresh, Refreshable, EnterRefresh;
    ReadIsSoundAndIdempotent(s.stored);
    var (session, stored) := Read(s.stored);
    if session.Some? {
      UsableIffFresh(parse, session.value, clock.t1);
      UsableIffFresh(parse, session.value, clock.t2);
      EnterRefreshDecides(parse, s.(stored := stored), o, session, clock.t3);
    }
  }

  /** ensureConsoleSession returns the stored session exactly while it is fresh, joins a refresh exactly when it is not
      but can be refreshed, and otherwise returns null, clearing what cannot be used. */
  lemma EnsureDecides(parse: DateParser, s: State, c: nat, clock: Clock)
    requires c !in s.callers
    ensures var s' := Step(parse, s, Ensure(c, clock));
      exists a :: EnsureDecision(parse, s, s', ByCaller(c), clock, a) && Placed(s, s', c, EnsureCall, a)
  {
    hide Read, EnterEnsure, Fresh, Refreshable;
    EnterEnsureDecides(parse, s, ByCaller(c), clock);
    var (s1, a) := EnterEnsure(parse, s, ByCaller(c), clock);
    assert Placed(s, Step(parse, s, Ensure(c, clock)), c, EnsureCall, a);
  }

  /** requestConsoleSessionJson starts with the same decision. */
  lemma RequestDecides(parse: DateParser, s: State, c: nat, suppress: bool, clock: Clock)
    requires c !in s.callers
    ensures var s' := Step(parse, s, Request(c, suppress, clock));
      exists a :: EnsureDecision(parse, s, s', ByCaller(c), clock, a) && Placed(s, s', c, RequestCall(suppress), a)
  {
    hide Read, EnterEnsure, Fresh, Refreshable;
    EnterEnsureDecides(parse, s, ByCaller(c), clock);
    var (s1, a) := EnterEnsure(parse, s, ByCaller(c), clock);
    assert Placed(s, Step(parse, s, Request(c, suppress, clock)), c, RequestCall(suppress), a);
  }

  /** refreshConsoleShellSession decides about the session passed in, or else about the stored one. */
  lemma RefreshDecides(parse: DateParser, s: State, c: nat, arg: RefreshArg, now: int)
    requires c !in s.callers
    ensures var s' := Step(parse, s, Refresh(c, arg, now));
      var (session, stored) := if arg.Given? then (arg.session, s.stored) else Read(s.stored);
      exists a :: RefreshDecision(parse, s.(stored := stored), s', ByCaller(c), session, now, a)
                  && Placed(s, s', c, RefreshCall, a)
  {
    hide Read, EnterRefresh, Refreshable;
    var (session, stored) := if arg.Given? then (arg.session, s.stored) else Read(s.stored);
    EnterRefreshDecides(parse, s.(stored := stored), ByCaller(c), session, now);
    var (s1, a) := EnterRefresh(parse, s.(stored := stored), ByCaller(c), session, now);
    assert Placed(s, Step(parse, s, Refresh(c, arg, now)), c, RefreshCall, a);
  }

  // ----- Answers -----

  /** A refresh reply is retried, fails the episode or renews the session; its episode is for the session it had. */
  lemma RefreshReplyDecides(parse: DateParser, s: State, k: nat, reply: Reply)
    requires Inv(s) && k < |s.episodes| && s.episodes[k].outcome.None?
    ensures var s' := Step(parse, s, RefreshReplied(k, reply));
      var e := s.episodes[k];
      && s'.callers == s.callers && s'.handler == s.handler && s'.entries == s.entries
      && |s'.episodes| == |s.episodes| && s'.episodes == s.episodes[k := s'.episodes[k]]
      && s'.episodes[k].session == e.session && s'.episodes[k].replies == e.replies + [reply]
      && if reply.Refused? && e.calls == 1
            && (reply.failure.retryable || reply.failure.status == Some(429) || reply.failure.status == Some(504)) then
           && s'.episodes[k].outcome.None? && s'.episodes[k].calls == 2
           && s'.stored == s.stored && SameEffects(s, s') && s'.inFlight == s.inFlight
         else if reply.Refused? || reply.login.JNull? then
           && s'.episodes[k].outcome == Some(Expired) && s'.episodes[k].calls == e.calls
           && Cleared(s, s', ByEpisode(k)) && s'.inFlight.None?
         else
           && s'.episodes[k].outcome == Some(Renewed(Read(Parsed(Snapshot(reply.login, e.session.tenantId))).0))
           && s'.stored == Read(Parsed(Snapshot(reply.login, e.session.tenantId))).1
           && s'.episodes[k].calls == e.calls && SameEffects(s, s') && s'.inFlight.None?
  {
    hide Read, Snapshot;
    assert EpisodeOk(s.episodes[k]);
  }

  /** Only the stage of the call changed. */
  predicate EndsWith(s: State, s': State, c: nat, verdict: Verdict)
    requires c in s.callers
  {
    s' == s.(callers := s.callers[c := s.callers[c].(stage := Done(verdict))])
  }

  /** What the unauthorized handler does, if it is the invalidating one. */
  predicate HandlerEffect(s: State, s': State, c: nat) {
    if s.handler.Invalidates? then
      if Read(s.stored).0.Some? then Cleared(s, s', ByCaller(c))
      else s'.stored == Read(s.stored).1 && SameEffects(s, s')
    else s'.stored == s.stored && SameEffects(s, s')
  }

  /** An answer fulfils the request, and any refusal of the first other than a 401 is thrown at once. */
  lemma AnswerOrRefusalEnds(parse: DateParser, s: State, c: nat, answer: RequestReply, now: int)
    requires c in s.callers && s.callers[c].stage.Sending?
    ensures var s' := Step(parse, s, RequestReplied(c, answer, now));
      && (answer.Answered? ==> EndsWith(s, s', c, Fulfilled))
      && (answer.Rejected? && s.callers[c].stage.leg.First? && answer.failure.status != Some(401) ==>
            EndsWith(s, s', c, Thrown(answer.failure)))
  {
    hide Read, EnterRefresh, InvalidateSession;
  }

  /** The first 401 of a request is never thrown: it enters a refresh of the stored session, and the call goes on, for
      its second request, with what that yields. */
  lemma FirstUnauthorizedIsReplayed(parse: DateParser, s: State, c: nat, f: Failure, now: int)
    requires Inv(s) && c in s.callers && s.callers[c].stage.Sending? && s.callers[c].stage.leg.First?
    requires f.status == Some(401)
    ensures var s' := Step(parse, s, RequestReplied(c, Rejected(f), now));
      var before := s.callers[c].(rejected := Some(f));
      exists a ::
        && RefreshDecision(parse, s.(stored := Read(s.stored).1), s', ByCaller(c), Read(s.stored).0, now, a)
        && s'.handler == s.handler && OthersKept(s, s', c)
        && s'.callers[c] == match a
           case Joined(k) => before.(stage := Waiting(Second, k), awaited := before.awaited + [Join(Second, k)])
           case Now(x) => before.(stage := Ready(Second, None))
  {
    hide Read, EnterRefresh, Refreshable, SingleFlight, EpisodesOk, EffectsOk;
    assert CallerOk(s.episodes, s.callers[c]);
    var (session, stored) := Read(s.stored);
    EnterRefreshDecides(parse, s.(stored := stored), ByCaller(c), session, now);
    var (s1, a) := EnterRefresh(parse, s.(stored := stored), ByCaller(c), session, now);
    assert RefreshDecision(parse, s.(stored := stored), Step(parse, s, RequestReplied(c, Rejected(f), now)),
                           ByCaller(c), session, now, a);
  }

  /** A refusal of the second request is thrown, after the handler if it is an unsuppressed 401. */
  lemma SecondRefusalIsThrown(parse: DateParser, s: State, c: nat, f: Failure, now: int)
    requires Inv(s) && c in s.callers && s.callers[c].stage.Sending? && s.callers[c].stage.leg.Second?
    ensures var s' := Step(parse, s, RequestReplied(c, Rejected(f), now));
      var fires := f.status == Some(401) && s.callers[c].kind == RequestCall(false) && s.handler != Unset;
      && (if fires then HandlerEffect(s, s', c) else s'.stored == s.stored && SameEffects(s, s'))
      && OthersKept(s, s', c)
      && s'.callers[c] == s.callers[c].(stage := Done(Thrown(f)), handled := if fires then 1 else 0)
      && SameEpisodes(s, s') && s'.handler == s.handler && s'.entries == s.entries
  {
    hide Read, SingleFlight, EpisodesOk, EffectsOk;
    assert CallerOk(s.episodes, s.callers[c]);
    ReadIsSoundAndIdempotent(s.stored);
  }

  /** A call with its value in hand sends a request with the token of that session, or ends without one. */
  lemma ResumeDecides(parse: DateParser, s: State, c: nat)
    requires Inv(s) && c in s.callers && s.callers[c].stage.Ready?
    ensures var s' := Step(parse, s, Resume(c));
      var (before, Ready(leg, session)) := (s.callers[c], s.callers[c].stage);
      match Token(session)
      case Some(token) =>
        s' == s.(callers := s.callers[c := before.(stage := Sending(leg, token), sent := before.sent + [token])])
      case None =>
        if leg.First? then EndsWith(s, s', c, Unauthenticated)
        else before.rejected.Some? && EndsWith(s, s', c, Thrown(before.rejected.value))
  {
    hide Token, SingleFlight, EpisodesOk, EffectsOk;
    assert CallerOk(s.episodes, s.callers[c]);
  }

  // ----- Over runs -----

  /** No request gives up on a 401 without a refresh: a 401 is thrown only after a first 401 entered one and then either
      a second request was refused too, or the refresh left no token to send it with. */
  lemma NoUnauthorizedWithoutRefresh(parse: DateParser, stored: Stored, evs: seq<Event>, c: nat)
    requires c in Run(parse, Init(stored), evs).callers
    ensures var caller := Run(parse, Init(stored), evs).callers[c];
      caller.stage.Done? && caller.stage.verdict.Thrown? && caller.stage.verdict.failure.status == Some(401) ==>
        && caller.rejected.Some? && caller.rejected.value.status == Some(401)
        && (|caller.sent| == 2 || (|caller.sent| == 1 && caller.stage.verdict.failure == caller.rejected.value))
  {
    hide Run, SingleFlight, EpisodesOk, EffectsOk;
    RunKeepsInv(parse, stored, evs);
    var s := Run(parse, Init(stored), evs);
    assert CallerOk(s.episodes, s.callers[c]);
  }

  /** A login stores what the response carries, a sign-out empties the storage, and an invalidation ends a readable
      session; none of them touches the refresh. */
  lemma LoginAndSignOutDecide(parse: DateParser, s: State, login: Json, tenantId: Option<string>, handler: Handler)
    ensures var s' := Step(parse, s, Login(login, tenantId));
      && SameEpisodes(s, s') && SameEffects(s, s') && s'.callers == s.callers
      && (login.JNull? ==> s' == s)
      && (!login.JNull? && IsText(Field(login, KSessionId)) && Acceptable(login) ==>
            Read(s'.stored).0 == Some(Decode(login).(tenantId := Kept(tenantId))))
      && (!login.JNull? && !(IsText(Field(login, KSessionId)) && Acceptable(login)) ==> Read(s'.stored).0.None?)
    ensures Step(parse, s, SignOut) == s.(stored := Missing)
    ensures Step(parse, s, SetHandler(handler)) == s.(handler := handler)
    ensures var s' := Step(parse, s, Invalidate);
      && SameEpisodes(s, s') && s'.callers == s.callers
      && if Read(s.stored).0.Some? then Cleared(s, s', ByApplication)
         else s'.stored == Read(s.stored).1 && SameEffects(s, s')
  {
    if !login.JNull? { PersistThenRead(login, tenantId); }
    hide Read, Snapshot, Acceptable;
  }
}
