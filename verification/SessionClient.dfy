/** The module's own form: module variables and sessionStorage updated step by step. Each method is the code between
    two awaits, proved equal to the corresponding step of SessionProtocol. */
module SessionClient {
  import opened Prelude
  import opened SessionSnapshot
  import opened SessionProtocol

  class Client {
    const parse: DateParser
    var stored: Stored
    var hint: Option<Hint>
    var inFlightSessionRefresh: Option<nat>
    var retryUnauthorizedHandler: Handler
    // The promises created so far and the calls suspended on them.
    var episodes: seq<Episode>
    var callers: map<nat, Caller>
    ghost var hints: multiset<Origin>
    ghost var events: multiset<Origin>
    ghost var entries: nat

    ghost function View(): State
      reads this
    {
      State(stored, hint, inFlightSessionRefresh, retryUnauthorizedHandler, episodes, callers, hints, events, entries)
    }

    constructor (parse: DateParser, stored: Stored)
      ensures this.parse == parse && View() == Init(stored)
    {
      this.parse := parse;
      this.stored, hint, inFlightSessionRefresh, retryUnauthorizedHandler := stored, None, None, Unset;
      episodes, callers, hints, events, entries := [], map[], multiset{}, multiset{}, 0;
    }

    method PersistConsoleShellSession(login: Json, tenantId: Option<string>)
      requires !login.JNull?
      modifies this`stored
      ensures stored == Parsed(Snapshot(login, tenantId))
    {
      stored := Parsed(Snapshot(login, tenantId));
    }

    method ReadConsoleShellSession() returns (session: Option<Session>)
      modifies this`stored
      ensures (session, stored) == Read(old(stored))
    {
      if stored.Missing? { return None; }
      if stored.Unparsable? {
        ClearConsoleShellSession();
        return None;
      }
      var parsed := stored.json;
      if !IsText(Field(parsed, KSessionId)) { return None; }
      if !IsText(Field(parsed, KAuthenticationState))
         || !ValidAuthenticationState(Field(parsed, KAuthenticationState).value.s)
         || !IsText(Field(parsed, KStatusView)) || !ValidStatusView(Field(parsed, KStatusView).value.s) {
        ClearConsoleShellSession();
        return None;
      }
      if !IsText(Field(parsed, KIssuedAt)) || !IsText(Field(parsed, KExpiresAt))
         || !IsText(Field(parsed, KRefreshExpiresAt)) {
        ClearConsoleShellSession();
        return None;
      }
      if Truthy(Field(parsed, KTokenSet)) && !ValidTokenSet(Field(parsed, KTokenSet).value) {
        ClearConsoleShellSession();
        return None;
      }
      session := Some(Decode(parsed));
    }

    method ClearConsoleShellSession()
      modifies this`stored
      ensures stored == Missing
    {
      stored := Missing;
    }

    method PersistExpiredConsoleSessionHint(ghost o: Origin)
      modifies this`hint, this`hints
      ensures hint == Some(ExpiredHint) && hints == old(hints) + multiset{o}
    {
      hint := Some(ExpiredHint);
      hints := hints + multiset{o};
    }

    method EmitConsoleSessionInvalidated(ghost o: Origin)
      modifies this`events
      ensures events == old(events) + multiset{o}
    {
      events := events + multiset{o};
    }

    method ClearUnusableConsoleShellSession(ghost o: Origin)
      modifies this`stored, this`hint, this`hints, this`events
      ensures View() == ClearUnusable(old(View()), o)
    {
      ClearConsoleShellSession();
      PersistExpiredConsoleSessionHint(o);
      EmitConsoleSessionInvalidated(o);
    }

    method InvalidateConsoleShellSession(ghost o: Origin)
      modifies this`stored, this`hint, this`hints, this`events
      ensures View() == InvalidateSession(old(View()), o)
    {
      hide Read;
      var session := ReadConsoleShellSession();
      if session.Some? { ClearUnusableConsoleShellSession(o); }
    }

    /** refreshConsoleShellSession up to its first await. */
    method RefreshConsoleShellSession(session: Option<Session>, now: int, ghost o: Origin) returns (a: Awaited)
      modifies this`stored, this`hint, this`hints, this`events, this`entries, this`inFlightSessionRefresh, this`episodes
      ensures (View(), a) == EnterRefresh(parse, old(View()), o, session, now)
    {
      hide CanRefresh;
      entries := entries + 1;
      if session.None? {
        ClearConsoleShellSession();
        return Now(None);
      }
      if !CanRefresh(parse, session, now) {
        ClearUnusableConsoleShellSession(o);
        return Now(None);
      }
      if inFlightSessionRefresh.Some? { return Joined(inFlightSessionRefresh.value); }
      // The new promise makes its first refresh call before it is stored.
      inFlightSessionRefresh := Some(|episodes|);
      episodes := episodes + [Episode(session.value, 1, [], None)];
      a := Joined(inFlightSessionRefresh.value);
    }

    /** ensureConsoleSession up to its first await. */
    method EnsureConsoleSession(clock: Clock, ghost o: Origin) returns (a: Awaited)
      modifies this`stored, this`hint, this`hints, this`events, this`entries, this`inFlightSessionRefresh, this`episodes
      ensures (View(), a) == EnterEnsure(parse, old(View()), o, clock)
    {
      hide Read, Usable, CanRefresh, EnterRefresh;
      var session := ReadConsoleShellSession();
      if session.None? { return Now(None); }
      if Usable(parse, session, clock.t1, ACCESS_TOKEN_REFRESH_WINDOW_MS) { return Now(session); }
      if !CanRefresh(parse, session, clock.t2) {
        ClearUnusableConsoleShellSession(o);
        return Now(None);
      }
      a := RefreshConsoleShellSession(session, clock.t3, o);
    }

    /** Park the call c at its await. */
    method Park(c: nat, caller: Caller, leg: Leg, a: Awaited)
      modifies this`callers
      ensures View() == Suspend(old(View()), c, caller, leg, a)
    {
      match a
      case Joined(k) =>
        callers := callers[c := caller.(stage := Waiting(leg, k), awaited := caller.awaited + [Join(leg, k)])];
      case Now(session) =>
        callers := callers[c := caller.(stage := Arrive(caller.kind, leg, session))];
    }

    method CallEnsure(c: nat, clock: Clock)
      requires c !in callers
      modifies this
      ensures View() == Step(parse, old(View()), Ensure(c, clock))
    {
      hide EnterEnsure, EnterRefresh, Read;
      var a := EnsureConsoleSession(clock, ByCaller(c));
      Park(c, NewCaller(EnsureCall), First, a);
    }

    method CallRefresh(c: nat, arg: RefreshArg, now: int)
      requires c !in callers
      modifies this
      ensures View() == Step(parse, old(View()), Refresh(c, arg, now))
    {
      hide EnterRefresh, Read;
      var session;
      if arg.Given? { session := arg.session; } else { session := ReadConsoleShellSession(); }
      var a := RefreshConsoleShellSession(session, now, ByCaller(c));
      Park(c, NewCaller(RefreshCall), First, a);
    }

    /** requestConsoleSessionJson up to its first await. */
    method RequestConsoleSessionJson(c: nat, suppress: bool, clock: Clock)
      requires c !in callers
      modifies this
      ensures View() == Step(parse, old(View()), Request(c, suppress, clock))
    {
      hide EnterEnsure, EnterRefresh, Read;
      var a := EnsureConsoleSession(clock, ByCaller(c));
      Park(c, NewCaller(RequestCall(suppress)), First, a);
    }

    /** A refresh call of episode k came back: retry once, or run the rest of the episode and its `finally`. */
    method OnRefreshReply(k: nat, reply: Reply)
      requires k < |episodes| && episodes[k].outcome.None?
      modifies this
      ensures View() == StepRefreshReplied(old(View()), k, reply)
    {
      hide Read, Snapshot;
      var e := episodes[k].(replies := episodes[k].replies + [reply]);
      if e.calls == 1 && RetryableReply(reply) {
        episodes := episodes[k := e.(calls := 2)];
        return;
      }
      if !FailedReply(reply) {
        PersistConsoleShellSession(reply.login, e.session.tenantId);
        var session := ReadConsoleShellSession();
        episodes := episodes[k := e.(outcome := Some(Renewed(session)))];
      } else {
        ClearUnusableConsoleShellSession(ByEpisode(k));
        episodes := episodes[k := e.(outcome := Some(Expired))];
      }
      inFlightSessionRefresh := None;
    }

    /** The await of call c is over: return the value, throw, or send the request with its token. */
    method OnResume(c: nat)
      requires c in callers
      modifies this`callers
      ensures View() == Step(parse, old(View()), Resume(c))
    {
      hide Token;
      var caller := callers[c];
      match caller.stage
      case Waiting(leg, k) =>
        if k < |episodes| && episodes[k].outcome.Some? {
          callers := callers[c := caller.(stage := Arrive(caller.kind, leg, episodes[k].outcome.value.Value()))];
        }
      case Ready(leg, session) =>
        var token := Token(session);
        if token.Some? {
          callers := callers[c := caller.(stage := Sending(leg, token.value), sent := caller.sent + [token.value])];
        } else if leg.First? || caller.rejected.None? {
          callers := callers[c := caller.(stage := Done(Unauthenticated))];
        } else {
          callers := callers[c := caller.(stage := Done(Thrown(caller.rejected.value)))];
        }
      case _ =>
    }

    /** The request of call c was answered. */
    method OnRequestReply(c: nat, answer: RequestReply, now: int)
      requires c in callers && callers[c].stage.Sending?
      modifies this
      ensures View() == Step(parse, old(View()), RequestReplied(c, answer, now))
    {
      hide Read, EnterRefresh, InvalidateSession;
      var caller := callers[c];
      if answer.Answered? {
        callers := callers[c := caller.(stage := Done(Fulfilled))];
        return;
      }
      if caller.stage.leg.First? {
        if answer.failure.status != Some(401) {
          callers := callers[c := caller.(stage := Done(Thrown(answer.failure)))];
          return;
        }
        var session := ReadConsoleShellSession();
        var a := RefreshConsoleShellSession(session, now, ByCaller(c));
        Park(c, caller.(rejected := Some(answer.failure)), Second, a);
        return;
      }
      var handled := caller.handled;
      if answer.failure.status == Some(401) && caller.kind == RequestCall(false) {
        match retryUnauthorizedHandler
        case Unset =>
        case Invalidates =>
          handled := handled + 1;
          InvalidateConsoleShellSession(ByCaller(c));
        case Foreign =>
          handled := handled + 1;
      }
      callers := callers[c := caller.(stage := Done(Thrown(answer.failure)), handled := handled)];
    }
  }
}
