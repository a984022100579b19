/** What every user action and every answer does to the plan page, over a whole exchange of request, answer and read. */
module PlanOutcomes {
  import opened Prelude
  import opened PlanMutations

  // ----- Sending -----

  /** Whether a request for the action may leave the page: nothing is in flight, a plan is shown, permission was not
      denied, and a lifecycle action is sent past an unresolved outcome only as a retry. */
  predicate MaySend(s: State, action: Action, retry: bool) {
    && s.mounted && !s.inFlight && s.plan.Some? && !s.denied
    && (retry || s.unresolved.None? || action.Delete? || action.SetLimit? || action.ResetLimit?)
  }

  /** The one request sent, and nothing else on display but the busy action. */
  predicate Sends(s: State, s': State, action: Action, retry: bool) {
    && s'.sent == s.sent + [action] && s'.busy == Some(action) && s'.inFlight
    && s'.mutations == s.mutations[|s.sent| := Mutation(action, retry, Requested)]
    && s'.feedback == (if retry then s.feedback else None)
    && s' == s.(sent := s'.sent, busy := s'.busy, inFlight := true, mutations := s'.mutations, feedback := s'.feedback)
  }

  /** An action is sent exactly when it may be, and a retry sends exactly the action of the failure on display. */
  lemma SendsExactlyWhenAllowed(s: State, action: Action)
    ensures var s' := Step(s, Send(action));
      if MaySend(s, action, false) then Sends(s, s', action, false) else s' == s
    ensures var s' := Step(s, Retry);
      var shown := if s.feedback.Some? then s.feedback else s.unresolved;
      if shown.Some? && MaySend(s, shown.value.action, true) then Sends(s, s', shown.value.action, true) else s' == s
  {}

  /** No other event sends anything. */
  lemma NothingElseIsSent(s: State, ev: Event)
    requires !ev.Send? && !ev.Retry?
    ensures Step(s, ev).sent == s.sent
  {}

  // ----- Denial -----

  /** A 403 for a request of a mounted page. */
  predicate Denies(s: State, ev: Event) {
    && ev.Replied? && s.mounted && ev.m in s.mutations && s.mutations[ev.m].stage.Requested?
    && ev.reply.Rejected? && ev.reply.failure.status == Some(403)
  }

  predicate EverDenies(s: State, evs: seq<Event>)
    decreases |evs|
  {
    evs != [] && (Denies(s, evs[0]) || EverDenies(Step(s, evs[0]), evs[1..]))
  }

  lemma DeniedStep(s: State, ev: Event)
    ensures Step(s, ev).denied <==> s.denied || Denies(s, ev)
  {}

  /** The page is denied exactly when one of its requests was refused with a 403. */
  lemma {:induction false} DeniedExactlyByA403(s: State, evs: seq<Event>)
    ensures Run(s, evs).denied <==> s.denied || EverDenies(s, evs)
    decreases |evs|
  {
    hide Step, Denies;
    if evs != [] {
      DeniedStep(s, evs[0]);
      DeniedExactlyByA403(Step(s, evs[0]), evs[1..]);
    }
  }

  /** After a 403 nothing is sent in any run. */
  lemma NothingIsSentAfterA403(before: seq<Event>, ev: Event, after: seq<Event>)
    requires Denies(Run(INITIAL, before), ev)
    ensures var s := Run(INITIAL, before);
      Run(Step(s, ev), after).denied && Run(Step(s, ev), after).sent == s.sent
  {
    var s := Run(INITIAL, before);
    hide Run, Step;
    DeniedStep(s, ev);
    NothingElseIsSent(s, ev);
    DeniedIsFinal(Step(s, ev), after);
  }

  // ----- Answers -----

  /** The call has ended; the flag and the busy action are free again. */
  predicate Ended(s: State) { s.mutations == map[] && !s.inFlight && s.busy.None? }

  /** The statuses the lifecycle actions ask for. */
  function AskedStatus(action: Action): Option<string> {
    match action
    case Activate => Some("active")
    case Deprecate => Some("deprecated")
    case Archive => Some("archived")
    case _ => None
  }

  function Closed(dialog: Option<Dialog>): Option<Dialog> {
    match dialog case None => None case Some(d) => Some(Dialog(d.id, d.action, false))
  }

  /** An accepted deletion ends at once. Any other acceptance shows the new status of a lifecycle action immediately,
      then reads once; whatever the read brings, the call ends without failure, the dialog closes, and a lifecycle
      outcome is resolved. */
  lemma AcceptanceIsShown(s: State, m: nat, newStatus: Option<string>, loaded: Option<Plan>)
    requires Inv(s) && s.mounted && m in s.mutations && s.mutations[m].stage.Requested?
    ensures var action := s.mutations[m].action;
      var s1 := Step(s, Replied(m, Accepted(newStatus)));
      var s2 := Step(s1, Reread(m, loaded));
      if action.Delete? then Ended(s1) && s1 == s.(mutations := map[], inFlight := false, busy := None)
      else
        var asked := AskedStatus(action);
        var accepted := if asked.None? || s.plan.None? then s.plan
                        else Some(Plan(if newStatus.Some? then newStatus.value else asked.value));
        && s1 == s.(plan := accepted, mutations := map[m := s.mutations[m].(stage := Reconciling)])
        && Ended(s2)
        && s2 == s.(plan := if asked.Some? && loaded.Some? then loaded else accepted,
                    feedback := None, unresolved := if asked.Some? then None else s.unresolved,
                    dialog := Closed(s.dialog), mutations := map[], inFlight := false, busy := None)
  {
    assert s.mutations == map[m := s.mutations[m]];
  }

  /** Whether a refusal is reported only after a read: of the plan, after a refused retry or an invalid transition, and
      of the limits, unless the session is over. */
  predicate ReadsFirst(mutation: Mutation, failure: Refusal) {
    match mutation.action
    case Delete => false
    case SetLimit(_, _) => failure.status != Some(401)
    case ResetLimit(_) => failure.status != Some(401)
    case _ => if mutation.retry then failure.status != Some(401) && failure.status != Some(403)
              else failure.invalidTransition
  }

  /** Every refusal is reported with its action, at once or after that read, which only refreshes the plan of a
      lifecycle action; the dialog stays. A lifecycle outcome is unresolved exactly if it is lost or a server error. */
  lemma RefusalIsReported(s: State, m: nat, failure: Refusal, loaded: Option<Plan>)
    requires Inv(s) && s.mounted && m in s.mutations && s.mutations[m].stage.Requested?
    ensures var (mutation, action) := (s.mutations[m], s.mutations[m].action);
      var s1 := Step(s, Replied(m, Rejected(failure)));
      var s2 := if ReadsFirst(mutation, failure) then Step(s1, Reread(m, loaded)) else s1;
      && (ReadsFirst(mutation, failure) ==>
            s1 == s.(denied := s1.denied, mutations := map[m := mutation.(stage := Recovering(failure))]))
      && Ended(s2) && s2.feedback == Some(Report(action, failure))
      && s2.unresolved == (if AskedStatus(action).None? then s.unresolved
                           else if failure.status.None? || failure.status.value >= 500 then s2.feedback else None)
      && s2 == s.(feedback := s2.feedback, unresolved := s2.unresolved, denied := s1.denied,
                  plan := if ReadsFirst(mutation, failure) && AskedStatus(action).Some? && loaded.Some? then loaded
                          else s.plan,
                  mutations := map[], inFlight := false, busy := None)
  {
    assert s.mutations == map[m := s.mutations[m]];
    hide Inv;
  }

  /** Once the page is left, no answer shows anything any more; it only ends its call. */
  lemma AfterLeavingNothingShows(s: State, m: nat, reply: Reply, loaded: Option<Plan>, action: Action)
    requires Inv(s) && !s.mounted
    ensures Step(s, Replied(m, reply)) == s
         || Step(s, Replied(m, reply)) == s.(mutations := map[], inFlight := false)
    ensures Step(s, Reread(m, loaded)) == s || Step(s, Reread(m, loaded)) == s.(mutations := map[], inFlight := false)
    ensures m in s.mutations ==>
      (if s.mutations[m].stage.Requested? then Step(s, Replied(m, reply)) else Step(s, Reread(m, loaded))) != s
    ensures Step(s, Send(action)) == Step(s, Retry) == Step(s, OpenDialog(action)) == Step(s, CloseDialog)
         == Step(s, LoadReplied(loaded)) == s
  {
    if m in s.mutations { assert s.mutations - {m} == map[]; }
  }

  /** The page starts mounted, with nothing shown, busy, refused or sent; a read of the plan shows on it until it is
      left. */
  lemma PageLoadsAndLeaves(s: State, loaded: Option<Plan>)
    ensures INITIAL.mounted && !INITIAL.denied && !INITIAL.inFlight && INITIAL.sent == [] && INITIAL.mutations == map[]
    ensures INITIAL.plan.None? && INITIAL.busy.None? && INITIAL.feedback.None? && INITIAL.unresolved.None?
         && INITIAL.dialog.None?
    ensures Step(s, LoadReplied(loaded)) == if s.mounted then s.(plan := loaded) else s
    ensures Step(s, Unmount) == s.(mounted := false)
  {}

  // ----- Dialogs -----

  /** Exactly the actions that need a confirmation open a dialog, on a page with a plan that is neither busy nor denied;
      it is a new one, and earlier feedback is gone. */
  lemma DialogOpens(s: State, action: Action)
    ensures var s' := Step(s, OpenDialog(action));
      if s.mounted && (action.Deprecate? || action.Archive? || action.Delete? || action.ResetLimit?)
         && !s.denied && s.busy.None? && s.plan.Some? then
        && s'.dialogCount > s.dialogCount
        && s' == s.(feedback := None, dialogCount := s'.dialogCount,
                    dialog := Some(Dialog(s'.dialogCount, action, true)))
      else s' == s
  {}

  /** A dialog closes unless a request is in flight, and takes the feedback and the unresolved outcome of a confirmed
      action with it; those of an activation or a limit stay. Its closing animation removes that dialog only. */
  lemma DialogCloses(s: State, id: nat)
    ensures var s' := Step(s, CloseDialog);
      var confirmed := (report: Option<Report>) =>
        report.Some? && !report.value.action.Activate? && !report.value.action.SetLimit?;
      if s.mounted && !s.inFlight then
        s' == s.(dialog := Closed(s.dialog), feedback := if confirmed(s.feedback) then None else s.feedback,
                 unresolved := if confirmed(s.unresolved) then None else s.unresolved)
      else s' == s
    ensures Step(s, DialogClosed(id)) ==
      if s.dialog.Some? && s.dialog.value.id == id then s.(dialog := None) else s
  {}
}
