/** The mutation machine of the plan detail page as a transition system: user actions, answers and the unmount arrive in
    any order; a step runs to the next await. */
module PlanMutations {
  import opened Prelude

  datatype Action =
    | Activate | Deprecate | Archive | Delete
    | SetLimit(key: string, value: int) | ResetLimit(key: string)
  {
    predicate Lifecycle() { Activate? || Deprecate? || Archive? }

    /** Confirmed and retried inside a dialog. */
    predicate InDialog() { !Activate? && !SetLimit? }

    predicate Limit() { SetLimit? || ResetLimit? }

    function Target(): string {
      if Activate? then "active" else if Deprecate? then "deprecated" else "archived"
    }
  }

  /** A failed mutation: a lost response has no status. */
  datatype Refusal = Refusal(status: Option<int>, invalidTransition: bool)
  {
    /** Without a status below 500 the backend may have acted or not, so nothing has been decided yet. */
    predicate Retryable() { status.None? || status.value >= 500 }
  }

  datatype Plan = Plan(status: string)
  datatype Report = Report(action: Action, failure: Refusal)
  datatype Dialog = Dialog(id: nat, action: Action, open: bool)

  /** Waiting for the mutation itself, for the read after its success, or for the read after its failure. */
  datatype Stage = Requested | Reconciling | Recovering(failure: Refusal)

  datatype Mutation = Mutation(action: Action, retry: bool, stage: Stage)

  /** `mutations` holds the suspended calls of `run`, by position in the log `sent` of every request sent. */
  datatype State = State(plan: Option<Plan>, mounted: bool, inFlight: bool, busy: Option<Action>,
                         feedback: Option<Report>, unresolved: Option<Report>, denied: bool,
                         dialog: Option<Dialog>, dialogCount: nat, mutations: map<nat, Mutation>, sent: seq<Action>)
  {
    /** `feedback ?? unresolved` */
    function Shown(): Option<Report> { if feedback.Some? then feedback else unresolved }

    predicate DialogOpen() { dialog.Some? && dialog.value.open }
  }

  const INITIAL := State(None, true, false, None, None, None, false, None, 0, map[], [])

  datatype Reply = Accepted(newStatus: Option<string>) | Rejected(failure: Refusal)

  /** Send covers the activate button, the confirm button of a dialog and the save button of a limit. */
  datatype Event =
    | Send(action: Action)
    | Retry
    | OpenDialog(action: Action)
    | CloseDialog
    | DialogClosed(id: nat)
    | Replied(m: nat, reply: Reply)
    | Reread(m: nat, loaded: Option<Plan>)
    | LoadReplied(loaded: Option<Plan>)
    | Unmount

  // ----- Steps -----

  /** `run` up to its first await. */
  function StartRun(s: State, action: Action, retry: bool): State {
    if s.inFlight || s.plan.None? || s.denied then s
    else if !retry && action.Lifecycle() && s.unresolved.Some? then s
    else s.(inFlight := true, busy := Some(action), feedback := if retry then s.feedback else None,
            mutations := s.mutations[|s.sent| := Mutation(action, retry, Requested)], sent := s.sent + [action])
  }

  /** The `finally` block. */
  function Finish(s: State, m: nat): State {
    s.(mutations := s.mutations - {m}, inFlight := false, busy := if s.mounted then None else s.busy)
  }

  function Shut(dialog: Option<Dialog>): Option<Dialog> {
    if dialog.Some? then Some(dialog.value.(open := false)) else None
  }

  /** The end of the catch block. */
  function ReportFailure(s: State, action: Action, failure: Refusal): State {
    var report := Some(Report(action, failure));
    s.(feedback := report,
       unresolved := if !action.Lifecycle() then s.unresolved else if failure.Retryable() then report else None)
  }

  /** Whether a failure is followed by a reconciling read. */
  predicate Rereads(mutation: Mutation, failure: Refusal) {
    if mutation.action.Lifecycle() then
      if mutation.retry then failure.status != Some(401) && failure.status != Some(403) else failure.invalidTransition
    else mutation.action.Limit() && failure.status != Some(401)
  }

  function StepReplied(s: State, m: nat, reply: Reply): State
    requires m in s.mutations
  {
    var mutation := s.mutations[m];
    var suspend := (stage: Stage) => s.mutations[m := mutation.(stage := stage)];
    if !s.mounted then Finish(s, m)
    else
      match reply
      case Accepted(newStatus) =>
        if mutation.action.Delete? then Finish(s, m)
        else if mutation.action.Limit() then s.(mutations := suspend(Reconciling))
        else
          var accepted := if newStatus.Some? then newStatus.value else mutation.action.Target();
          s.(plan := if s.plan.Some? then Some(s.plan.value.(status := accepted)) else None,
             mutations := suspend(Reconciling))
      case Rejected(failure) =>
        var s := s.(denied := s.denied || failure.status == Some(403));
        if Rereads(mutation, failure) then s.(mutations := suspend(Recovering(failure)))
        else Finish(ReportFailure(s, mutation.action, failure), m)
  }

  function StepReread(s: State, m: nat, loaded: Option<Plan>): State
    requires m in s.mutations && !s.mutations[m].stage.Requested?
  {
    var mutation := s.mutations[m];
    if !s.mounted then Finish(s, m)
    else
      var s := if mutation.action.Lifecycle() && loaded.Some? then s.(plan := loaded) else s;
      match mutation.stage
      case Recovering(failure) => Finish(ReportFailure(s, mutation.action, failure), m)
      case _ =>
        Finish(s.(feedback := None, unresolved := if mutation.action.Lifecycle() then None else s.unresolved,
                  dialog := Shut(s.dialog)), m)
  }

  function StepCloseDialog(s: State): State {
    if s.inFlight then s
    else
      s.(dialog := Shut(s.dialog),
         feedback := if s.feedback.Some? && s.feedback.value.action.InDialog() then None else s.feedback,
         unresolved := if s.unresolved.Some? && s.unresolved.value.action.InDialog() then None else s.unresolved)
  }

  /** One atomic step. Controls of an unmounted page cannot be used, a dialog is opened only for a dialog action, and
      an answer nobody waits for leaves the state unchanged. */
  function Step(s: State, ev: Event): State {
    match ev
    case Send(action) => if s.mounted then StartRun(s, action, false) else s
    case Retry => if s.mounted && s.Shown().Some? then StartRun(s, s.Shown().value.action, true) else s
    case OpenDialog(action) =>
      if !s.mounted || !action.InDialog() || s.denied || s.busy.Some? || s.plan.None? then s
      else s.(feedback := None, dialogCount := s.dialogCount + 1,
              dialog := Some(Dialog(s.dialogCount + 1, action, true)))
    case CloseDialog => if s.mounted then StepCloseDialog(s) else s
    case DialogClosed(id) => if s.dialog.Some? && s.dialog.value.id == id then s.(dialog := None) else s
    case Replied(m, reply) =>
      if m in s.mutations && s.mutations[m].stage.Requested? then StepReplied(s, m, reply) else s
    case Reread(m, loaded) =>
      if m in s.mutations && !s.mutations[m].stage.Requested? then StepReread(s, m, loaded) else s
    case LoadReplied(loaded) => if s.mounted then s.(plan := loaded) else s
    case Unmount => s.(mounted := false)
  }

  function Run(s: State, evs: seq<Event>): State
    decreases |evs|
  {
    if evs == [] then s else Run(Step(s, evs[0]), evs[1..])
  }

  // ----- Invariant -----

  /** At most one mutation, under the flag; on a mounted page it is the busy action. After a refusal for lack of
      permission none is awaited any more, only its read. */
  predicate OneMutation(s: State) {
    && (s.inFlight <==> s.mutations != map[])
    && (forall i, j :: i in s.mutations && j in s.mutations ==> i == j)
    && (forall i :: i in s.mutations ==> i < |s.sent| && s.sent[i] == s.mutations[i].action)
    && (s.mounted ==> (s.busy.Some? <==> s.inFlight))
    && (forall i :: i in s.mutations ==>
          && (s.mounted ==> s.busy == Some(s.mutations[i].action))
          && (s.denied ==> s.mutations[i].stage.Recovering?))
  }

  /** Only retryable lifecycle failures stay unresolved, lifecycle feedback says the same, and a lifecycle mutation in
      flight meanwhile is that very action sent again. */
  predicate UnresolvedOk(s: State) {
    && (s.unresolved.Some? ==> s.unresolved.value.action.Lifecycle() && s.unresolved.value.failure.Retryable())
    && (s.feedback.Some? && s.feedback.value.action.Lifecycle() ==>
          s.unresolved == if s.feedback.value.failure.Retryable() then s.feedback else None)
    && (forall i :: i in s.mutations && s.mutations[i].action.Lifecycle() && s.unresolved.Some? ==>
          s.mutations[i].action == s.unresolved.value.action && s.mutations[i].retry)
  }

  predicate Inv(s: State) { OneMutation(s) && UnresolvedOk(s) }

  lemma StartKeepsInv(s: State, action: Action, retry: bool)
    requires Inv(s) && s.mounted && (retry ==> s.Shown().Some? && action == s.Shown().value.action)
    ensures Inv(StartRun(s, action, retry))
  {
    var s' := StartRun(s, action, retry);
    if s' != s { assert |s.sent| in s'.mutations; }
  }

  lemma ReportKeepsInv(s: State, m: nat, failure: Refusal)
    requires Inv(s) && m in s.mutations && s.mounted
    ensures Inv(Finish(ReportFailure(s, s.mutations[m].action, failure), m))
  {}

  lemma RepliedKeepsInv(s: State, m: nat, reply: Reply)
    requires Inv(s) && m in s.mutations && s.mutations[m].stage.Requested?
    ensures Inv(StepReplied(s, m, reply))
  {
    hide ReportFailure, Finish, Rereads;
    FinishKeepsInv(s, m);
    if reply.Rejected? && s.mounted {
      var s1 := s.(denied := s.denied || reply.failure.status == Some(403));
      if !Rereads(s.mutations[m], reply.failure) { DenialKeepsReport(s, m, reply.failure); }
    }
  }

  lemma FinishKeepsInv(s: State, m: nat)
    requires Inv(s) && m in s.mutations
    ensures Inv(Finish(s, m))
  {}

  lemma DenialKeepsReport(s: State, m: nat, failure: Refusal)
    requires Inv(s) && m in s.mutations && s.mounted
    ensures Inv(Finish(ReportFailure(s.(denied := s.denied || failure.status == Some(403)), s.mutations[m].action,
                                     failure), m))
  {
    ReportKeepsInv(s, m, failure);
  }

  lemma RereadKeepsInv(s: State, m: nat, loaded: Option<Plan>)
    requires Inv(s) && m in s.mutations && !s.mutations[m].stage.Requested?
    ensures Inv(StepReread(s, m, loaded))
  {
    FinishKeepsInv(s, m);
    if s.mounted && s.mutations[m].stage.Recovering? {
      var s1 := if s.mutations[m].action.Lifecycle() && loaded.Some? then s.(plan := loaded) else s;
      ReportKeepsInv(s1, m, s.mutations[m].stage.failure);
    }
  }

  lemma StepKeepsInv(s: State, ev: Event)
    requires Inv(s)
    ensures Inv(Step(s, ev))
  {
    hide StartRun, StepReplied, StepReread;
    match ev
    case Send(action) => if s.mounted { StartKeepsInv(s, action, false); }
    case Retry => if s.mounted && s.Shown().Some? { StartKeepsInv(s, s.Shown().value.action, true); }
    case Replied(m, reply) => if m in s.mutations && s.mutations[m].stage.Requested? { RepliedKeepsInv(s, m, reply); }
    case Reread(m, loaded) => if m in s.mutations && !s.mutations[m].stage.Requested? { RereadKeepsInv(s, m, loaded); }
    case _ =>
  }

  lemma {:induction false} RunFromKeepsInv(s: State, evs: seq<Event>)
    requires Inv(s)
    ensures Inv(Run(s, evs))
    decreases |evs|
  {
    hide Step, Inv;
    if evs != [] {
      StepKeepsInv(s, evs[0]);
      RunFromKeepsInv(Step(s, evs[0]), evs[1..]);
    }
  }

  lemma RunKeepsInv(evs: seq<Event>)
    ensures Inv(Run(INITIAL, evs))
  {
    RunFromKeepsInv(INITIAL, evs);
  }

  // ----- Guarantees -----

  /** In every run at most one mutation is in flight, exactly while the flag is set. */
  lemma OneMutationAtATime(evs: seq<Event>)
    ensures var s := Run(INITIAL, evs);
      (s.inFlight <==> s.mutations != map[]) && forall i, j :: i in s.mutations && j in s.mutations ==> i == j
  {
    RunKeepsInv(evs);
  }

  /** Lifecycle feedback always agrees with the unresolved action, which is empty for a decided failure. */
  lemma LifecycleFeedbackAgrees(evs: seq<Event>)
    ensures var s := Run(INITIAL, evs);
      s.feedback.Some? && s.feedback.value.action.Lifecycle() ==>
        s.unresolved == if s.feedback.value.failure.Retryable() then s.feedback else None
  {
    RunKeepsInv(evs);
  }

  /** After a 403 no request is ever sent again. */
  lemma {:induction false} DeniedIsFinal(s: State, evs: seq<Event>)
    requires s.denied
    ensures Run(s, evs).denied && Run(s, evs).sent == s.sent
    decreases |evs|
  {
    hide Step;
    if evs != [] {
      DeniedSendsNothing(s, evs[0]);
      DeniedIsFinal(Step(s, evs[0]), evs[1..]);
    }
  }

  lemma DeniedSendsNothing(s: State, ev: Event)
    requires s.denied
    ensures Step(s, ev).denied && Step(s, ev).sent == s.sent
  {}

  lemma UnresolvedKeepsItsAction(s: State, ev: Event)
    requires Inv(s) && s.unresolved.Some? && Step(s, ev).unresolved.Some?
    ensures Step(s, ev).unresolved.value.action == s.unresolved.value.action
  {}

  /** While an outcome is unresolved a step sends a lifecycle request only as the identical retry. */
  lemma OnlyTheIdenticalRetryIsSent(s: State, ev: Event)
    requires Inv(s) && s.unresolved.Some? && Step(s, ev).sent != s.sent
    ensures var sent := Step(s, ev).sent;
      && !s.inFlight && |sent| == |s.sent| + 1 && sent[..|s.sent|] == s.sent
      && (sent[|s.sent|].Lifecycle() ==> ev == Retry && sent[|s.sent|] == s.unresolved.value.action)
  {}

  /** The outcome stays unresolved throughout the run. */
  predicate StaysUnresolved(s: State, evs: seq<Event>)
    decreases |evs|
  {
    s.unresolved.Some? && (evs != [] ==> StaysUnresolved(Step(s, evs[0]), evs[1..]))
  }

  /** Over any run that leaves it unresolved, every lifecycle request sent is that same action. */
  lemma {:induction false} UnresolvedSendsOnlyItself(s: State, evs: seq<Event>)
    requires Inv(s) && StaysUnresolved(s, evs)
    ensures var s' := Run(s, evs);
      && Inv(s') && s'.unresolved.Some? && s'.unresolved.value.action == s.unresolved.value.action
      && |s'.sent| >= |s.sent| && s'.sent[..|s.sent|] == s.sent
      && forall i :: |s.sent| <= i < |s'.sent| && s'.sent[i].Lifecycle() ==> s'.sent[i] == s.unresolved.value.action
    decreases |evs|
  {
    hide Step;
    if evs != [] {
      var next := Step(s, evs[0]);
      StepKeepsInv(s, evs[0]);
      UnresolvedKeepsItsAction(s, evs[0]);
      if next.sent != s.sent { OnlyTheIdenticalRetryIsSent(s, evs[0]); }
      UnresolvedSendsOnlyItself(next, evs[1..]);
      var sent := Run(s, evs).sent;
      assert sent[..|s.sent|] == sent[..|next.sent|][..|s.sent|];
      forall i | |s.sent| <= i < |sent| && sent[i].Lifecycle() ensures sent[i] == s.unresolved.value.action {
        if i < |next.sent| { assert sent[i] == sent[..|next.sent|][i]; }
      }
    }
  }

  /** An unresolved outcome is resolved only by closing a dialog or by the same action sent again: accepted, or
      refused for good. */
  lemma ResolvedOnlyByRetryOrClose(s: State, ev: Event)
    requires Inv(s) && s.unresolved.Some? && Step(s, ev).unresolved.None?
    ensures
      || (ev.CloseDialog? && !s.inFlight && s.unresolved.value.action.InDialog())
      || (&& ev.Replied? && ev.m in s.mutations && s.mutations[ev.m].action == s.unresolved.value.action
          && ev.reply.Rejected? && !ev.reply.failure.Retryable())
      || (&& ev.Reread? && ev.m in s.mutations && s.mutations[ev.m].action == s.unresolved.value.action
          && match s.mutations[ev.m].stage
             case Reconciling => true
             case Recovering(failure) => !failure.Retryable()
             case Requested => false)
  {}

  // ----- With modal dialogs -----

  /** What the page offers: an open dialog hides every other control, and reports its closing once it is closed. */
  predicate Offered(s: State, ev: Event) {
    match ev
    case Send(action) => if s.DialogOpen() then action == s.dialog.value.action else !action.InDialog()
    case Retry => s.Shown().Some? ==> (s.Shown().value.action.InDialog() <==> s.DialogOpen())
    case OpenDialog(_) => !s.DialogOpen()
    case CloseDialog => s.DialogOpen()
    case DialogClosed(id) => s.DialogOpen() ==> id != s.dialog.value.id
    case _ => true
  }

  predicate OfferedRun(s: State, evs: seq<Event>)
    decreases |evs|
  {
    evs == [] || (Offered(s, evs[0]) && OfferedRun(Step(s, evs[0]), evs[1..]))
  }

  predicate OpenFor(s: State, action: Action) {
    if action.InDialog() then s.DialogOpen() && s.dialog.value.action == action else !s.DialogOpen()
  }

  /** Everything that concerns a dialog action concerns the open dialog. */
  predicate Held(s: State) {
    s.mounted ==>
      && (s.dialog.Some? ==> s.dialog.value.action.InDialog())
      && (s.unresolved.Some? && s.unresolved.value.action.InDialog() ==> OpenFor(s, s.unresolved.value.action))
      && (s.feedback.Some? && s.feedback.value.action.InDialog() ==> OpenFor(s, s.feedback.value.action))
      && (forall i :: i in s.mutations ==> OpenFor(s, s.mutations[i].action))
  }

  lemma StepKeepsHeld(s: State, ev: Event)
    requires Inv(s) && Held(s) && Offered(s, ev)
    ensures Held(Step(s, ev))
  {
    hide StartRun, StepReplied, StepReread;
    match ev
    case Send(action) => StartKeepsHeld(s, action, false);
    case Retry => if s.Shown().Some? { StartKeepsHeld(s, s.Shown().value.action, true); }
    case Replied(m, reply) => if m in s.mutations && s.mutations[m].stage.Requested? { RepliedKeepsHeld(s, m, reply); }
    case Reread(m, loaded) => if m in s.mutations && !s.mutations[m].stage.Requested? { RereadKeepsHeld(s, m, loaded); }
    case _ =>
  }

  lemma StartKeepsHeld(s: State, action: Action, retry: bool)
    requires Inv(s) && Held(s)
    ensures s.mounted && OpenFor(s, action) ==> Held(StartRun(s, action, retry))
  {}

  lemma RepliedKeepsHeld(s: State, m: nat, reply: Reply)
    requires Inv(s) && Held(s) && m in s.mutations && s.mutations[m].stage.Requested?
    ensures Held(StepReplied(s, m, reply))
  {}

  lemma RereadKeepsHeld(s: State, m: nat, loaded: Option<Plan>)
    requires Inv(s) && Held(s) && m in s.mutations && !s.mutations[m].stage.Requested?
    ensures Held(StepReread(s, m, loaded))
  {
    assert forall i :: i in s.mutations ==> i == m;
    if s.mounted {
      assert OpenFor(s, s.mutations[m].action);
      assert StepReread(s, m, loaded).mutations == map[];
      hide Inv;
    }
  }

  lemma {:induction false} OfferedRunKeepsHeld(s: State, evs: seq<Event>)
    requires Inv(s) && Held(s) && OfferedRun(s, evs)
    ensures Held(Run(s, evs))
    decreases |evs|
  {
    hide Step, Inv, Held, Offered;
    if evs != [] {
      StepKeepsInv(s, evs[0]);
      StepKeepsHeld(s, evs[0]);
      OfferedRunKeepsHeld(Step(s, evs[0]), evs[1..]);
    }
  }

  /** An unresolved deprecation or archiving is always held by its own open dialog, so closing another dialog never
      discards it. */
  lemma UnresolvedIsHeldByItsDialog(evs: seq<Event>)
    requires OfferedRun(INITIAL, evs)
    ensures var s := Run(INITIAL, evs);
      s.mounted && s.unresolved.Some? && s.unresolved.value.action.InDialog() ==>
        s.DialogOpen() && s.dialog.value.action == s.unresolved.value.action
  {
    OfferedRunKeepsHeld(INITIAL, evs);
    hide Run;
  }
}
