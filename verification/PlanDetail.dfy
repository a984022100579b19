/** The page's own form: the inFlight, mounted and dialogCount refs and the state setters of run, perform, openDialog
    and closeDialog, each proved equal to its step of PlanMutations. */
module PlanDetail {
  import opened Prelude
  import opened PlanMutations

  class Page {
    var plan: Option<Plan>
    var mounted: bool
    var inFlight: bool
    var busy: Option<Action>
    var feedback: Option<Report>
    var unresolved: Option<Report>
    var denied: bool
    var dialog: Option<Dialog>
    var dialogCount: nat
    // The suspended calls of run, by the position of their request in the log.
    var mutations: map<nat, Mutation>
    var sent: seq<Action>

    ghost function View(): State
      reads this
    {
      State(plan, mounted, inFlight, busy, feedback, unresolved, denied, dialog, dialogCount, mutations, sent)
    }

    constructor ()
      ensures View() == INITIAL
    {
      plan, mounted, inFlight, busy, feedback, unresolved := None, true, false, None, None, None;
      denied, dialog, dialogCount, mutations, sent := false, None, 0, map[], [];
    }

    /** run up to the first await of perform. */
    method RunAction(action: Action, retry: bool)
      modifies this
      ensures View() == StartRun(old(View()), action, retry)
    {
      if inFlight || plan.None? || denied { return; }
      if !retry && action.Lifecycle() && unresolved.Some? { return; }
      inFlight := true;
      busy := Some(action);
      if !retry { feedback := None; }
      mutations := mutations[|sent| := Mutation(action, retry, Requested)];
      sent := sent + [action];
    }

    method OnSend(action: Action)
      modifies this
      ensures View() == Step(old(View()), Send(action))
    {
      hide StartRun;
      if mounted { RunAction(action, false); }
    }

    method OnRetry()
      modifies this
      ensures View() == Step(old(View()), Retry)
    {
      hide StartRun;
      var shown := if feedback.Some? then feedback else unresolved;
      if mounted && shown.Some? { RunAction(shown.value.action, true); }
    }

    method FinallyBlock(m: nat)
      modifies this
      ensures View() == Finish(old(View()), m)
    {
      mutations := mutations - {m};
      inFlight := false;
      if mounted { busy := None; }
    }

    /** The end of the catch block. */
    method SetFailure(action: Action, failure: Refusal)
      modifies this
      ensures View() == ReportFailure(old(View()), action, failure)
    {
      feedback := Some(Report(action, failure));
      if action.Lifecycle() {
        if failure.Retryable() { unresolved := Some(Report(action, failure)); } else { unresolved := None; }
      }
    }

    /** The mutation request was answered. */
    method OnReply(m: nat, reply: Reply)
      requires m in mutations
      modifies this
      ensures View() == StepReplied(old(View()), m, reply)
    {
      hide Finish, ReportFailure, Rereads;
      var mutation := mutations[m];
      if !mounted {
        FinallyBlock(m);
        return;
      }
      match reply {
        case Accepted(newStatus) =>
          if mutation.action.Delete? {
            FinallyBlock(m);
            return;
          }
          if !mutation.action.Limit() && plan.Some? {
            var accepted := if newStatus.Some? then newStatus.value else mutation.action.Target();
            plan := Some(plan.value.(status := accepted));
          }
          mutations := mutations[m := mutation.(stage := Reconciling)];
        case Rejected(failure) =>
          if failure.status == Some(403) { denied := true; }
          if Rereads(mutation, failure) {
            mutations := mutations[m := mutation.(stage := Recovering(failure))];
            return;
          }
          SetFailure(mutation.action, failure);
          FinallyBlock(m);
      }
    }

    /** The read after a success or a failure came back. */
    method OnReread(m: nat, loaded: Option<Plan>)
      requires m in mutations && !mutations[m].stage.Requested?
      modifies this
      ensures View() == StepReread(old(View()), m, loaded)
    {
      hide Finish, ReportFailure;
      var mutation := mutations[m];
      if !mounted {
        FinallyBlock(m);
        return;
      }
      if mutation.action.Lifecycle() && loaded.Some? { plan := loaded; }
      if mutation.stage.Recovering? {
        SetFailure(mutation.action, mutation.stage.failure);
      } else {
        feedback := None;
        if mutation.action.Lifecycle() { unresolved := None; }
        if dialog.Some? { dialog := Some(dialog.value.(open := false)); }
      }
      FinallyBlock(m);
    }

    method OnOpenDialog(action: Action)
      requires action.InDialog()
      modifies this
      ensures View() == Step(old(View()), OpenDialog(action))
    {
      if !mounted || denied || busy.Some? || plan.None? { return; }
      feedback := None;
      dialogCount := dialogCount + 1;
      dialog := Some(Dialog(dialogCount, action, true));
    }

    method OnCloseDialog()
      modifies this
      ensures View() == Step(old(View()), CloseDialog)
    {
      if !mounted || inFlight { return; }
      if dialog.Some? { dialog := Some(dialog.value.(open := false)); }
      if feedback.Some? && feedback.value.action.InDialog() { feedback := None; }
      if unresolved.Some? && unresolved.value.action.InDialog() { unresolved := None; }
    }
  }
}
