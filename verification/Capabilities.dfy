/** The capability provider: a transition system over tenant changes, mounting consumers and answers, and the class that
    performs its steps on a request ref and a state cell. */
module Capabilities {
  import opened Prelude
  import opened ConsoleContext

  const KEYS: set<string> :=
    {"sql_admin_api", "passthrough_admin", "realtime", "webhooks", "public_functions", "custom_domains",
     "scheduled_functions", "backup_scope_access"}

  datatype Answer = Granted(capabilities: map<string, bool>) | Refused

  /** One request, for the tenant and the uninterrupted stay on it during which it was sent. */
  datatype Request = Request(tenant: Id, stay: nat, answer: Option<Answer>)

  datatype Display = Display(loading: bool, capabilities: map<string, bool>, error: bool, tenant: Option<Id>)

  const EMPTY := Display(false, map[], false, None)

  /** `request` points at the object in the ref; `stay` counts the changes of the active tenant. */
  datatype Machine = Machine(tenant: Option<Id>, contextLoading: bool, stay: nat, request: Option<nat>,
                             requests: seq<Request>, display: Display)

  function Start(tenant: Option<Id>): Machine {
    Machine(tenant, true, 0, None, [], EMPTY)
  }

  /** `load`: a request, unless the ref already holds one for the active tenant. */
  function LoadStep(s: Machine): Machine {
    if s.tenant.None? || (s.request.Some? && s.request.value < |s.requests|
                          && s.requests[s.request.value].tenant == s.tenant.value) then s
    else
      s.(request := Some(|s.requests|), requests := s.requests + [Request(s.tenant.value, s.stay, None)],
         display := Display(true, map[], false, s.tenant))
  }

  /** The effect that forgets the request of another tenant. */
  function ClearStep(s: Machine): Machine {
    if s.tenant.Some? && s.request.Some? && s.request.value < |s.requests|
       && s.requests[s.request.value].tenant == s.tenant.value then s
    else s.(request := None, display := EMPTY)
  }

  function DisplayOf(r: Request): Display {
    match r.answer
    case None => Display(true, map[], false, Some(r.tenant))
    case Some(Granted(capabilities)) => Display(false, capabilities, false, Some(r.tenant))
    case Some(Refused) => Display(false, map[], true, Some(r.tenant))
  }

  function AnswerStep(s: Machine, i: nat, answer: Answer): Machine
    requires i < |s.requests|
  {
    var r := s.requests[i].(answer := Some(answer));
    var s := s.(requests := s.requests[i := r]);
    if s.request == Some(i) then s.(display := DisplayOf(r)) else s
  }

  /** A consumer's load effect runs before the provider's own effect. */
  function TenantStep(s: Machine, tenant: Option<Id>, consumers: bool): Machine {
    if tenant == s.tenant then s
    else
      var s := s.(tenant := tenant, stay := s.stay + 1);
      ClearStep(if consumers then LoadStep(s) else s)
  }

  datatype Event =
    | TenantChanged(tenant: Option<Id>, consumers: bool)
    | ConsumerMounted
    | ContextLoading(loading: bool)
    | Answered(i: nat, answer: Answer)

  function Step(s: Machine, ev: Event): Machine {
    match ev
    case TenantChanged(tenant, consumers) => TenantStep(s, tenant, consumers)
    case ConsumerMounted => LoadStep(s)
    case ContextLoading(loading) => s.(contextLoading := loading)
    case Answered(i, answer) =>
      if i < |s.requests| && s.requests[i].answer.None? then AnswerStep(s, i, answer) else s
  }

  function Run(s: Machine, evs: seq<Event>): Machine
    decreases |evs|
  {
    if evs == [] then s else Run(Step(s, evs[0]), evs[1..])
  }

  /** What the provider exposes. */
  function Exposed(s: Machine): Display {
    if s.tenant.Some? && s.display.tenant == s.tenant then s.display
    else EMPTY.(loading := s.contextLoading || s.tenant.Some?)
  }

  /** useCapabilityGate. */
  predicate Enabled(s: Machine, key: string) {
    var d := Exposed(s);
    !d.loading && !d.error && key in KEYS && key in d.capabilities && d.capabilities[key]
  }

  /** The ref holds the one request of the present stay, if it was sent, and the display shows its answer. */
  predicate Inv(s: Machine) {
    && (forall i :: 0 <= i < |s.requests| ==>
          && s.requests[i].stay <= s.stay
          && (s.requests[i].stay == s.stay ==> s.request == Some(i) && s.tenant == Some(s.requests[i].tenant)))
    && (forall i, j :: 0 <= i < j < |s.requests| ==> s.requests[i].stay < s.requests[j].stay)
    && (s.request.Some? ==> s.request.value < |s.requests| && s.requests[s.request.value].stay == s.stay)
    && s.display == if s.request.Some? then DisplayOf(s.requests[s.request.value]) else EMPTY
  }

  lemma TenantKeepsInv(s: Machine, tenant: Option<Id>, consumers: bool)
    requires Inv(s)
    ensures Inv(TenantStep(s, tenant, consumers))
  {
    hide DisplayOf;
    if tenant != s.tenant && tenant.Some? && consumers {
      var s1 := LoadStep(s.(tenant := tenant, stay := s.stay + 1));
      assert s1.display == DisplayOf(s1.requests[|s.requests|]) by { PendingDisplay(s1.requests[|s.requests|]); }
    }
  }

  lemma PendingDisplay(r: Request)
    ensures r.answer.None? ==> DisplayOf(r) == Display(true, map[], false, Some(r.tenant))
  {}

  lemma StepKeepsInv(s: Machine, ev: Event)
    requires Inv(s)
    ensures Inv(Step(s, ev))
  {
    hide TenantStep;
    if ev.TenantChanged? { TenantKeepsInv(s, ev.tenant, ev.consumers); }
  }

  lemma {:induction false} RunFromKeepsInv(s: Machine, evs: seq<Event>)
    requires Inv(s)
    ensures Inv(Run(s, evs))
    decreases |evs|
  {
    hide Step, Inv;
    if evs != [] {
      StepKeepsInv(s, evs[0]);
      RunFromKeepsInv(Step(s, evs[0]), evs[1..]);
    }
  }

  lemma RunKeepsInv(tenant: Option<Id>, evs: seq<Event>)
    ensures Inv(Run(Start(tenant), evs))
  {
    RunFromKeepsInv(Start(tenant), evs);
  }

  /** A request of the present stay on the active tenant, answered with the capability. */
  predicate GrantedNow(s: Machine, r: Request, key: string) {
    && r.stay == s.stay && s.tenant == Some(r.tenant)
    && r.answer.Some? && r.answer.value.Granted?
    && key in r.answer.value.capabilities && r.answer.value.capabilities[key]
  }

  /** A capability is exposed as enabled exactly when the request sent for the active tenant during the present stay was
      answered and granted it. */
  lemma EnabledExactlyByThisStay(tenant: Option<Id>, evs: seq<Event>, key: string)
    ensures var s := Run(Start(tenant), evs);
      Enabled(s, key) <==> key in KEYS && exists i :: 0 <= i < |s.requests| && GrantedNow(s, s.requests[i], key)
  {
    RunKeepsInv(tenant, evs);
    hide Run, KEYS;
    var s := Run(Start(tenant), evs);
    if s.request.Some? {
      var r := s.requests[s.request.value];
      assert r.stay == s.stay && s.tenant == Some(r.tenant);
      assert Enabled(s, key) <==> key in KEYS && GrantedNow(s, r, key);
    }
  }

  /** Requests belong to stays in strict order, so each stay sends at most one. */
  lemma OneRequestPerStay(tenant: Option<Id>, evs: seq<Event>)
    ensures var s := Run(Start(tenant), evs);
      forall i, j :: 0 <= i < j < |s.requests| ==> s.requests[i].stay < s.requests[j].stay <= s.stay
  {
    RunKeepsInv(tenant, evs);
  }

  /** The answer to a request of an earlier stay changes nothing exposed, even back on the same tenant. */
  lemma EarlierStaysAreIgnored(tenant: Option<Id>, evs: seq<Event>, i: nat, answer: Answer)
    requires var s := Run(Start(tenant), evs); i < |s.requests| && s.requests[i].stay != s.stay
    ensures var s := Run(Start(tenant), evs); Exposed(Step(s, Answered(i, answer))) == Exposed(s)
  {
    RunKeepsInv(tenant, evs);
  }

  /** Whether the present stay has sent its request. */
  predicate Asked(s: Machine) {
    exists i :: 0 <= i < |s.requests| && s.requests[i].stay == s.stay
  }

  /** A consumer sends the request of the present stay unless it was sent: mounted on a tenant, or there when the tenant
      changes. Every change of the tenant begins a new stay. */
  lemma ConsumersAsk(tenant: Option<Id>, evs: seq<Event>, next: Option<Id>, consumers: bool)
    ensures var s := Run(Start(tenant), evs);
      Step(s, ConsumerMounted).requests ==
        if s.tenant.None? || Asked(s) then s.requests else s.requests + [Request(s.tenant.value, s.stay, None)]
    ensures var s := Run(Start(tenant), evs);
      var s' := Step(s, TenantChanged(next, consumers));
      if next == s.tenant then s' == s
      else
        && s'.tenant == next && s'.stay == s.stay + 1 && s'.contextLoading == s.contextLoading
        && s'.requests == if consumers && next.Some? then s.requests + [Request(next.value, s'.stay, None)]
                          else s.requests
  {
    RunKeepsInv(tenant, evs);
    var s := Run(Start(tenant), evs);
    hide Run;
    assert s.request.Some? ==> Asked(s);
  }

  /** What is exposed says where the request of the present stay is: still to be sent or answered, granted with exactly
      its capabilities, or refused. Without a tenant there is nothing but the context's own loading. */
  lemma ExposedIsThePresentStay(tenant: Option<Id>, evs: seq<Event>, i: nat)
    ensures var s := Run(Start(tenant), evs);
      && Exposed(Start(tenant)).loading
      && (!Asked(s) ==> Exposed(s) == Display(if s.tenant.Some? then true else s.contextLoading, map[], false, None))
    ensures var s := Run(Start(tenant), evs);
      i < |s.requests| && s.requests[i].stay == s.stay ==>
        && s.tenant == Some(s.requests[i].tenant)
        && match s.requests[i].answer
           case None => Exposed(s) == Display(true, map[], false, s.tenant)
           case Some(Granted(capabilities)) => Exposed(s) == Display(false, capabilities, false, s.tenant)
           case Some(Refused) => Exposed(s) == Display(false, map[], true, s.tenant)
  {
    RunKeepsInv(tenant, evs);
    hide Run;
    var s := Run(Start(tenant), evs);
    assert s.request.Some? ==> Asked(s);
  }

  /** An answer is its request's only one, and a change of the context's loading changes nothing else. */
  lemma AnswersAreRecorded(s: Machine, i: nat, answer: Answer, loading: bool)
    requires i < |s.requests|
    ensures Step(s, Answered(i, answer)).requests ==
      if s.requests[i].answer.None? then s.requests[i := s.requests[i].(answer := Some(answer))] else s.requests
    ensures Step(s, ContextLoading(loading)) == s.(contextLoading := loading)
  {}

  class Provider {
    var activeTenantId: Option<Id>
    var contextLoading: bool
    var request: Option<nat>
    var requests: seq<Request>
    var state: Display
    // How often the active tenant has changed.
    var stay: nat

    ghost function View(): Machine
      reads this
    {
      Machine(activeTenantId, contextLoading, stay, request, requests, state)
    }

    constructor (activeTenantId: Option<Id>)
      ensures View() == Start(activeTenantId)
    {
      this.activeTenantId, contextLoading, request, requests, state, stay := activeTenantId, true, None, [], EMPTY, 0;
    }

    method Load()
      modifies this
      ensures View() == LoadStep(old(View()))
    {
      if activeTenantId.None? { return; }
      if request.Some? && request.value < |requests|
         && requests[request.value].tenant == activeTenantId.value { return; }
      request := Some(|requests|);
      requests := requests + [Request(activeTenantId.value, stay, None)];
      state := Display(true, map[], false, activeTenantId);
    }

    method ClearEffect()
      modifies this
      ensures View() == ClearStep(old(View()))
    {
      if activeTenantId.Some? && request.Some? && request.value < |requests|
         && requests[request.value].tenant == activeTenantId.value { return; }
      request, state := None, EMPTY;
    }

    method ChangeTenant(next: Option<Id>, consumers: bool)
      modifies this
      ensures View() == TenantStep(old(View()), next, consumers)
    {
      hide LoadStep, ClearStep;
      if next == activeTenantId { return; }
      activeTenantId, stay := next, stay + 1;
      if consumers { Load(); }
      ClearEffect();
    }

    method OnAnswer(i: nat, answer: Answer)
      requires i < |requests|
      modifies this
      ensures View() == AnswerStep(old(View()), i, answer)
    {
      requests := requests[i := requests[i].(answer := Some(answer))];
      if request == Some(i) {
        match answer
        case Granted(capabilities) => state := Display(false, capabilities, false, Some(requests[i].tenant));
        case Refused => state := Display(false, map[], true, Some(requests[i].tenant));
      }
    }

    method CapabilityGate(key: string) returns (enabled: bool)
      ensures enabled == Enabled(View(), key)
    {
      hide KEYS;
      if activeTenantId.None? || state.tenant != activeTenantId { return false; }
      enabled := !state.loading && !state.error && key in KEYS && key in state.capabilities && state.capabilities[key];
    }
  }
}
