/** What the context provider promises over every order of reloads, session and route changes, selections,
    answers. */
module ConsoleContextGuarantees {
  import opened Prelude
  import opened ConsoleContext

  // ----- Loading -----

  /** With a user, `loading` is exposed only while the newest tenant load or the newest resolution is in flight, so it
      is false once every request has settled. */
  lemma LoadingMeansInFlight(profile: Profile, route: Option<Id>, storage: Storage, evs: seq<Event>)
    ensures var s := Run(Mount(profile, route, storage), evs);
      s.profile.userId != "" && s.Loading() ==>
        || (s.tenantToken in s.tenantLoads && s.tenantLoads[s.tenantToken].profile == s.profile)
        || (&& s.workspaceToken in s.resolutions && s.resolutions[s.workspaceToken].profile == s.profile
            && Some(s.resolutions[s.workspaceToken].tenants) == s.tenants
            && s.resolutions[s.workspaceToken].route == s.route
            && s.resolutions[s.workspaceToken].selection == s.selection)
    ensures var s := Run(Mount(profile, route, storage), evs);
      s.profile.userId != "" && s.tenantLoads == map[] && s.resolutions == map[] ==> !s.Loading()
  {
    RunKeepsInv(profile, route, storage, evs);
  }

  // ----- Superseded requests -----

  /** Everything but the bookkeeping of pending and answered requests. */
  function Visible(s: State): State {
    s.(resolutions := map[], tenantLoads := map[], answered := {})
  }

  /** What starting or continuing a resolution never does: lower a token, or drop a mirror without a failed load. */
  predicate Onward(s: State, s': State) {
    && s'.workspaceToken >= s.workspaceToken && s'.tenantToken == s.tenantToken
    && (s.mirror.Some? ==> s'.mirror.Some?)
  }

  lemma StartGoesOn(s: State)
    ensures Onward(s, StartResolution(s)) && Onward(s, Resolve(s))
  {
    hide Choose, PreferredTenant, Persist, ReadSelection, Overrides;
  }

  lemma TokensGrow(s: State, ev: Event)
    ensures Step(s, ev).workspaceToken >= s.workspaceToken && Step(s, ev).tenantToken >= s.tenantToken
    ensures s.mirror.Some? && Step(s, ev).mirror.None? && !ev.StorageWritten? ==>
      ev.WorkspacesReplied? && ev.token == s.workspaceToken && ev.token in s.resolutions && ev.reply.Failed?
  {
    hide StartResolution, Resolve, StepTenantsReplied, StepWorkspaceReplied, StepSelectTenant, ToId,
      Resolution.WellFormed;
    match ev
    case SessionChanged(profile) =>
      StartGoesOn(Restart(s, profile));
    case RouteChanged(route) => StartGoesOn(s.(route := route));
    case TenantsReplied(token, reply) => if token in s.tenantLoads { TenantsReplyGoesOn(s, token, reply); }
    case ReloadWorkspaces => StartGoesOn(s.(error := None));
    case SelectTenant(id) => SelectTenantGoesOn(s, id);
    case WorkspacesReplied(token, reply) =>
      if token in s.resolutions && s.resolutions[token].WellFormed() { WorkspacesReplyGoesOn(s, token, reply); }
    case _ =>
  }

  lemma WorkspacesReplyGoesOn(s: State, token: nat, reply: Reply)
    requires token in s.resolutions && s.resolutions[token].WellFormed()
    ensures StepWorkspaceReplied(s, token, reply).workspaceToken == s.workspaceToken
    ensures StepWorkspaceReplied(s, token, reply).tenantToken == s.tenantToken
    ensures !(token == s.workspaceToken && reply.Failed?) ==> Onward(s, StepWorkspaceReplied(s, token, reply))
  {
    hide Choose, Filter, Persist;
  }

  lemma TenantsReplyGoesOn(s: State, token: nat, reply: Reply)
    requires token in s.tenantLoads
    ensures Onward(s, StepTenantsReplied(s, token, reply))
  {
    hide StartResolution, Resolve, Filter;
    var load := s.tenantLoads[token];
    var s1 := s.(tenantLoads := s.tenantLoads - {token});
    s1 := if load.reload then s1.(reloading := false) else s1;
    match reply
    case Loaded(items) => StartGoesOn(Accept(s1, load.profile, items));
    case Failed(status) => StartGoesOn(Reject(s1, status));
  }

  lemma SelectTenantGoesOn(s: State, id: Option<string>)
    ensures Onward(s, StepSelectTenant(s, id))
  {
    hide Resolve, Persist, ToId;
    StartGoesOn(Switch(s, ToId(id)));
  }

  lemma {:induction false} RunTokensGrow(s: State, evs: seq<Event>)
    ensures Run(s, evs).workspaceToken >= s.workspaceToken && Run(s, evs).tenantToken >= s.tenantToken
    decreases |evs|
  {
    hide Step;
    if evs != [] {
      TokensGrow(s, evs[0]);
      RunTokensGrow(Step(s, evs[0]), evs[1..]);
    }
  }

  /** A resolution superseded once never writes anything again, whatever happens before its answer arrives. */
  lemma SupersededResolutionNeverWrites(s: State, token: nat, evs: seq<Event>, reply: Reply)
    requires token < s.workspaceToken
    ensures Visible(Step(Run(s, evs), WorkspacesReplied(token, reply))) == Visible(Run(s, evs))
  {
    hide Run, Continue;
    RunTokensGrow(s, evs);
  }

  /** The same for tenant loads. */
  lemma SupersededTenantLoadNeverWrites(s: State, token: nat, evs: seq<Event>, reply: Reply)
    requires token < s.tenantToken
    ensures Visible(Step(Run(s, evs), TenantsReplied(token, reply))) == Visible(Run(s, evs))
  {
    hide Run, Resolve;
    RunTokensGrow(s, evs);
  }

  // ----- Selection -----

  /** The active workspace is listed, and every listed workspace was answered for the active tenant and passed the
      membership filter of the session that asked. */
  lemma SelectionIsConsistent(profile: Profile, route: Option<Id>, storage: Storage, evs: seq<Event>)
    ensures var s := Run(Mount(profile, route, storage), evs);
      && (s.workspace.Some? ==> s.workspace.value in s.workspaces && s.tenant.Some?)
      && (forall w :: w in s.workspaces ==>
            s.tenant.Some? && exists a :: a in s.answered && a.tenantId == s.tenant.value && w in a.items
                                          && Allows(a.membership, w))
  {
    RunKeepsInv(profile, route, storage, evs);
  }

  /** A loaded tenant list never erases a workspace error from the display. */
  lemma TenantsNeverEraseWorkspaceErrors(profile: Profile, route: Option<Id>, storage: Storage, evs: seq<Event>,
                                         token: nat, items: seq<Id>)
    requires var s := Run(Mount(profile, route, storage), evs); s.error.Some? && s.error.value.WorkspacesFailed?
    ensures var s := Run(Mount(profile, route, storage), evs);
      Step(s, TenantsReplied(token, Loaded(items))).error == s.error
  {
    RunKeepsInv(profile, route, storage, evs);
    hide Run, Mount, Choose, PreferredTenant, Filter, Persist, ReadSelection, Overrides;
  }

  // ----- Storage -----

  lemma ResolveKeepsMirror(s: State)
    requires s.mirror == Some(s.profile.userId)
    ensures Resolve(s).mirror == s.mirror
  {
    hide Choose, PreferredTenant, Persist, ReadSelection, Overrides;
  }

  lemma NewestReplyMirrors(s: State, items: seq<Id>)
    requires Inv(s) && s.workspaceToken in s.resolutions
    ensures s.resolutions[s.workspaceToken].WellFormed()
    ensures var s' := StepWorkspaceReplied(s, s.workspaceToken, Loaded(items));
      s.workspaceToken in s'.resolutions || s'.mirror == Some(s.profile.userId)
  {
    hide Choose, Filter, Persist, ListOk, StorageOk, ErrorOk, LoadsOk;
  }

  /** A new resolution is in flight or has already committed under the current user. */
  predicate StartedOrMirrored(s: State) {
    s.tenants.Some? && s.profile.userId != "" ==>
      s.workspaceToken in s.resolutions || s.mirror == Some(s.profile.userId)
  }

  lemma StartMirrors(s: State)
    ensures StartedOrMirrored(StartResolution(s)) && StartedOrMirrored(Resolve(s))
  {
    hide Choose, PreferredTenant, Persist, ReadSelection, Overrides;
  }

  /** Whatever takes a new workspace token leaves a resolution in flight or committed; other steps start none. */
  lemma NewResolutionsMirror(s: State, ev: Event)
    ensures var s' := Step(s, ev);
      || StartedOrMirrored(s')
      || (&& s'.workspaceToken == s.workspaceToken
          && (|| ev.WorkspacesReplied? || ev.StorageWritten?
              || (s'.tenants == s.tenants && s'.profile == s.profile && s'.resolutions == s.resolutions
                  && s'.mirror == s.mirror)))
  {
    hide StartResolution, Resolve, ToId, Filter, Persist, Resolution.WellFormed, StepWorkspaceReplied,
      StartedOrMirrored;
    match ev
    case SessionChanged(profile) =>
      StartMirrors(Restart(s, profile));
    case RouteChanged(route) => StartMirrors(s.(route := route));
    case TenantsReplied(token, reply) =>
      if token in s.tenantLoads {
        var load := s.tenantLoads[token];
        var s1 := s.(tenantLoads := s.tenantLoads - {token});
        s1 := if load.reload then s1.(reloading := false) else s1;
        match reply
        case Loaded(items) => StartMirrors(Accept(s1, load.profile, items));
        case Failed(status) => StartMirrors(Reject(s1, status));
      }
    case ReloadWorkspaces => StartMirrors(s.(error := None));
    case SelectTenant(id) => StartMirrors(Switch(s, ToId(id)));
    case SelectWorkspace(id) => WorkspaceChoiceMirrors(s, id);
    case WorkspacesReplied(token, reply) =>
      if token in s.resolutions && s.resolutions[token].WellFormed() { WorkspacesReplyGoesOn(s, token, reply); }
    case _ =>
  }

  lemma WorkspaceChoiceMirrors(s: State, id: Option<string>)
    ensures StepSelectWorkspace(s, id) == s || StartedOrMirrored(StepSelectWorkspace(s, id))
  {}

  /** Every resolution that ends without a failed load, before its first await or at an answer, and every selection that
      takes effect, mirrors the pair under the current user. */
  lemma CommitsAndSelectionsMirror(s: State, ev: Event)
    requires Inv(s)
    ensures var s' := Step(s, ev);
      && (s'.workspaceToken != s.workspaceToken ==> StartedOrMirrored(s'))
      && (ev.WorkspacesReplied? && ev.token == s.workspaceToken && ev.token in s.resolutions && ev.reply.Loaded? ==>
            s.workspaceToken in s'.resolutions || s'.mirror == Some(s.profile.userId))
      && (ev.SelectTenant? || ev.SelectWorkspace? ==> s' == s || s'.mirror == Some(s.profile.userId))
  {
    hide StartResolution, Resolve, StepWorkspaceReplied, ToId, Persist, ListOk, StorageOk, ErrorOk, LoadsOk,
      StartedOrMirrored;
    NewResolutionsMirror(s, ev);
    match ev
    case WorkspacesReplied(token, reply) =>
      if token == s.workspaceToken && token in s.resolutions && reply.Loaded? { NewestReplyMirrors(s, reply.items); }
    case SelectTenant(id) => ResolveKeepsMirror(Switch(s, ToId(id)));
    case _ =>
  }

  /** With a user and a tenant list, once the newest resolution has ended the selection is mirrored under the current
      user, unless the mirror was lost since. */
  predicate MirrorsCurrent(s: State) {
    StartedOrMirrored(s) || s.mirror.None?
  }

  lemma StepKeepsMirrorsCurrent(s: State, ev: Event)
    requires Inv(s) && MirrorsCurrent(s)
    ensures MirrorsCurrent(Step(s, ev))
  {
    NewResolutionsMirror(s, ev);
    if ev.WorkspacesReplied? && ev.token in s.resolutions {
      CommitsAndSelectionsMirror(s, ev);
      FailedReplyLosesMirror(s, ev.token, ev.reply);
    }
    hide Inv, StepTenantsReplied, StepSessionChanged, StepSelectTenant, StepSelectWorkspace, StepWorkspaceReplied,
      StartResolution, Resolve, Resolution.WellFormed;
  }

  lemma FailedReplyLosesMirror(s: State, token: nat, reply: Reply)
    requires Inv(s) && token in s.resolutions
    ensures s.resolutions[token].WellFormed()
    ensures token == s.workspaceToken && reply.Failed? ==> StepWorkspaceReplied(s, token, reply).mirror.None?
    ensures token != s.workspaceToken ==>
      StepWorkspaceReplied(s, token, reply) ==
      s.(resolutions := s.resolutions - {token}, answered := StepWorkspaceReplied(s, token, reply).answered)
  {
    hide Filter, ListOk, StorageOk, ErrorOk, LoadsOk;
  }

  lemma {:induction false} RunKeepsMirrorsCurrent(s: State, evs: seq<Event>)
    requires Inv(s) && MirrorsCurrent(s)
    ensures MirrorsCurrent(Run(s, evs))
    decreases |evs|
  {
    hide Step, Inv, MirrorsCurrent;
    if evs != [] {
      StepKeepsInv(s, evs[0]);
      StepKeepsMirrorsCurrent(s, evs[0]);
      RunKeepsMirrorsCurrent(Step(s, evs[0]), evs[1..]);
    }
  }

  /** The selection stops being mirrored only when the newest workspace load fails or another page writes the key. */
  lemma MirrorIsLostOnlyByAFailedLoad(s: State, ev: Event)
    requires s.mirror.Some? && Step(s, ev).mirror.None?
    ensures
      || ev.StorageWritten?
      || (ev.WorkspacesReplied? && ev.token == s.workspaceToken && ev.token in s.resolutions && ev.reply.Failed?)
  {
    TokensGrow(s, ev);
  }

  /** While mirrored, storage holds exactly the active pair under the user who wrote it, or nothing when both parts are
      null or there is no user; once the newest resolution has ended, that is the current user. */
  lemma StorageMirrorsSelection(profile: Profile, route: Option<Id>, storage: Storage, evs: seq<Event>)
    ensures var s := Run(Mount(profile, route, storage), evs);
      s.mirror.Some? ==>
        s.storage == if s.mirror.value == "" || (s.tenant.None? && s.workspace.None?) then Empty
                     else Content(Saved(s.mirror.value, s.tenant, s.workspace))
    ensures var s := Run(Mount(profile, route, storage), evs);
      s.tenants.Some? && s.profile.userId != "" && s.workspaceToken !in s.resolutions && s.mirror.Some? ==>
        s.mirror.value == s.profile.userId
  {
    RunKeepsInv(profile, route, storage, evs);
    RunKeepsMirrorsCurrent(Mount(profile, route, storage), evs);
  }

  /** A fresh route-less mount over that storage, offered the same tenant and workspace, restores the pair. */
  lemma FreshMountRestores(profile: Profile, route: Option<Id>, storage: Storage, evs: seq<Event>,
                           t: Id, w: Id, again: Profile, items: seq<Id>, workspaces: seq<Id>)
    requires var s := Run(Mount(profile, route, storage), evs);
      s.mirror == Some(again.userId) && again.userId != "" && s.tenant == Some(t) && s.workspace == Some(w)
    requires t in Filter(items, again.ownTenantIds) && w in Filter(workspaces, again.membership)
    ensures var s := Run(Mount(profile, route, storage), evs);
      var m0 := Mount(again, None, s.storage);
      var m1 := Step(m0, TenantsReplied(m0.tenantToken, Loaded(items)));
      var m2 := Step(m1, WorkspacesReplied(m1.workspaceToken, Loaded(workspaces)));
      m2.tenant == Some(t) && m2.workspace == Some(w) && m2.storage == s.storage && !m2.Loading()
  {
    StorageMirrorsSelection(profile, route, storage, evs);
    var s := Run(Mount(profile, route, storage), evs);
    RestoreFrom(s.storage, t, w, again, items, workspaces);
  }

  lemma RestoreFrom(storage: Storage, t: Id, w: Id, again: Profile, items: seq<Id>, workspaces: seq<Id>)
    requires storage == Content(Saved(again.userId, Some(t), Some(w))) && again.userId != ""
    requires t in Filter(items, again.ownTenantIds) && w in Filter(workspaces, again.membership)
    ensures var m0 := Mount(again, None, storage);
      var m1 := Step(m0, TenantsReplied(m0.tenantToken, Loaded(items)));
      var m2 := Step(m1, WorkspacesReplied(m1.workspaceToken, Loaded(workspaces)));
      m2.tenant == Some(t) && m2.workspace == Some(w) && m2.storage == storage && !m2.Loading()
  {
    hide Filter, Choose;
    var m0 := Mount(again, None, storage);
    var m1 := Step(m0, TenantsReplied(m0.tenantToken, Loaded(items)));
    assert m1.resolutions[m1.workspaceToken].goal == Open(t);
    assert m1.resolutions[m1.workspaceToken].stored == Some(storage.saved);
  }

  // ----- Routes -----

  /** The first tenant in list order whose filtered workspaces contain the route's workspace. */
  function FirstMatch(workspaceId: Id, tenants: seq<Id>, listing: Id -> seq<Id>, membership: seq<Id>): Option<Id> {
    if tenants == [] then None
    else if workspaceId in Filter(listing(tenants[0]), membership) then Some(tenants[0])
    else FirstMatch(workspaceId, tenants[1..], listing, membership)
  }

  lemma {:induction false} FirstMatchIsFirst(workspaceId: Id, tenants: seq<Id>, listing: Id -> seq<Id>,
                                             membership: seq<Id>)
    ensures match FirstMatch(workspaceId, tenants, listing, membership)
      case None => forall j :: 0 <= j < |tenants| ==> workspaceId !in Filter(listing(tenants[j]), membership)
      case Some(t) => exists i :: 0 <= i < |tenants| && tenants[i] == t
                        && workspaceId in Filter(listing(t), membership)
                        && forall j :: 0 <= j < i ==> workspaceId !in Filter(listing(tenants[j]), membership)
  {
    hide Filter;
    if tenants != [] && workspaceId !in Filter(listing(tenants[0]), membership) {
      FirstMatchIsFirst(workspaceId, tenants[1..], listing, membership);
      var rest := FirstMatch(workspaceId, tenants[1..], listing, membership);
      forall j | 0 <= j < |tenants| && rest.None? ensures workspaceId !in Filter(listing(tenants[j]), membership) {
        if j > 0 { assert tenants[1..][j - 1] == tenants[j]; }
      }
      if rest.Some? {
        var i :| 0 <= i < |tenants[1..]| && tenants[1..][i] == rest.value
                 && forall j :: 0 <= j < i ==> workspaceId !in Filter(listing(tenants[1..][j]), membership);
        assert tenants[i + 1] == rest.value;
        forall j | 0 <= j < i + 1 ensures workspaceId !in Filter(listing(tenants[j]), membership) {
          if j > 0 { assert tenants[1..][j - 1] == tenants[j]; }
        }
      }
    }
  }

  /** The resolution `token` was itself told this list, filtered by its own session's memberships. */
  predicate ToldTo(answered: set<Answer>, token: nat, tenantId: Id, membership: seq<Id>, list: seq<Id>) {
    exists a :: a in answered && a.token == token && a.tenantId == tenantId && a.membership == membership
                && list == Filter(a.items, membership)
  }

  /** The resolution `token` was itself told of the tenant's workspaces, and they lack the one wanted or its own session
      may not open it. */
  predicate ToldWithout(answered: set<Answer>, token: nat, tenantId: Id, membership: seq<Id>, workspaceId: Id) {
    exists a :: a in answered && a.token == token && a.tenantId == tenantId && a.membership == membership
                && !(workspaceId in a.items && Allows(membership, workspaceId))
  }

  /** Every list a search has passed over is an answer it got, tenant by tenant. */
  predicate Searched(r: Resolution, token: nat, answered: set<Answer>) {
    r.goal.Search? ==>
      forall j :: 0 <= j < |r.goal.seen| && j < |r.tenants| ==>
        ToldTo(answered, token, r.tenants[j], r.profile.membership, r.goal.seen[j])
  }

  predicate AllSearched(s: State) {
    forall k :: k in s.resolutions ==> Searched(s.resolutions[k], k, s.answered)
  }

  /** No answer is forgotten, and a resolution that was not there has searched nothing yet. */
  predicate Carried(s: State, s': State) {
    && s.answered <= s'.answered
    && forall k :: k in s'.resolutions ==>
         || (k in s.resolutions && s'.resolutions[k] == s.resolutions[k])
         || (s'.resolutions[k].goal.Search? ==> s'.resolutions[k].goal.seen == [])
  }

  lemma CarriedKeepsSearched(s: State, s': State)
    requires AllSearched(s) && Carried(s, s')
    ensures AllSearched(s')
  {
    hide Filter;
  }

  lemma StartCarries(s: State)
    ensures Carried(s, StartResolution(s)) && Carried(s, Resolve(s))
  {
    hide Choose, PreferredTenant, Persist, ReadSelection, Overrides;
  }

  lemma ReplyKeepsSearched(s: State, token: nat, reply: Reply)
    requires AllSearched(s) && token in s.resolutions && s.resolutions[token].WellFormed()
    ensures AllSearched(StepWorkspaceReplied(s, token, reply))
  {
    hide Filter, Choose, Persist, Overrides, PreferredTenant;
    var r := s.resolutions[token];
    var s' := StepWorkspaceReplied(s, token, reply);
    if token in s'.resolutions {
      var candidates := Filter(reply.items, r.profile.membership);
      assert Answer(token, r.Awaited(), r.profile.membership, reply.items) in s'.answered;
      assert ToldTo(s'.answered, token, r.tenants[r.goal.next], r.profile.membership, candidates);
      assert Searched(s'.resolutions[token], token, s'.answered);
    }
    forall k | k in s'.resolutions && k != token ensures Searched(s'.resolutions[k], k, s'.answered) {
      assert Searched(s.resolutions[k], k, s.answered);
    }
  }

  lemma StepKeepsSearched(s: State, ev: Event)
    requires AllSearched(s)
    ensures AllSearched(Step(s, ev))
  {
    hide StartResolution, Resolve, StepWorkspaceReplied, ToId, Filter, Persist, Resolution.WellFormed, AllSearched;
    if ev.WorkspacesReplied? {
      if ev.token in s.resolutions && s.resolutions[ev.token].WellFormed() {
        ReplyKeepsSearched(s, ev.token, ev.reply);
      }
      return;
    }
    match ev {
      case SessionChanged(profile) =>
        StartCarries(Restart(s, profile));
      case RouteChanged(route) => StartCarries(s.(route := route));
      case TenantsReplied(token, reply) => if token in s.tenantLoads { TenantsReplyCarries(s, token, reply); }
      case ReloadWorkspaces => StartCarries(s.(error := None));
      case SelectTenant(id) => StartCarries(Switch(s, ToId(id)));
      case _ =>
    }
    CarriedKeepsSearched(s, Step(s, ev));
  }

  lemma TenantsReplyCarries(s: State, token: nat, reply: Reply)
    requires token in s.tenantLoads
    ensures Carried(s, StepTenantsReplied(s, token, reply))
  {
    hide StartResolution, Resolve, Filter;
    var load := s.tenantLoads[token];
    var s1 := s.(tenantLoads := s.tenantLoads - {token});
    s1 := if load.reload then s1.(reloading := false) else s1;
    match reply
    case Loaded(items) => StartCarries(Accept(s1, load.profile, items));
    case Failed(status) => StartCarries(Reject(s1, status));
  }

  lemma {:induction false} RunKeepsSearched(s: State, evs: seq<Event>)
    requires AllSearched(s)
    ensures AllSearched(Run(s, evs))
    decreases |evs|
  {
    hide Step, AllSearched;
    if evs != [] {
      StepKeepsSearched(s, evs[0]);
      RunKeepsSearched(Step(s, evs[0]), evs[1..]);
    }
  }

  /** In any interleaving, while the route overrides, the newest resolution is a search of it: every tenant it has
      passed answered that very search without the workspace, so the tenant it commits is the first in list order whose
      answer has it, and it selects nothing only when every tenant's answer lacked it. */
  lemma CommittedRouteTenantIsFirst(profile: Profile, route: Option<Id>, storage: Storage, evs: seq<Event>,
                                    items: seq<Id>)
    requires var s := Run(Mount(profile, route, storage), evs);
      s.workspaceToken in s.resolutions && Overrides(s.route, s.selection)
    ensures var s := Run(Mount(profile, route, storage), evs);
      var r := s.resolutions[s.workspaceToken];
      var workspaceId := s.route.value;
      && r.goal.Search? && s.tenants.Some? && r.goal.next < |s.tenants.value|
      && (forall j :: 0 <= j < r.goal.next ==>
            ToldWithout(s.answered, s.workspaceToken, s.tenants.value[j], s.profile.membership, workspaceId))
      && var s' := Step(s, WorkspacesReplied(s.workspaceToken, Loaded(items)));
         if workspaceId in items && Allows(s.profile.membership, workspaceId) then
           && s.workspaceToken !in s'.resolutions
           && s'.tenant == Some(s.tenants.value[r.goal.next]) && s'.workspace == s.route
           && s'.workspaces == Filter(items, s.profile.membership)
         else if r.goal.next + 1 < |s.tenants.value| then
           && s.workspaceToken in s'.resolutions && s'.resolutions[s.workspaceToken].goal.Search?
           && s'.resolutions[s.workspaceToken].goal.next == r.goal.next + 1
         else
           && s.workspaceToken !in s'.resolutions
           && s'.tenant.None? && s'.workspace.None? && s'.workspaces == []
  {
    RunKeepsInv(profile, route, storage, evs);
    assert AllSearched(Mount(profile, route, storage));
    RunKeepsSearched(Mount(profile, route, storage), evs);
    hide Run, Mount;
    var s := Run(Mount(profile, route, storage), evs);
    FirstByItsAnswers(s);
    var r := s.resolutions[s.workspaceToken];
    SearchStep(s, r.goal.workspaceId, r.goal.next, r.goal.seen, items);
  }

  lemma FirstByItsAnswers(s: State)
    requires Inv(s) && AllSearched(s) && s.workspaceToken in s.resolutions && Overrides(s.route, s.selection)
    ensures var r := s.resolutions[s.workspaceToken];
      && r.goal.Search? && s.route == Some(r.goal.workspaceId) && s.tenants == Some(r.tenants)
      && r.goal.next < |r.tenants|
      && forall j :: 0 <= j < r.goal.next ==>
           ToldWithout(s.answered, s.workspaceToken, r.tenants[j], s.profile.membership, r.goal.workspaceId)
  {
    hide Filter, ListOk, StorageOk, ErrorOk, LoadsOk, LoadingOk, Choose, PreferredTenant;
    var r := s.resolutions[s.workspaceToken];
    assert r.WellFormed() && Searched(r, s.workspaceToken, s.answered);
    forall j | 0 <= j < r.goal.next
      ensures ToldWithout(s.answered, s.workspaceToken, r.tenants[j], s.profile.membership, r.goal.workspaceId)
    {
      assert ToldTo(s.answered, s.workspaceToken, r.tenants[j], r.profile.membership, r.goal.seen[j]);
    }
  }

  /** The answers to a search over `tenants`, in the order it asks. */
  function Answers(token: nat, tenants: seq<Id>, listing: Id -> seq<Id>): seq<Event> {
    if tenants == [] then []
    else [WorkspacesReplied(token, Loaded(listing(tenants[0])))] + Answers(token, tenants[1..], listing)
  }

  lemma RunFirst(s: State, ev: Event, evs: seq<Event>)
    ensures Run(s, [ev] + evs) == Run(Step(s, ev), evs)
  {
    hide Step;
    assert ([ev] + evs)[1..] == evs;
  }

  /** The state a route search ends in. */
  predicate Selected(s: State, userId: string, tenant: Option<Id>, workspaceId: Id, list: seq<Id>) {
    && s.tenant == tenant && s.workspace == (if tenant.Some? then Some(workspaceId) else None)
    && s.workspaces == list && !s.loading && s.storage == Persist(userId, s.tenant, s.workspace)
  }

  function ListOf(tenant: Option<Id>, listing: Id -> seq<Id>, membership: seq<Id>): seq<Id> {
    if tenant.Some? then Filter(listing(tenant.value), membership) else []
  }

  lemma {:induction false} NothingPending(s: State, token: nat, tenants: seq<Id>, listing: Id -> seq<Id>)
    requires token !in s.resolutions
    ensures Run(s, Answers(token, tenants, listing)) == s
  {
    if tenants != [] {
      RunFirst(s, WorkspacesReplied(token, Loaded(listing(tenants[0]))), Answers(token, tenants[1..], listing));
      NothingPending(s, token, tenants[1..], listing);
    }
  }

  /** One answer to a search: it commits, asks the next tenant, or gives up at the last one. */
  lemma SearchStep(s: State, workspaceId: Id, next: nat, seen: seq<seq<Id>>, items: seq<Id>)
    requires Inv(s) && s.workspaceToken in s.resolutions
    requires s.resolutions[s.workspaceToken].goal == Search(workspaceId, next, seen)
    ensures var r := s.resolutions[s.workspaceToken];
      var s' := Step(s, WorkspacesReplied(s.workspaceToken, Loaded(items)));
      var candidates := Filter(items, s.profile.membership);
      && s'.workspaceToken == s.workspaceToken && s'.profile == s.profile && next < |r.tenants|
      && if workspaceId in candidates then
           s.workspaceToken !in s'.resolutions
           && Selected(s', s.profile.userId, Some(r.tenants[next]), workspaceId, candidates)
         else if next + 1 < |r.tenants| then
           s.workspaceToken in s'.resolutions
           && s'.resolutions[s.workspaceToken] == r.(goal := Search(workspaceId, next + 1, seen + [candidates]))
         else
           s.workspaceToken !in s'.resolutions && Selected(s', s.profile.userId, None, workspaceId, [])
  {
    hide Filter, Persist, ListOk, StorageOk, ErrorOk, LoadsOk, Overrides;
  }

  lemma {:induction false} SearchCommitsFirstMatch(s: State, listing: Id -> seq<Id>)
    requires Inv(s) && s.workspaceToken in s.resolutions && s.resolutions[s.workspaceToken].goal.Search?
    ensures var r := s.resolutions[s.workspaceToken];
      r.WellFormed() &&
      var rest := r.tenants[r.goal.next..];
      var tenant := FirstMatch(r.goal.workspaceId, rest, listing, s.profile.membership);
      Selected(Run(s, Answers(s.workspaceToken, rest, listing)), s.profile.userId, tenant, r.goal.workspaceId,
               ListOf(tenant, listing, s.profile.membership))
    decreases |s.resolutions[s.workspaceToken].tenants| - s.resolutions[s.workspaceToken].goal.next
  {
    hide Filter, Persist, Step, ListOk, StorageOk, ErrorOk, LoadsOk;
    var token := s.workspaceToken;
    var r := s.resolutions[token];
    assert r.WellFormed();
    var Search(workspaceId, next, seen) := r.goal;
    var rest := r.tenants[next..];
    assert rest[0] == r.tenants[next] && rest[1..] == r.tenants[next + 1..];
    var ev := WorkspacesReplied(token, Loaded(listing(rest[0])));
    var s' := Step(s, ev);
    SearchStep(s, workspaceId, next, seen, listing(rest[0]));
    RunFirst(s, ev, Answers(token, rest[1..], listing));
    StepKeepsInv(s, ev);
    if token in s'.resolutions {
      SearchCommitsFirstMatch(s', listing);
    } else {
      NothingPending(s', token, rest[1..], listing);
    }
  }

  /** After a change to a route no tenant was chosen under, and the answers of a fixed listing, the committed tenant is
      the first one that has the route's workspace, or nothing is selected. */
  lemma RouteSelectsTheFirstTenant(s: State, workspaceId: Id, listing: Id -> seq<Id>)
    requires Inv(s) && s.tenants.Some? && s.profile.userId != ""
    requires s.route != Some(workspaceId) && Overrides(Some(workspaceId), s.selection)
    ensures var s1 := Step(s, RouteChanged(Some(workspaceId)));
      var tenant := if Allows(s.profile.membership, workspaceId)
                    then FirstMatch(workspaceId, s.tenants.value, listing, s.profile.membership) else None;
      Selected(Run(s1, Answers(s1.workspaceToken, s.tenants.value, listing)), s.profile.userId, tenant, workspaceId,
               ListOf(tenant, listing, s.profile.membership))
  {
    var s1 := Step(s, RouteChanged(Some(workspaceId)));
    StepKeepsInv(s, RouteChanged(Some(workspaceId)));
    RouteSearchStarts(s, workspaceId);
    if s1.workspaceToken in s1.resolutions {
      SearchCommitsFirstMatch(s1, listing);
      assert s.tenants.value[0..] == s.tenants.value;
    } else {
      NothingPending(s1, s1.workspaceToken, s.tenants.value, listing);
    }
  }

  lemma RouteSearchStarts(s: State, workspaceId: Id)
    requires Inv(s) && s.tenants.Some? && s.profile.userId != ""
    requires s.route != Some(workspaceId) && Overrides(Some(workspaceId), s.selection)
    ensures var s1 := Step(s, RouteChanged(Some(workspaceId)));
      && s1.profile == s.profile
      && if Allows(s.profile.membership, workspaceId) && s.tenants.value != [] then
           s1.workspaceToken in s1.resolutions
           && s1.resolutions[s1.workspaceToken].goal == Search(workspaceId, 0, [])
           && s1.resolutions[s1.workspaceToken].tenants == s.tenants.value
         else
           s1.workspaceToken !in s1.resolutions && Selected(s1, s.profile.userId, None, workspaceId, [])
  {
    hide Persist, Filter, ListOk, ErrorOk, LoadsOk;
  }

  /** After a deliberate tenant switch no resolution re-applies the route it was made under: as long as that route is
      current, the newest resolution is never a route search. */
  lemma DeliberateSwitchSticks(profile: Profile, route: Option<Id>, storage: Storage, evs: seq<Event>)
    ensures var s := Run(Mount(profile, route, storage), evs);
      s.selection.Some? && s.selection.value.route == s.route && s.workspaceToken in s.resolutions ==>
        && s.tenants.Some? && s.resolutions[s.workspaceToken].goal.Open?
        && (s.selection.value.tenantId.Some? && s.selection.value.tenantId.value in s.tenants.value ==>
              s.resolutions[s.workspaceToken].goal == Open(s.selection.value.tenantId.value))
  {
    RunKeepsInv(profile, route, storage, evs);
    hide Run, Mount, ListOk, StorageOk, ErrorOk, LoadsOk, Choose;
    var s := Run(Mount(profile, route, storage), evs);
    if s.workspaceToken in s.resolutions { assert s.resolutions[s.workspaceToken].WellFormed(); }
  }
}
