/** The provider's own form: refs, state setters and localStorage writes, in the order the component makes them. Each
    public method is one event with the effects it causes, proved equal to the step of ConsoleContext. */
module ContextProvider {
  import opened Prelude
  import opened ConsoleContext

  class Provider {
    var session: Profile
    var routeId: Option<Id>
    var tenants: Option<seq<Id>>
    var workspaces: seq<Id>
    var activeTenantId: Option<Id>
    var activeWorkspaceId: Option<Id>
    var loading: bool
    var tenantsReloading: bool
    var error: Option<Error>
    var tenantFailure: Option<Error>
    var selection: Option<Selection>
    var tenantToken: nat
    var workspaceToken: nat
    // The suspended closures, by the token each captured.
    var tenantLoads: map<nat, TenantLoad>
    var resolutions: map<nat, Resolution>
    var localStorage: Storage
    ghost var mirror: Option<string>
    ghost var answered: set<Answer>

    ghost function View(): State
      reads this
    {
      State(session, routeId, tenants, workspaces, activeTenantId, activeWorkspaceId, loading, tenantsReloading, error,
            tenantFailure, selection, tenantToken, workspaceToken, tenantLoads, resolutions, localStorage, mirror,
            answered)
    }

    constructor (session: Profile, routeId: Option<Id>, localStorage: Storage)
      ensures View() == Mount(session, routeId, localStorage)
    {
      this.session, this.routeId, this.localStorage := session, routeId, localStorage;
      tenants, workspaces, activeTenantId, activeWorkspaceId := None, [], None, None;
      loading, tenantsReloading, error, tenantFailure, selection := true, false, None, None, None;
      tenantToken, workspaceToken, tenantLoads, resolutions := 0, 0, map[], map[];
      mirror, answered := None, {};
      new;
      hide StartResolution;
      RunEffects();
    }

    /** Both effects of one commit; an empty list set by the first one re-runs the second. */
    method RunEffects()
      modifies this
      ensures View() == var b := Bootstrap(old(View()));
        if old(session.userId) == "" then Resolve(b) else StartResolution(b)
    {
      hide StartResolution;
      BootstrapEffect();
      if session.userId == "" { RerunResolveEffect(); } else { ResolveWorkspaces(); }
    }

    method BootstrapEffect()
      modifies this
      ensures View() == Bootstrap(old(View()))
    {
      tenantToken := tenantToken + 1;
      tenantsReloading := false;
      if session.userId == "" {
        tenants, loading := Some([]), false;
        return;
      }
      tenantLoads := tenantLoads[tenantToken := TenantLoad(false, session)];
    }

    method RerunResolveEffect()
      modifies this
      ensures View() == Resolve(old(View()))
    {
      hide StartResolution;
      workspaceToken := workspaceToken + 1;
      ResolveWorkspaces();
    }

    method ReadStored() returns (stored: Option<Saved>)
      modifies this
      ensures stored == ReadSelection(old(localStorage), old(session.userId)).0
      ensures View() == old(View()).(storage := ReadSelection(old(localStorage), old(session.userId)).1)
    {
      stored := None;
      match localStorage
      case Empty =>
      case Malformed => localStorage := Empty;
      case Content(saved) =>
        if saved.userId == session.userId { stored := Some(saved); }
    }

    method PersistSelection(userId: string, tenantId: Option<Id>, workspaceId: Option<Id>)
      modifies this
      ensures View() == old(View()).(storage := Persist(userId, tenantId, workspaceId), mirror := Some(userId))
    {
      if userId == "" || (tenantId.None? && workspaceId.None?) {
        localStorage := Empty;
      } else {
        localStorage := Content(Saved(userId, tenantId, workspaceId));
      }
      mirror := Some(userId);
    }

    method SetActive(tenantId: Option<Id>, workspaceId: Option<Id>, options: seq<Id>)
      modifies this
      ensures View() == old(View()).(tenant := tenantId, workspace := workspaceId, workspaces := options)
    {
      activeTenantId, activeWorkspaceId, workspaces := tenantId, workspaceId, options;
    }

    method CommitSelection(userId: string, tenantId: Option<Id>, workspaceId: Option<Id>, options: seq<Id>)
      modifies this
      ensures View() == Commit(old(View()), userId, tenantId, workspaceId, options)
    {
      hide Persist;
      SetActive(tenantId, workspaceId, options);
      PersistSelection(userId, tenantId, workspaceId);
      loading := false;
    }

    /** resolveWorkspaces up to its first await. */
    method ResolveWorkspaces()
      modifies this
      ensures View() == StartResolution(old(View()))
    {
      hide ReadSelection, Commit, Overrides, Choose, PreferredTenant;
      if tenants.None? || session.userId == "" { return; }
      workspaceToken := workspaceToken + 1;
      var stored := ReadStored();
      loading := true;
      var goal: Option<Goal> := None;
      if Overrides(routeId, selection) {
        HasRoute();
        if Allows(session.membership, routeId.value) && tenants.value != [] {
          goal := Some(Search(routeId.value, 0, []));
        }
      } else {
        var tenantId := Choose(tenants.value, PreferredTenant(selection, stored));
        if tenantId.Some? { goal := Some(Open(tenantId.value)); }
      }
      if goal.None? {
        CommitSelection(session.userId, None, None, []);
        return;
      }
      resolutions := resolutions[workspaceToken :=
        Resolution(session, tenants.value, routeId, selection, stored, goal.value)];
    }

    lemma HasRoute()
      requires Overrides(routeId, selection)
      ensures routeId.Some?
    {}

    /** The awaited workspaces arrived: a superseded resolution returns, the newest one goes on. */
    method OnWorkspaces(token: nat, reply: Reply)
      requires token in resolutions && resolutions[token].WellFormed()
      modifies this
      ensures View() == StepWorkspaceReplied(old(View()), token, reply)
    {
      hide Continue, Filter, Choose, PreferredTenant, Overrides;
      var r := resolutions[token];
      resolutions := resolutions - {token};
      answered := answered +
        if reply.Loaded? then {Answer(token, r.Awaited(), r.profile.membership, reply.items)} else {};
      if token == workspaceToken { ContinueResolution(token, r, reply); }
    }

    /** The rest of the newest resolution up to its next await or its end. */
    method ContinueResolution(token: nat, r: Resolution, reply: Reply)
      requires r.WellFormed()
      modifies this
      ensures View() == Continue(old(View()), token, r, reply)
    {
      hide Commit, Filter, Choose, PreferredTenant, Overrides;
      match reply
      case Failed(status) =>
        activeWorkspaceId, workspaces, error, tenantFailure := None, [], Some(WorkspacesFailed(status)), None;
        loading := false;
        mirror := None;
      case Loaded(items) =>
        var candidates := Filter(items, r.profile.membership);
        match r.goal
        case Search(workspaceId, next, seen) =>
          if workspaceId in candidates {
            CommitSelection(r.profile.userId, Some(r.tenants[next]), Some(workspaceId), candidates);
          } else if next + 1 < |r.tenants| {
            resolutions := resolutions[token := r.(goal := Search(workspaceId, next + 1, seen + [candidates]))];
          } else {
            CommitSelection(r.profile.userId, None, None, []);
          }
        case Open(tenantId) =>
          var preferred := None;
          if r.selection.None? && r.stored.Some? && r.stored.value.tenantId == Some(tenantId) {
            preferred := r.stored.value.workspaceId;
          }
          CommitSelection(r.profile.userId, Some(tenantId), Choose(candidates, preferred), candidates);
    }

    method AcceptTenants(profile: Profile, items: seq<Id>)
      modifies this
      ensures View() == Accept(old(View()), profile, items)
    {
      hide Filter;
      tenants := Some(Filter(items, profile.ownTenantIds));
      if tenantFailure.Some? { error := None; }
      tenantFailure := None;
    }

    method RejectTenants(status: Option<int>)
      modifies this
      ensures View() == Reject(old(View()), status)
    {
      tenantFailure := Some(TenantsFailed(status));
      error, tenants, loading := tenantFailure, Some([]), false;
    }

    /** A tenant list arrived, for a reload or for the bootstrap. */
    method OnTenants(token: nat, reply: Reply)
      requires token in tenantLoads
      modifies this
      ensures View() == StepTenantsReplied(old(View()), token, reply)
    {
      hide Accept, Reject, Resolve;
      var load := tenantLoads[token];
      tenantLoads := tenantLoads - {token};
      if token != tenantToken { return; }
      if load.reload { tenantsReloading := false; }
      match reply {
        case Loaded(items) => AcceptTenants(load.profile, items);
        case Failed(status) => RejectTenants(status);
      }
      RerunResolveEffect();
    }

    method ReloadTenants()
      modifies this
      ensures View() == Step(old(View()), Event.ReloadTenants)
    {
      tenantToken := tenantToken + 1;
      loading, tenantsReloading := true, true;
      tenantLoads := tenantLoads[tenantToken := TenantLoad(true, session)];
    }

    method ReloadWorkspaces()
      modifies this
      ensures View() == Step(old(View()), Event.ReloadWorkspaces)
    {
      hide StartResolution;
      error := None;
      ResolveWorkspaces();
    }

    /** A new session object: both clean-ups, then both effects. */
    method ChangeSession(next: Profile)
      modifies this
      ensures View() == Step(old(View()), SessionChanged(next))
    {
      hide StartResolution;
      CleanUp(next);
      RunEffects();
    }

    /** The clean-ups of both effects when the next session is rendered; without a user the first has none. */
    method CleanUp(next: Profile)
      modifies this
      ensures var s := old(View());
        View() == s.(profile := next, workspaceToken := s.workspaceToken + 1,
                     tenantToken := s.tenantToken + if s.profile.userId == "" then 0 else 1)
    {
      if session.userId != "" { tenantToken := tenantToken + 1; }
      workspaceToken := workspaceToken + 1;
      session := next;
    }

    method ChangeRoute(next: Option<Id>)
      modifies this
      ensures View() == Step(old(View()), RouteChanged(next))
    {
      hide StartResolution;
      if next == routeId { return; }
      routeId := next;
      RerunResolveEffect();
    }

    method SwitchTenant(tenantId: Option<Id>)
      modifies this
      ensures View() == Switch(old(View()), tenantId)
    {
      hide Persist;
      SetActive(tenantId, None, []);
      PersistSelection(session.userId, tenantId, None);
      error := None;
      selection := Some(Selection(tenantId, routeId));
    }

    method SelectTenant(id: Option<string>)
      modifies this
      ensures View() == StepSelectTenant(old(View()), id)
    {
      hide ToId, Switch, Resolve;
      var tenantId := ToId(id);
      if tenantId.Some? && (tenants.None? || tenantId.value !in tenants.value) { return; }
      if tenantId == activeTenantId { return; }
      SwitchTenant(tenantId);
      RerunResolveEffect();
    }

    method SelectWorkspace(id: Option<string>)
      modifies this
      ensures View() == StepSelectWorkspace(old(View()), id)
    {
      hide ToId, Persist;
      var workspaceId := ToId(id);
      if workspaceId.Some? && workspaceId.value !in workspaces { return; }
      activeWorkspaceId := workspaceId;
      PersistSelection(session.userId, activeTenantId, workspaceId);
    }
  }
}
