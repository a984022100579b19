/** What every event does to the tenants, workspaces, selection and errors on display, stated on what was chosen,
    stored, asked and answered. */
module ConsoleContextOutcomes {
  import opened Prelude
  import opened ConsoleContext
  import opened ConsoleContextGuarantees

  // ----- Starting a resolution -----

  /** The pair the storage holds for the current user. */
  function StoredPair(s: State): Option<Saved> {
    if s.storage.Content? && s.storage.saved.userId == s.profile.userId then Some(s.storage.saved) else None
  }

  /** The tenant chosen deliberately, or else the stored one. */
  function Wanted(s: State): Option<string> {
    match s.selection
    case Some(selection) => selection.tenantId
    case None => match StoredPair(s) case Some(saved) => saved.tenantId case None => None
  }

  /** The newest resolution waits with everything current, and the display stays as it was. */
  predicate Asks(s: State, s': State, goal: Goal) {
    && s.tenants.Some? && s'.workspaceToken in s'.resolutions && s'.loading
    && s'.resolutions[s'.workspaceToken]
       == Resolution(s.profile, s.tenants.value, s.route, s.selection, StoredPair(s), goal)
    && s'.tenant == s.tenant && s'.workspace == s.workspace && s'.workspaces == s.workspaces
    && s'.storage == (if s.storage.Malformed? then Empty else s.storage) && s'.mirror == s.mirror
  }

  predicate SelectsNothing(s: State, s': State) {
    && s'.workspaceToken !in s'.resolutions && !s'.loading
    && s'.tenant.None? && s'.workspace.None? && s'.workspaces == [] && s'.storage == Empty
  }

  /** A resolution searches the route's workspace unless a tenant was chosen under that route, else opens the wanted
      tenant if it is listed, else the only one, and otherwise selects nothing. */
  predicate Pursues(s: State, s': State) {
    && s.tenants.Some?
    && var (tenants, wanted) := (s.tenants.value, Wanted(s));
       if s.route.Some? && (s.selection.None? || s.selection.value.route != s.route) then
         (if (s.profile.membership == [] || s.route.value in s.profile.membership) && tenants != []
          then Asks(s, s', Search(s.route.value, 0, [])) else SelectsNothing(s, s'))
       else if wanted.Some? && wanted.value in tenants then Asks(s, s', Open(wanted.value))
       else if |tenants| == 1 then Asks(s, s', Open(tenants[0]))
       else SelectsNothing(s, s')
  }

  /** Nothing but the display, the storage and the resolutions changes. */
  predicate OnlyResolves(s: State, s': State) {
    s' == s.(workspaceToken := s'.workspaceToken, resolutions := s'.resolutions, loading := s'.loading,
             tenant := s'.tenant, workspace := s'.workspace, workspaces := s'.workspaces, storage := s'.storage,
             mirror := s'.mirror)
  }

  /** With a user and tenants a resolution supersedes all others and pursues what is current; else nothing happens. */
  predicate Starts(s: State, s': State) {
    if s.tenants.None? || s.profile.userId == "" then s' == s.(workspaceToken := s'.workspaceToken)
    else s'.workspaceToken > s.workspaceToken && OnlyResolves(s, s') && Pursues(s, s')
  }

  lemma StartDecides(s: State)
    requires TokensOk(s.resolutions, s.workspaceToken, s.tenantLoads, s.tenantToken)
    ensures Starts(s, StartResolution(s))
  {
    hide Resolution.WellFormed;
    if s.tenants.Some? && s.profile.userId != "" { StartPursues(s); }
    hide Pursues;
  }

  lemma StartPursues(s: State)
    requires TokensOk(s.resolutions, s.workspaceToken, s.tenantLoads, s.tenantToken)
    requires s.tenants.Some? && s.profile.userId != ""
    ensures Pursues(s, StartResolution(s))
  {
    hide Resolution.WellFormed;
    assert s.workspaceToken + 1 !in s.resolutions;
    assert ReadSelection(s.storage, s.profile.userId)
        == (StoredPair(s), if s.storage.Malformed? then Empty else s.storage);
    hide TokensOk, ReadSelection, StoredPair;
    if Overrides(s.route, s.selection) {
      hide Choose, PreferredTenant, Wanted;
    } else {
      assert PreferredTenant(s.selection, StoredPair(s)) == Wanted(s);
      hide PreferredTenant, Wanted;
    }
  }

  /** A changed route, a reload of the workspaces and a changed session all start over from what is then current. */
  lemma ResolutionStarts(s: State, route: Option<Id>)
    requires Inv(s)
    ensures route != s.route ==> Starts(s.(route := route), Step(s, RouteChanged(route)))
    ensures route == s.route ==> Step(s, RouteChanged(route)) == s
    ensures Starts(s.(error := None), Step(s, ReloadWorkspaces))
  {
    hide Resolution.WellFormed, StartResolution, Starts, FreshResolution, ListOk, StorageOk, ErrorOk, LoadsOk;
    ResolveDecides(s.(route := route));
    StartDecides(s.(error := None));
  }

  lemma ResolveDecides(s: State)
    requires TokensOk(s.resolutions, s.workspaceToken, s.tenantLoads, s.tenantToken)
    ensures Starts(s, Resolve(s))
  {
    hide Resolution.WellFormed, StartResolution, Starts;
    StartDecides(s.(workspaceToken := s.workspaceToken + 1));
    StartsFromBefore(s, Resolve(s));
  }

  /** The clean-up before it only takes one more token. */
  lemma StartsFromBefore(s: State, s': State)
    requires Starts(s.(workspaceToken := s.workspaceToken + 1), s')
    ensures Starts(s, s')
  {}

  // ----- Choices of the user -----

  /** selectWorkspace activates and stores exactly the listed workspace asked for, or none; it ignores anything else. */
  lemma WorkspaceIsChosen(s: State, id: Option<string>)
    ensures var s' := Step(s, SelectWorkspace(id));
      var chosen := NormalizeId(id);
      if chosen.None? || chosen.value in s.workspaces then
        && s'.workspace == chosen
        && s'.storage == (if s.profile.userId == "" || (s.tenant.None? && chosen.None?) then Empty
                          else Content(Saved(s.profile.userId, s.tenant, chosen)))
        && s' == s.(workspace := s'.workspace, storage := s'.storage, mirror := s'.mirror)
      else s' == s
  {}

  /** The choice is active, selected under the current route and stored, without a workspace. */
  predicate Switched(s: State, s': State, chosen: Option<Id>) {
    && s'.tenant == chosen && s'.selection == Some(Selection(chosen, s.route))
    && s'.workspace.None? && s'.workspaces == [] && s'.error.None?
    && s'.storage == (if s.profile.userId == "" || chosen.None? then Empty
                      else Content(Saved(s.profile.userId, chosen, None)))
  }

  /** selectTenant ignores an unlisted tenant and the active one; any other choice becomes the active tenant and the
      selection under the current route, without a workspace, and a resolution of it starts. */
  lemma TenantIsChosen(s: State, id: Option<string>)
    requires Inv(s)
    ensures var s' := Step(s, SelectTenant(id));
      var chosen := ToId(id);
      && chosen == NormalizeId(id)
      && if (chosen.Some? && (s.tenants.None? || chosen.value !in s.tenants.value)) || chosen == s.tenant then s' == s
         else
           && Switched(s, s', chosen)
           && Starts(s.(selection := s'.selection, tenant := chosen, workspace := None, workspaces := [], error := None,
                        storage := s'.storage, mirror := Some(s.profile.userId)), s')
           && (chosen.Some? && s.profile.userId != "" ==>
                 s'.workspaceToken in s'.resolutions && s'.resolutions[s'.workspaceToken].goal == Open(chosen.value))
  {
    var chosen := ToId(id);
    var switched := Switch(s, chosen);
    assert Switched(s, switched, chosen);
    ResolveDecides(switched);
    hide Resolution.WellFormed, Resolve, Switch, FreshResolution, ListOk, StorageOk, ErrorOk, LoadsOk;
  }

  // ----- Sessions and tenant loads -----

  /** A mounted provider of a user is loading its tenants; without a user there is nothing to load. */
  lemma MountDecides(profile: Profile, route: Option<Id>, storage: Storage)
    ensures var s := Mount(profile, route, storage);
      && s.profile == profile && s.route == route && s.storage == storage && s.resolutions == map[]
      && s.tenant.None? && s.workspace.None? && s.workspaces == [] && s.selection.None? && s.error.None?
      && s.mirror.None? && s.tenantFailure.None? && s.answered == {} && !s.reloading
      && if profile.userId == "" then s.tenants == Some([]) && !s.loading && s.tenantLoads == map[]
         else s.tenants.None? && s.loading && s.tenantLoads == map[s.tenantToken := TenantLoad(false, profile)]
  {}

  /** Another page or the legacy app may write anything under the key; nothing on this page changes. */
  lemma ForeignWritesOnlyStore(s: State, storage: Storage)
    ensures Step(s, StorageWritten(storage)) == s.(storage := storage, mirror := None)
  {}

  /** reloadTenants asks for the tenants of the current session and shows that it does. */
  lemma ReloadAsksAgain(s: State)
    ensures var s' := Step(s, ReloadTenants);
      && s'.tenantToken > s.tenantToken && s'.loading && s'.reloading
      && s'.tenantLoads == s.tenantLoads[s'.tenantToken := TenantLoad(true, s.profile)]
      && s' == s.(tenantToken := s'.tenantToken, tenantLoads := s'.tenantLoads, loading := true, reloading := true)
  {}

  /** A new session with a user supersedes what was asked, asks for its own tenants and resolves what is listed
      meanwhile. */
  lemma SessionChangeDecides(s: State, profile: Profile)
    requires Inv(s) && profile.userId != ""
    ensures var s' := Step(s, SessionChanged(profile));
      && s'.tenantToken > s.tenantToken && s'.workspaceToken > s.workspaceToken
      && s'.tenantLoads == s.tenantLoads[s'.tenantToken := TenantLoad(false, profile)]
      && Starts(s.(profile := profile, reloading := false, tenantToken := s'.tenantToken,
                   tenantLoads := s'.tenantLoads), s')
  {
    var b := Restart(s, profile);
    RestartAsks(s, profile);
    hide Inv, TokensOk, StartResolution, Starts, Restart;
    StartDecides(b);
    StartGoesOn(b);
    StartsKeepsLoads(b, StartResolution(b));
    StartsFromBefore(s.(profile := profile, reloading := false, tenantToken := b.tenantToken,
                        tenantLoads := b.tenantLoads), StartResolution(b));
  }

  lemma RestartAsks(s: State, profile: Profile)
    requires Inv(s) && profile.userId != ""
    ensures var b := Restart(s, profile);
      && b == s.(profile := profile, workspaceToken := s.workspaceToken + 1, reloading := false,
                 tenantToken := b.tenantToken, tenantLoads := b.tenantLoads)
      && b.tenantToken > s.tenantToken && b.tenantLoads == s.tenantLoads[b.tenantToken := TenantLoad(false, profile)]
      && TokensOk(b.resolutions, b.workspaceToken, b.tenantLoads, b.tenantToken)
  {
    hide Resolution.WellFormed;
  }

  lemma StartsKeepsLoads(s: State, s': State)
    requires Starts(s, s')
    ensures s'.tenantToken == s.tenantToken && s'.tenantLoads == s.tenantLoads
  {
    hide Pursues;
  }

  /** A session without a user supersedes what was asked, and has no tenants and nothing loading. */
  lemma SignedOutDecides(s: State, profile: Profile)
    requires profile.userId == ""
    ensures var s' := Step(s, SessionChanged(profile));
      && s'.tenantToken > s.tenantToken && s'.workspaceToken > s.workspaceToken
      && s' == s.(profile := profile, tenantToken := s'.tenantToken, workspaceToken := s'.workspaceToken,
                  tenants := Some([]), loading := false, reloading := false)
  {}

  /** The newest tenant answer lists the tenants its session may see and ends a displayed tenant failure; a failed one
      lists none and shows its status. Either way the reload is over and the workspaces are resolved anew. */
  lemma TenantAnswerDecides(s: State, reply: Reply)
    requires Inv(s) && s.tenantToken in s.tenantLoads
    ensures var s' := Step(s, TenantsReplied(s.tenantToken, reply));
      && s'.tenantLoads == s.tenantLoads - {s.tenantToken} && !s'.reloading
      && match reply
         case Loaded(items) =>
           && s'.tenants == Some(Filter(items, s.profile.ownTenantIds)) && s'.tenantFailure.None?
           && s'.error == (if s.tenantFailure.Some? then None else s.error)
           && Starts(s.(tenantLoads := s'.tenantLoads, reloading := false, tenants := s'.tenants, tenantFailure := None,
                        error := s'.error), s')
         case Failed(status) =>
           && s'.tenants == Some([]) && s'.error == s'.tenantFailure == Some(TenantsFailed(status)) && !s'.Loading()
           && (s.profile.userId != "" ==> SelectsNothing(s, s'))
  {
    hide Resolution.WellFormed, Resolve, Filter, FreshResolution, ListOk, StorageOk, ErrorOk;
    var load := s.tenantLoads[s.tenantToken];
    var s1 := s.(tenantLoads := s.tenantLoads - {s.tenantToken}, reloading := false);
    match reply
    case Loaded(items) =>
      ResolveDecides(Accept(s1, load.profile, items));
    case Failed(status) =>
      ResolveDecides(Reject(s1, status));
  }

  // ----- Workspace answers -----

  /** A failed newest workspace load shows its status over an empty list, and keeps tenant, selection and storage. */
  lemma FailedResolutionDecides(s: State, status: Option<int>)
    requires Inv(s) && s.workspaceToken in s.resolutions
    ensures var s' := Step(s, WorkspacesReplied(s.workspaceToken, Failed(status)));
      && s'.error == Some(WorkspacesFailed(status)) && s'.tenantFailure.None?
      && s'.workspace.None? && s'.workspaces == [] && !s'.loading
      && s' == s.(error := s'.error, tenantFailure := None, workspace := None, workspaces := [], loading := false,
                  mirror := None, resolutions := s.resolutions - {s.workspaceToken})
  {
    hide ListOk, StorageOk, ErrorOk, LoadsOk;
  }

  /** An opened tenant becomes active with the workspaces its session may see: the stored one if no tenant was chosen
      since, the pair is this tenant's and it is listed; else the only one; else none. The pair is stored. */
  lemma OpenedTenantDecides(s: State, items: seq<Id>)
    requires Inv(s) && s.workspaceToken in s.resolutions && s.resolutions[s.workspaceToken].goal.Open?
    ensures var s' := Step(s, WorkspacesReplied(s.workspaceToken, Loaded(items)));
      var (r, t) := (s.resolutions[s.workspaceToken], s.resolutions[s.workspaceToken].goal.tenantId);
      var list := Filter(items, s.profile.membership);
      var chosen :=
        if s.selection.None? && r.stored.Some? && r.stored.value.tenantId == Some(t)
           && r.stored.value.workspaceId.Some? && r.stored.value.workspaceId.value in list
        then r.stored.value.workspaceId
        else if |list| == 1 then Some(list[0])
        else None;
      && s'.workspace == chosen
      && s' == s.(tenant := Some(t), workspace := s'.workspace, workspaces := list, loading := false,
                  storage := Content(Saved(s.profile.userId, Some(t), chosen)), mirror := Some(s.profile.userId),
                  resolutions := s.resolutions - {s.workspaceToken}, answered := s'.answered)
  {
    hide Filter, ListOk, StorageOk, ErrorOk, LoadsOk, Overrides, PreferredTenant;
  }

  // ----- What shows as loading -----

  /** The newest resolution, and a reload of the tenants, show while they are in flight. */
  predicate ShownOk(s: State) {
    && (s.workspaceToken in s.resolutions ==> s.loading)
    && (s.tenantToken in s.tenantLoads && s.tenantLoads[s.tenantToken].reload ==> s.reloading)
  }

  lemma StartKeepsShown(s: State)
    requires TokensOk(s.resolutions, s.workspaceToken, s.tenantLoads, s.tenantToken) && ShownOk(s)
    ensures ShownOk(StartResolution(s))
    ensures ShownOk(Resolve(s))
  {
    hide Choose, PreferredTenant, Persist, ReadSelection, Overrides, Resolution.WellFormed;
  }

  lemma StepKeepsShown(s: State, ev: Event)
    requires Inv(s) && ShownOk(s)
    ensures ShownOk(Step(s, ev))
  {
    hide StartResolution, Resolve, StepWorkspaceReplied, ToId, Filter, Persist, Resolution.WellFormed, FreshResolution,
      ListOk, StorageOk, ErrorOk;
    match ev
    case SessionChanged(profile) => RestartKeepsShown(s, profile);
    case RouteChanged(route) => ResolveKeepsShown(s.(route := route));
    case TenantsReplied(token, reply) =>
      if token == s.tenantToken && token in s.tenantLoads {
        var s1 := s.(tenantLoads := s.tenantLoads - {token}, reloading := false);
        match reply
        case Loaded(items) => ResolveKeepsShown(Accept(s1, s.tenantLoads[token].profile, items));
        case Failed(status) => ResolveKeepsShown(Reject(s1, status));
      }
    case ReloadWorkspaces => StartKeepsShown(s.(error := None));
    case SelectTenant(id) => ResolveKeepsShown(Switch(s, ToId(id)));
    case WorkspacesReplied(token, reply) => if token in s.resolutions { WorkspacesReplyKeepsShown(s, token, reply); }
    case _ =>
  }

  lemma ResolveKeepsShown(s: State)
    requires TokensOk(s.resolutions, s.workspaceToken, s.tenantLoads, s.tenantToken)
    requires s.tenantToken in s.tenantLoads && s.tenantLoads[s.tenantToken].reload ==> s.reloading
    ensures ShownOk(Resolve(s))
  {
    hide Resolution.WellFormed;
    var s1 := s.(workspaceToken := s.workspaceToken + 1);
    assert ShownOk(s1);
    hide StartResolution;
    StartKeepsShown(s1);
  }

  lemma RestartKeepsShown(s: State, profile: Profile)
    requires Inv(s)
    ensures ShownOk(StepSessionChanged(s, profile))
  {
    hide Resolution.WellFormed, StartResolution, FreshResolution, ListOk, StorageOk, ErrorOk;
    var b := Restart(s, profile);
    StartKeepsShown(b);
    ResolveKeepsShown(b);
  }

  lemma WorkspacesReplyKeepsShown(s: State, token: nat, reply: Reply)
    requires Inv(s) && ShownOk(s) && token in s.resolutions
    ensures s.resolutions[token].WellFormed() && ShownOk(StepWorkspaceReplied(s, token, reply))
  {
    hide Filter, Choose, Persist, ListOk, StorageOk, ErrorOk;
  }

  lemma {:induction false} RunKeepsShown(s: State, evs: seq<Event>)
    requires Inv(s) && ShownOk(s)
    ensures ShownOk(Run(s, evs))
    decreases |evs|
  {
    hide Step, Inv, ShownOk;
    if evs != [] {
      StepKeepsInv(s, evs[0]);
      StepKeepsShown(s, evs[0]);
      RunKeepsShown(Step(s, evs[0]), evs[1..]);
    }
  }

  /** In every run the newest resolution shows as loading while it is in flight, and so does a reload of the tenants. */
  lemma InFlightShowsAsLoading(profile: Profile, route: Option<Id>, storage: Storage, evs: seq<Event>)
    ensures var s := Run(Mount(profile, route, storage), evs);
      && (s.workspaceToken in s.resolutions ==> s.Loading())
      && (s.tenantToken in s.tenantLoads && s.tenantLoads[s.tenantToken].reload ==> s.Loading())
  {
    MountEstablishesInv(profile, route, storage);
    MountDecides(profile, route, storage);
    RunKeepsShown(Mount(profile, route, storage), evs);
    hide Run, Mount;
  }
}
