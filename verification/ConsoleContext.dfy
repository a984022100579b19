/** The tenant and workspace context provider as a transition system. One step is one user or network event together
    with the re-render, effect clean-ups and effects it causes. */
module ConsoleContext {
  import opened Prelude

  /** Tenant and workspace ids are never empty. */
  type Id = s: string | s != "" witness "id"

  /** The parts of the session the provider reads: the trimmed user id ("" without one), the workspace memberships
      and the own tenants, both without empty entries. */
  datatype Profile = Profile(userId: string, membership: seq<Id>, ownTenantIds: seq<Id>)

  datatype Error = TenantsFailed(status: Option<int>) | WorkspacesFailed(status: Option<int>)

  /** A deliberate tenant choice and the route it was made under. */
  datatype Selection = Selection(tenantId: Option<Id>, route: Option<Id>)

  datatype Saved = Saved(userId: string, tenantId: Option<string>, workspaceId: Option<string>)
  datatype Storage = Empty | Malformed | Content(saved: Saved)

  /** One listAccessibleTenants request, for the session that sent it. */
  datatype TenantLoad = TenantLoad(reload: bool, profile: Profile)

  /** What a resolution is waiting for: the workspaces of tenants[next] while it searches a route's workspace, or those
      of the one tenant it opens. `seen` holds the candidates of the tenants already searched. */
  datatype Goal = Search(workspaceId: Id, next: nat, seen: seq<seq<Id>>) | Open(tenantId: Id)

  /** One suspended resolveWorkspaces call with the values its closure captured. */
  datatype Resolution = Resolution(profile: Profile, tenants: seq<Id>, route: Option<Id>, selection: Option<Selection>,
                                   stored: Option<Saved>, goal: Goal)
  {
    predicate WellFormed() {
      && profile.userId != ""
      && match goal
         case Search(workspaceId, next, seen) =>
           && next < |tenants| && |seen| == next && route == Some(workspaceId) && Overrides(route, selection)
           && forall j :: 0 <= j < next ==> workspaceId !in seen[j]
         case Open(tenantId) =>
           !Overrides(route, selection) && Choose(tenants, PreferredTenant(selection, stored)) == Some(tenantId)
    }

    /** The tenant whose workspaces it is waiting for. */
    function Awaited(): Id
      requires WellFormed()
    {
      if goal.Open? then goal.tenantId else tenants[goal.next]
    }
  }

  /** An answered workspace request: the resolution that sent it, the tenant asked for, the membership filter and the
      raw answer. */
  datatype Answer = Answer(token: nat, tenantId: Id, membership: seq<Id>, items: seq<Id>)

  /** `mirror` is the user of the last write of the selection, None before any, after a failed workspace load and after
      another page or the legacy app, which share the key, wrote the storage;
      `answered` records every answered workspace request. */
  datatype State = State(profile: Profile, route: Option<Id>, tenants: Option<seq<Id>>, workspaces: seq<Id>,
                         tenant: Option<Id>, workspace: Option<Id>, loading: bool, reloading: bool,
                         error: Option<Error>, tenantFailure: Option<Error>, selection: Option<Selection>,
                         tenantToken: nat, workspaceToken: nat, tenantLoads: map<nat, TenantLoad>,
                         resolutions: map<nat, Resolution>, storage: Storage, mirror: Option<string>,
                         answered: set<Answer>)
  {
    /** The `loading` the provider exposes. */
    predicate Loading() { loading || reloading }
  }

  /** A route's workspace overrides the stored selection unless a tenant was chosen under that very route. */
  predicate Overrides(route: Option<Id>, selection: Option<Selection>) {
    route.Some? && !(selection.Some? && selection.value.route == route)
  }

  predicate Allows(allowed: seq<Id>, id: Id) { allowed == [] || id in allowed }

  /** The members of `items` an optional allow-list lets through, in order. */
  function Filter(items: seq<Id>, allowed: seq<Id>): (r: seq<Id>)
    ensures forall x :: x in r <==> x in items && Allows(allowed, x)
  {
    if items == [] then []
    else
      var last := |items| - 1;
      Filter(items[..last], allowed) + if Allows(allowed, items[last]) then [items[last]] else []
  }

  /** `kept` are exactly the items let through, at the increasing positions `at`: neither reordered nor repeated. */
  predicate KeptAt(items: seq<Id>, allowed: seq<Id>, kept: seq<Id>, at: seq<nat>) {
    && |at| == |kept|
    && (forall i :: 0 <= i < |at| ==> at[i] < |items| && items[at[i]] == kept[i])
    && (forall i, j :: 0 <= i < j < |at| ==> at[i] < at[j])
    && (forall k :: 0 <= k < |items| ==> (k in at <==> Allows(allowed, items[k])))
  }

  lemma KeptAtMore(items: seq<Id>, allowed: seq<Id>, kept: seq<Id>, at: seq<nat>, x: Id)
    requires KeptAt(items, allowed, kept, at)
    ensures if Allows(allowed, x) then KeptAt(items + [x], allowed, kept + [x], at + [|items|])
            else KeptAt(items + [x], allowed, kept, at)
  {
    hide Allows;
    assert |items| !in at;
  }

  lemma {:induction false} FilterKeepsOrder(items: seq<Id>, allowed: seq<Id>) returns (at: seq<nat>)
    ensures KeptAt(items, allowed, Filter(items, allowed), at)
  {
    hide Allows;
    if items == [] { return []; }
    hide KeptAt;
    var last := |items| - 1;
    at := FilterKeepsOrder(items[..last], allowed);
    assert items == items[..last] + [items[last]];
    KeptAtMore(items[..last], allowed, Filter(items[..last], allowed), at, items[last]);
    if Allows(allowed, items[last]) { at := at + [last]; }
  }

  function ReadSelection(storage: Storage, userId: string): (Option<Saved>, Storage) {
    match storage
    case Empty => (None, Empty)
    case Malformed => (None, Empty)
    case Content(saved) => (if saved.userId == userId then Some(saved) else None, storage)
  }

  function Persist(userId: string, tenant: Option<Id>, workspace: Option<Id>): Storage {
    if userId == "" || (tenant.None? && workspace.None?) then Empty else Content(Saved(userId, tenant, workspace))
  }

  // ----- Workspace resolution -----

  function Commit(s: State, userId: string, tenant: Option<Id>, workspace: Option<Id>, list: seq<Id>): State {
    s.(tenant := tenant, workspace := workspace, workspaces := list, loading := false,
       storage := Persist(userId, tenant, workspace), mirror := Some(userId))
  }

  /** The tenant or workspace a resolution opens when no route overrides: the preferred one if listed, else the
      only one. */
  function Choose(items: seq<Id>, preferred: Option<string>): (r: Option<Id>)
    ensures preferred.Some? && preferred.value in items ==> r == preferred
    ensures r.Some? && r != preferred ==> items == [r.value]
    ensures r.None? ==> |items| != 1
    ensures r.Some? ==> r.value in items
  {
    if preferred.Some? && preferred.value in items then preferred
    else if |items| == 1 then Some(items[0]) else None
  }

  function PreferredTenant(selection: Option<Selection>, stored: Option<Saved>): Option<string> {
    if selection.Some? then selection.value.tenantId
    else if stored.Some? then stored.value.tenantId else None
  }

  /** Park the newest resolution with everything its closure captured. */
  function Suspend(s: State, stored: Option<Saved>, goal: Goal): State
    requires s.tenants.Some?
  {
    s.(resolutions := s.resolutions[s.workspaceToken :=
         Resolution(s.profile, s.tenants.value, s.route, s.selection, stored, goal)])
  }

  /** resolveWorkspaces up to its first await. */
  function StartResolution(s: State): State {
    if s.tenants.None? || s.profile.userId == "" then s
    else
      var tenants := s.tenants.value;
      var (stored, storage) := ReadSelection(s.storage, s.profile.userId);
      var s := s.(workspaceToken := s.workspaceToken + 1, storage := storage, loading := true);
      if Overrides(s.route, s.selection) then
        if Allows(s.profile.membership, s.route.value) && tenants != []
        then Suspend(s, stored, Search(s.route.value, 0, []))
        else Commit(s, s.profile.userId, None, None, [])
      else
        match Choose(tenants, PreferredTenant(s.selection, stored))
        case Some(tenantId) => Suspend(s, stored, Open(tenantId))
        case None => Commit(s, s.profile.userId, None, None, [])
  }

  /** The clean-up of the previous effect and the effect itself, run when one of its dependencies changed. */
  function Resolve(s: State): State {
    StartResolution(s.(workspaceToken := s.workspaceToken + 1))
  }

  datatype Reply = Loaded(items: seq<Id>) | Failed(status: Option<int>)

  /** The rest of a resolution that is still the newest, up to its next await or its end. */
  function Continue(s: State, token: nat, r: Resolution, reply: Reply): State
    requires r.WellFormed()
  {
    match reply
    case Failed(status) =>
      s.(workspace := None, workspaces := [], error := Some(WorkspacesFailed(status)), tenantFailure := None,
         loading := false, mirror := None)
    case Loaded(items) =>
      var candidates := Filter(items, r.profile.membership);
      match r.goal
      case Search(workspaceId, next, seen) =>
        if workspaceId in candidates then
          Commit(s, r.profile.userId, Some(r.tenants[next]), Some(workspaceId), candidates)
        else if next + 1 < |r.tenants| then
          s.(resolutions := s.resolutions[token := r.(goal := Search(workspaceId, next + 1, seen + [candidates]))])
        else Commit(s, r.profile.userId, None, None, [])
      case Open(tenantId) =>
        var preferred := if r.selection.None? && r.stored.Some? && r.stored.value.tenantId == Some(tenantId)
                         then r.stored.value.workspaceId else None;
        Commit(s, r.profile.userId, Some(tenantId), Choose(candidates, preferred), candidates)
  }

  /** The request leaves the pending ones; a superseded resolution does nothing more. */
  function StepWorkspaceReplied(s: State, token: nat, reply: Reply): State
    requires token in s.resolutions && s.resolutions[token].WellFormed()
  {
    var r := s.resolutions[token];
    var answered := if reply.Loaded? then {Answer(token, r.Awaited(), r.profile.membership, reply.items)} else {};
    var rest := s.(resolutions := s.resolutions - {token}, answered := s.answered + answered);
    if token == s.workspaceToken then Continue(rest, token, r, reply) else rest
  }

  // ----- Tenant loads -----

  /** The bootstrap effect; without a user the list is empty and nothing loads. */
  function Bootstrap(s: State): State {
    var token := s.tenantToken + 1;
    var s := s.(tenantToken := token, reloading := false);
    if s.profile.userId == "" then s.(tenants := Some([]), loading := false)
    else s.(tenantLoads := s.tenantLoads[token := TenantLoad(false, s.profile)])
  }

  function Mount(profile: Profile, route: Option<Id>, storage: Storage): State {
    var s := Bootstrap(State(profile, route, None, [], None, None, true, false, None, None, None, 0, 0, map[], map[],
                             storage, None, {}));
    if profile.userId == "" then Resolve(s) else StartResolution(s)
  }

  /** Both clean-ups, of which the bootstrap's is there only if there was a user, and the bootstrap of the new
      session. */
  function Restart(s: State, profile: Profile): State {
    Bootstrap(s.(profile := profile, workspaceToken := s.workspaceToken + 1,
                 tenantToken := s.tenantToken + if s.profile.userId == "" then 0 else 1))
  }

  function StepSessionChanged(s: State, profile: Profile): State {
    var s := Restart(s, profile);
    if profile.userId == "" then Resolve(s) else StartResolution(s)
  }

  /** acceptTenants: the filtered list; a displayed tenant failure is over. */
  function Accept(s: State, profile: Profile, items: seq<Id>): State {
    s.(tenants := Some(Filter(items, profile.ownTenantIds)), tenantFailure := None,
       error := if s.tenantFailure.Some? then None else s.error)
  }

  /** rejectTenants: the failure is displayed over an empty list. */
  function Reject(s: State, status: Option<int>): State {
    var failure := Some(TenantsFailed(status));
    s.(tenantFailure := failure, error := failure, tenants := Some([]), loading := false)
  }

  function StepTenantsReplied(s: State, token: nat, reply: Reply): State
    requires token in s.tenantLoads
  {
    var load := s.tenantLoads[token];
    var s := s.(tenantLoads := s.tenantLoads - {token});
    if token != s.tenantToken then s
    else
      var s := if load.reload then s.(reloading := false) else s;
      match reply
      case Loaded(items) => Resolve(Accept(s, load.profile, items))
      case Failed(status) => Resolve(Reject(s, status))
  }

  // ----- Selection -----

  function ToId(id: Option<string>): Option<Id> {
    match NormalizeId(id)
    case None => None
    case Some(t) => Some(t)
  }

  /** A deliberate switch: the selection under the current route, with nothing loaded for it yet. */
  function Switch(s: State, tenantId: Option<Id>): State {
    s.(tenant := tenantId, workspace := None, workspaces := [], error := None,
       storage := Persist(s.profile.userId, tenantId, None), mirror := Some(s.profile.userId),
       selection := Some(Selection(tenantId, s.route)))
  }

  function StepSelectTenant(s: State, id: Option<string>): State {
    var tenantId := ToId(id);
    if tenantId.Some? && (s.tenants.None? || tenantId.value !in s.tenants.value) then s
    else if tenantId == s.tenant then s
    else Resolve(Switch(s, tenantId))
  }

  function StepSelectWorkspace(s: State, id: Option<string>): State {
    var workspaceId := ToId(id);
    if workspaceId.Some? && workspaceId.value !in s.workspaces then s
    else s.(workspace := workspaceId, storage := Persist(s.profile.userId, s.tenant, workspaceId),
            mirror := Some(s.profile.userId))
  }

  datatype Event =
    | SessionChanged(profile: Profile)
    | RouteChanged(route: Option<Id>)
    | ReloadTenants
    | TenantsReplied(token: nat, reply: Reply)
    | ReloadWorkspaces
    | WorkspacesReplied(token: nat, reply: Reply)
    | SelectTenant(id: Option<string>)
    | SelectWorkspace(id: Option<string>)
    | StorageWritten(storage: Storage)

  /** One atomic step; an answer nobody waits for leaves the state unchanged. */
  function Step(s: State, ev: Event): State {
    match ev
    case SessionChanged(profile) => StepSessionChanged(s, profile)
    case RouteChanged(route) => if route == s.route then s else Resolve(s.(route := route))
    case ReloadTenants =>
      s.(tenantToken := s.tenantToken + 1, loading := true, reloading := true,
         tenantLoads := s.tenantLoads[s.tenantToken + 1 := TenantLoad(true, s.profile)])
    case TenantsReplied(token, reply) => if token in s.tenantLoads then StepTenantsReplied(s, token, reply) else s
    case ReloadWorkspaces => StartResolution(s.(error := None))
    case WorkspacesReplied(token, reply) =>
      if token in s.resolutions && s.resolutions[token].WellFormed() then StepWorkspaceReplied(s, token, reply) else s
    case SelectTenant(id) => StepSelectTenant(s, id)
    case SelectWorkspace(id) => StepSelectWorkspace(s, id)
    case StorageWritten(storage) => s.(storage := storage, mirror := None)
  }

  function Run(s: State, evs: seq<Event>): State
    decreases |evs|
  {
    if evs == [] then s else Run(Step(s, evs[0]), evs[1..])
  }

  // ----- Invariant -----

  /** Pending requests carry tokens already given out. */
  predicate TokensOk(resolutions: map<nat, Resolution>, workspaceToken: nat, loads: map<nat, TenantLoad>,
                     tenantToken: nat)
  {
    && (forall k :: k in resolutions ==> k <= workspaceToken && resolutions[k].WellFormed())
    && (forall k :: k in loads ==> k <= tenantToken)
  }

  /** The newest resolution captured exactly what is current. */
  predicate FreshResolution(s: State) {
    s.workspaceToken in s.resolutions ==>
      var r := s.resolutions[s.workspaceToken];
      r.profile == s.profile && s.tenants == Some(r.tenants) && r.route == s.route && r.selection == s.selection
  }

  /** The newest tenant load is the current session's; with a user, a missing tenant list or a pending reload means it
      is in flight; only a reload shows as reloading. */
  predicate LoadsOk(loads: map<nat, TenantLoad>, tenantToken: nat, profile: Profile, missing: bool, reloading: bool) {
    && (tenantToken in loads ==>
          loads[tenantToken].profile == profile && (reloading ==> loads[tenantToken].reload))
    && (profile.userId != "" && (missing || reloading) ==> tenantToken in loads)
  }

  /** With a user, everything that shows as loading has an unsuperseded request in flight. */
  predicate LoadingOk(s: State) {
    s.profile.userId != "" && s.loading ==> s.tenantToken in s.tenantLoads || s.workspaceToken in s.resolutions
  }

  /** The list was loaded for the active tenant and passed the filter of the session that loaded it. */
  predicate ListOk(tenant: Option<Id>, workspace: Option<Id>, workspaces: seq<Id>, answered: set<Answer>) {
    && (workspace.Some? ==> workspace.value in workspaces)
    && (workspaces != [] ==>
          tenant.Some? &&
          exists a :: a in answered && a.tenantId == tenant.value && workspaces == Filter(a.items, a.membership))
  }

  predicate StorageOk(mirror: Option<string>, storage: Storage, tenant: Option<Id>, workspace: Option<Id>) {
    mirror.Some? ==> storage == Persist(mirror.value, tenant, workspace)
  }

  /** A recorded tenant failure is the error on display, if there is one. */
  predicate ErrorOk(tenantFailure: Option<Error>, error: Option<Error>) {
    tenantFailure.Some? ==> tenantFailure.value.TenantsFailed? && (error.Some? ==> error == tenantFailure)
  }

  /** Everything the invariant asks of a state apart from its newest resolution. */
  predicate Startable(s: State) {
    && TokensOk(s.resolutions, s.workspaceToken, s.tenantLoads, s.tenantToken)
    && LoadsOk(s.tenantLoads, s.tenantToken, s.profile, s.tenants.None?, s.reloading)
    && ListOk(s.tenant, s.workspace, s.workspaces, s.answered)
    && StorageOk(s.mirror, s.storage, s.tenant, s.workspace)
    && ErrorOk(s.tenantFailure, s.error)
  }

  predicate Inv(s: State) {
    Startable(s) && FreshResolution(s) && LoadingOk(s)
  }

  lemma SuspendKeepsInv(s: State, stored: Option<Saved>, goal: Goal)
    requires Startable(s) && s.tenants.Some? && s.workspaceToken !in s.resolutions
    requires Resolution(s.profile, s.tenants.value, s.route, s.selection, stored, goal).WellFormed()
    ensures Inv(Suspend(s, stored, goal))
  {
    hide ListOk, StorageOk, ErrorOk, LoadsOk;
  }

  lemma CommitKeepsInv(s: State, tenant: Option<Id>, workspace: Option<Id>, list: seq<Id>)
    requires Startable(s) && s.workspaceToken !in s.resolutions && ListOk(tenant, workspace, list, s.answered)
    ensures Inv(Commit(s, s.profile.userId, tenant, workspace, list))
  {
    hide ListOk, Persist, ErrorOk, LoadsOk, TokensOk;
  }

  /** Starting a resolution accounts for the loading flag, whatever it was. */
  lemma StartKeepsInv(s: State)
    requires Startable(s) && s.tenants.Some? && s.profile.userId != ""
    ensures Inv(StartResolution(s))
  {
    hide ErrorOk, LoadsOk, Choose, PreferredTenant, Filter, Persist, Commit, Suspend;
    var (stored, storage) := ReadSelection(s.storage, s.profile.userId);
    var s1 := s.(workspaceToken := s.workspaceToken + 1, storage := storage, loading := true);
    ReadKeepsStorage(s);
    if Overrides(s.route, s.selection) {
      if Allows(s.profile.membership, s.route.value) && s.tenants.value != [] {
        SuspendKeepsInv(s1, stored, Search(s.route.value, 0, []));
      } else {
        CommitKeepsInv(s1, None, None, []);
      }
    } else {
      var tenantId := Choose(s.tenants.value, PreferredTenant(s.selection, stored));
      if tenantId.Some? {
        SuspendKeepsInv(s1, stored, Open(tenantId.value));
      } else {
        CommitKeepsInv(s1, None, None, []);
      }
    }
  }

  lemma ReadKeepsStorage(s: State)
    requires StorageOk(s.mirror, s.storage, s.tenant, s.workspace)
    ensures StorageOk(s.mirror, ReadSelection(s.storage, s.profile.userId).1, s.tenant, s.workspace)
  {}

  lemma StartsNothing(s: State)
    requires s.tenants.None? || s.profile.userId == ""
    ensures StartResolution(s) == s
  {}

  lemma ResolveKeepsInv(s: State)
    requires Startable(s)
    ensures Inv(Resolve(s))
  {
    hide ListOk, StorageOk, ErrorOk, StartResolution;
    var s1 := s.(workspaceToken := s.workspaceToken + 1);
    if s.tenants.Some? && s.profile.userId != "" { StartKeepsInv(s1); } else { StartsNothing(s1); }
  }

  lemma FailedKeepsInv(s: State, status: Option<int>)
    requires Startable(s) && s.workspaceToken !in s.resolutions
    ensures Inv(s.(workspace := None, workspaces := [], error := Some(WorkspacesFailed(status)), tenantFailure := None,
                   loading := false, mirror := None))
  {
    hide TokensOk, LoadsOk, Filter;
  }

  lemma ContinueKeepsInv(s: State, token: nat, reply: Reply)
    requires Inv(s) && token in s.resolutions
    ensures Inv(StepWorkspaceReplied(s, token, reply))
  {
    hide ErrorOk, LoadsOk, StorageOk, Filter, Persist, Commit, Choose, Overrides;
    var r := s.resolutions[token];
    var answered := if reply.Loaded? then {Answer(token, r.Awaited(), r.profile.membership, reply.items)} else {};
    var rest := s.(resolutions := s.resolutions - {token}, answered := s.answered + answered);
    assert Startable(rest);
    if token == s.workspaceToken {
      match reply
      case Failed(status) => FailedKeepsInv(rest, status);
      case Loaded(items) =>
        var candidates := Filter(items, r.profile.membership);
        assert Answer(token, r.Awaited(), r.profile.membership, items) in rest.answered;
        match r.goal
        case Search(workspaceId, next, seen) =>
          if workspaceId in candidates {
            CommitKeepsInv(rest, Some(r.tenants[next]), Some(workspaceId), candidates);
          } else if next + 1 < |r.tenants| {
            SuspendKeepsInv(rest, r.stored, Search(workspaceId, next + 1, seen + [candidates]));
          } else {
            CommitKeepsInv(rest, None, None, []);
          }
        case Open(tenantId) =>
          var preferred := if r.selection.None? && r.stored.Some? && r.stored.value.tenantId == Some(tenantId)
                           then r.stored.value.workspaceId else None;
          CommitKeepsInv(rest, Some(tenantId), Choose(candidates, preferred), candidates);
    }
  }

  lemma TenantsRepliedKeepsInv(s: State, token: nat, reply: Reply)
    requires Inv(s) && token in s.tenantLoads
    ensures Inv(StepTenantsReplied(s, token, reply))
  {
    hide Resolve, ListOk, StorageOk, Filter;
    var load := s.tenantLoads[token];
    var s1 := s.(tenantLoads := s.tenantLoads - {token});
    if token == s.tenantToken {
      s1 := if load.reload then s1.(reloading := false) else s1;
      match reply
      case Loaded(items) => ResolveKeepsInv(Accept(s1, load.profile, items));
      case Failed(status) => ResolveKeepsInv(Reject(s1, status));
    }
  }

  lemma SessionChangedKeepsInv(s: State, profile: Profile)
    requires Inv(s)
    ensures Inv(StepSessionChanged(s, profile))
  {
    hide StartResolution, ListOk, StorageOk, ErrorOk;
    var b := Restart(s, profile);
    if profile.userId == "" { ResolveKeepsInv(b); }
    else if b.tenants.Some? { StartKeepsInv(b); }
    else { StartsNothing(b); }
  }

  lemma SelectTenantKeepsInv(s: State, id: Option<string>)
    requires Inv(s)
    ensures Inv(StepSelectTenant(s, id))
  {
    hide Resolve, Filter, Persist, ToId;
    ResolveKeepsInv(Switch(s, ToId(id)));
  }

  lemma StepKeepsInv(s: State, ev: Event)
    requires Inv(s)
    ensures Inv(Step(s, ev))
  {
    hide StartResolution, Resolve, StepSelectTenant, StepTenantsReplied, StepWorkspaceReplied, StepSessionChanged,
      Filter, ToId;
    match ev
    case SessionChanged(profile) => SessionChangedKeepsInv(s, profile);
    case RouteChanged(route) => if route != s.route { ResolveKeepsInv(s.(route := route)); }
    case TenantsReplied(token, reply) => if token in s.tenantLoads { TenantsRepliedKeepsInv(s, token, reply); }
    case ReloadWorkspaces =>
      var s1 := s.(error := None);
      if s.tenants.Some? && s.profile.userId != "" { StartKeepsInv(s1); } else { StartsNothing(s1); }
    case WorkspacesReplied(token, reply) => if token in s.resolutions { ContinueKeepsInv(s, token, reply); }
    case SelectTenant(id) => SelectTenantKeepsInv(s, id);
    case _ =>
  }

  lemma MountEstablishesInv(profile: Profile, route: Option<Id>, storage: Storage)
    ensures Inv(Mount(profile, route, storage))
  {}

  lemma {:induction false} RunFromKeepsInv(s: State, evs: seq<Event>)
    requires Inv(s)
    ensures Inv(Run(s, evs))
    decreases |evs|
  {
    hide Step, Inv;
    if evs != [] {
      StepKeepsInv(s, evs[0]);
      RunFromKeepsInv(Step(s, evs[0]), evs[1..]);
    }
  }

  /** Every run of a mounted provider keeps the invariant. */
  lemma RunKeepsInv(profile: Profile, route: Option<Id>, storage: Storage, evs: seq<Event>)
    ensures Inv(Run(Mount(profile, route, storage), evs))
  {
    hide Mount, Inv;
    MountEstablishesInv(profile, route, storage);
    RunFromKeepsInv(Mount(profile, route, storage), evs);
  }
}
