# Falcone console: verified asynchronous state machines

The console keeps several promises that have to hold whatever order network answers, clicks, route changes and timers
arrive in. This project models the code that keeps them as transition systems and proves the promises over every run.

A step runs from one `await` to the next. In the React providers a step is one event together with the re-render, the
effect clean-ups and the effects it causes. Network answers, failures, statuses, the clock and the interleaving are
parameters of the events, and an event that cannot happen leaves the state unchanged, so `Run(s, events)` over *any*
sequence of events covers every interleaving of any number of callers. An invariant is proved of every step, and the
guarantees are lemmas about every run.

The guarantees say what never happens; the `SessionOutcomes`, `ConsoleContextOutcomes`, `LocaleOutcomes` and
`PlanOutcomes` modules say what does. For every event they state its whole effect on what is sent, told, stored and
shown, in terms of what was asked and answered and not of the step function.

Code that works by assignment also appears in its own form. Each class has the fields, refs and early returns of the
original, and each of its methods, the code between two awaits, is proved equal to the step of the transition system.

| module | models | contents |
|---|---|---|
| `Prelude` | trimming, ids, failures | `Trim`, `NormalizeId` |
| `SessionSnapshot` | the stored session | reading, validating and writing any JSON |
| `SessionProtocol`, `SessionGuarantees`, `SessionOutcomes`, `SessionClient` | `session.ts` | the refresh protocol, its guarantees over runs, what each step decides, the module |
| `ConsoleContext`, `ConsoleContextGuarantees`, `ConsoleContextOutcomes`, `ContextProvider` | `shell/context.tsx` | tenants, workspaces, routes, storage |
| `Capabilities` | `shell/capabilities.tsx` | the capability request and gate |
| `LocaleLoading`, `LocaleOutcomes`, `LocaleLoader` | `i18n/locale-loader.ts` | all-or-nothing locale switches |
| `PlanMutations`, `PlanOutcomes`, `PlanDetail` | `consolePlanDetail.tsx` and its `model.ts` | one mutation at a time, unresolved outcomes |
| `FlowHistory` | `consoleFlowHistory.tsx` | the token-stack pager |
| `RelativeTime` | `operationDetail.tsx` | nested rounding |

Results a reader may not expect:

- A sign-out is final exactly when no refresh is pending, and the tenant given at a login is kept exactly when no refresh
  of another tenant's session is pending. Both are proved as equivalences (`SignOutIsFinalIff`, `TenantIsKeptIff`).
- An episode resolves to null with neither hint nor event exactly when the endpoint answers with a body that is not an
  acceptable session (`SilentNullIffUnacceptable`): that is not the failure path.
- By the note at `consolePlanDetail.tsx:58-60` an unresolved outcome goes away with its own dialog. `closeDialog`
  discards it on closing any dialog when the action belongs to a dialog. The two agree because dialogs are modal, which is
  the assumption `OfferedRun` of `UnresolvedIsHeldByItsDialog`; all other results about the page do without it.

## Model

| member | source | states |
|---|---|---|
| Prelude.TrimStripsBothEnds | packages/console-api/src/session.ts:167 | a trimmed token is the part of the text between its outer blanks; it starts and ends with a visible character and is empty exactly for blank texts |
| Prelude.NormalizeId | apps/web-console-next/src/shell/context.tsx:37 | an id is null exactly when absent or blank, else its trimmed text |
| SessionSnapshot.ReadIsSoundAndIdempotent | packages/console-api/src/session.ts:55-87 | for any stored content a read yields nothing or a session with valid state, view and tenant; it only keeps or empties the storage, and reading again gives the same |
| SessionSnapshot.PersistThenRead | packages/console-api/src/session.ts:39-87 | persisting any response and reading it back succeeds exactly for acceptable responses, with the tenant taken only from the argument |
| SessionSnapshot.RoundTrip | packages/console-api/src/session.ts:39-53 | persist then read returns every well-typed session unchanged, whatever else the response carries |
| SessionSnapshot.ReadGivesWhatIsStored | packages/console-api/src/session.ts:55-87 | a session that is read is the stored object member by member, with all token members and the bearer type; storage is emptied exactly when it cannot be parsed, or has a session id but no session |
| SessionProtocol.EnterRefreshKeeps | packages/console-api/src/session.ts:206-237 | entering a refresh keeps the protocol invariant and can only be told null or join an existing episode |
| SessionProtocol.RefreshRepliedKeeps | packages/console-api/src/session.ts:221-234 | a refresh reply, retried or settled, keeps the invariant |
| SessionProtocol.RequestRepliedKeeps | packages/console-api/src/session.ts:250-273 | the answer to a request, with its refresh, replay and handler, keeps the invariant |
| SessionProtocol.RunKeepsInv | packages/console-api/src/session.ts:188-274 | every run from every stored content keeps single flight, the retry bound, the effect counts and every caller's bounds |
| SessionGuarantees.UsabilityIsAntitone | packages/console-api/src/session.ts:162-173 | usability is antitone in the clock and in the margin |
| SessionGuarantees.UnrefreshedSessionIsFresh | packages/console-api/src/session.ts:188-196 | a session ensure returns without a refresh is the stored one, has a token and more than 60 s left, and nothing else changed |
| SessionGuarantees.OneRefreshAtATime | packages/console-api/src/session.ts:217-236 | in every run `inFlightSessionRefresh` is exactly the one unsettled episode, or null when there is none |
| SessionGuarantees.RetriesOnce | packages/console-api/src/session.ts:311-322 | an episode makes one call, or two exactly after a retryable, 429 or 504 refusal, and fails exactly when its last reply does |
| SessionGuarantees.JoinersShareTheOutcome | packages/console-api/src/session.ts:217-263 | in every run all calls that joined one episode act on the one value it settled with: ensure and refresh calls return it; a request sends its token, or without one throws the authentication error unsent, or after a 401 rethrows that 401 without a second request |
| SessionGuarantees.FailureIsAnnouncedOnce | packages/console-api/src/session.ts:226-230 | a failed episode writes the hint and emits the event exactly once however many joined; others never do |
| SessionGuarantees.FailureClearsTheSession | packages/console-api/src/session.ts:226-233 | a pending episode fails exactly at a failed reply that is not retried, and that step leaves no snapshot, the hint and no refresh in flight |
| SessionGuarantees.RequestIsBounded | packages/console-api/src/session.ts:239-274 | a call sends at most two requests, awaits at most two episodes, and fires the handler at most once, after a second unsuppressed 401 |
| SessionGuarantees.RequestsCarryTheRefreshedToken | packages/console-api/src/session.ts:243-266 | a request sent after waiting carries the token of the session its episode returned; the second request always does, and follows a 401 |
| SessionGuarantees.CallsMakeProgress | packages/console-api/src/session.ts:188-274 | no step sends a call backwards, and an unfinished call waits for the network or can be resumed |
| SessionGuarantees.RefreshCallsAreBounded | packages/console-api/src/session.ts:206-237 | over a run the refresh endpoint is called at most twice per entry into refreshConsoleShellSession |
| SessionGuarantees.QuietStep | packages/console-api/src/session.ts:188-219 | steps other than a login or a refresh reply only keep or empty the storage and start an episode only for the session read or passed in |
| SessionGuarantees.RenewedSessionsAreFaithful | packages/console-api/src/session.ts:223-225 | a renewed episode holds what persisting its last reply and reading it back yields |
| SessionGuarantees.SilentNullIffUnacceptable | packages/console-api/src/session.ts:223-225 | an episode gives null without hint or event exactly when the body was not an acceptable session |
| SessionGuarantees.TenantIsKeptIff | packages/console-api/src/session.ts:221-225 | the tenant of a login is kept through every run of refreshes exactly when no refresh of another tenant's session was pending |
| SessionGuarantees.SignOutIsFinalIff | packages/console-api/src/session.ts:223-225 | a cleared session stays cleared, without login, exactly when no refresh was pending |
| SessionOutcomes.UsableIffFresh | packages/console-api/src/session.ts:162-186 | in the fields of the session: usable for a minute exactly if active, with a visible access token and more than 60 s before the first non-empty expiry date; refreshable likewise by the refresh token and its own expiry |
| SessionOutcomes.TokenIsTheAccessToken | packages/console-api/src/session.ts:243-256 | a request carries the trimmed access token, if anything of it is visible |
| SessionOutcomes.EnsureDecides | packages/console-api/src/session.ts:188-204 | ensure returns a fresh session as it is, joins a refresh exactly for one that is not fresh but refreshable, leaving storage, hint and events alone, and otherwise returns null with storage cleared, hint and one event |
| SessionOutcomes.RequestDecides | packages/console-api/src/session.ts:239-247 | a request starts with the same decision and has sent nothing |
| SessionOutcomes.RefreshDecides | packages/console-api/src/session.ts:206-237 | refresh joins the pending episode, or starts one of its own session, exactly for a refreshable session; any other session ends with hint and event, and without a session the storage is emptied without either |
| SessionOutcomes.RefreshReplyDecides | packages/console-api/src/session.ts:221-234 | a reply is retried after a first retryable, 429 or 504 refusal, else fails the episode with all effects, else stores and returns what the response carries for the tenant of the episode, without effects |
| SessionOutcomes.AnswerOrRefusalEnds | packages/console-api/src/session.ts:249-254 | an answer fulfils the request; a first refusal other than a 401 is thrown at once |
| SessionOutcomes.FirstUnauthorizedIsReplayed | packages/console-api/src/session.ts:252-263 | a first 401 is never thrown: it is remembered, enters one refresh of the stored session, and the call waits for that episode, or goes on with null if the session cannot be refreshed |
| SessionOutcomes.SecondRefusalIsThrown | packages/console-api/src/session.ts:265-272 | a refusal of the second request is thrown, and an unsuppressed 401 calls the handler first; the invalidating handler ends a readable session |
| SessionOutcomes.ResumeDecides | packages/console-api/src/session.ts:243-263 | with a token the call sends its request; without one it is unauthenticated, or throws the 401 it was refused with |
| SessionOutcomes.NoUnauthorizedWithoutRefresh | packages/console-api/src/session.ts:252-272 | in every run a 401 is thrown only after a first 401 entered a refresh, and after a second request or with no token to send one |
| SessionOutcomes.LoginAndSignOutDecide | packages/console-api/src/session.ts:39-102 | a login stores exactly an acceptable response under the tenant given; sign-out empties the storage; invalidation ends a readable session; none touches a refresh |
| SessionClient.Client.ReadConsoleShellSession | packages/console-api/src/session.ts:55-87 | the early returns and clears compute `Read` |
| SessionClient.Client.InvalidateConsoleShellSession | packages/console-api/src/session.ts:98-102 | clears, hints and emits only if a session is stored |
| SessionClient.Client.RefreshConsoleShellSession | packages/console-api/src/session.ts:206-236 | the code up to the first await is the protocol's entry step |
| SessionClient.Client.EnsureConsoleSession | packages/console-api/src/session.ts:188-204 | the code up to the first await is the protocol's ensure step |
| SessionClient.Client.RequestConsoleSessionJson | packages/console-api/src/session.ts:239-243 | the code up to the first await is the protocol's request step |
| SessionClient.Client.OnRefreshReply | packages/console-api/src/session.ts:221-234 | retry, persist and read, or the catch block, then `finally`, is the protocol's reply step |
| SessionClient.Client.OnResume | packages/console-api/src/session.ts:243-263 | the code after an awaited session is the protocol's resume step |
| SessionClient.Client.OnRequestReply | packages/console-api/src/session.ts:250-273 | the code after a request is the protocol's answer step |
| ConsoleContext.FilterKeepsOrder | apps/web-console-next/src/shell/context.tsx:134 | filtering keeps exactly the items an optional allow-list lets through, at increasing positions, neither reordered nor repeated |
| ConsoleContext.Choose | apps/web-console-next/src/shell/context.tsx:155-160 | the chosen tenant or workspace is listed, is the preferred one when that is listed, and otherwise the only one or none |
| ConsoleContext.StartKeepsInv | apps/web-console-next/src/shell/context.tsx:127-162 | starting a resolution accounts for the loading flag and keeps the invariant |
| ConsoleContext.ContinueKeepsInv | apps/web-console-next/src/shell/context.tsx:145-168 | an answer to a resolution, newest or superseded, keeps the invariant |
| ConsoleContext.TenantsRepliedKeepsInv | apps/web-console-next/src/shell/context.tsx:79-104 | accepting or rejecting a tenant load keeps the invariant |
| ConsoleContext.SessionChangedKeepsInv | apps/web-console-next/src/shell/context.tsx:106-124 | a new session, with both clean-ups and effects, keeps the invariant |
| ConsoleContext.RunKeepsInv | apps/web-console-next/src/shell/context.tsx:55-193 | every run of a mounted provider keeps tokens, freshness, loading, selection, storage and errors consistent |
| ConsoleContextGuarantees.LoadingMeansInFlight | apps/web-console-next/src/shell/context.tsx:194 | with a user, exposed loading means the newest load or resolution is in flight with the current closure values; it is false when all requests have settled |
| ConsoleContextGuarantees.SupersededResolutionNeverWrites | apps/web-console-next/src/shell/context.tsx:147-168 | a resolution once superseded writes nothing after any run |
| ConsoleContextGuarantees.SupersededTenantLoadNeverWrites | apps/web-console-next/src/shell/context.tsx:101-122 | a tenant load once superseded writes nothing after any run |
| ConsoleContextGuarantees.SelectionIsConsistent | apps/web-console-next/src/shell/context.tsx:131-170 | the active workspace is listed, and every listed one was answered for the active tenant and passed the asking session's filter |
| ConsoleContextGuarantees.TenantsNeverEraseWorkspaceErrors | apps/web-console-next/src/shell/context.tsx:83-85 | a loaded tenant list never erases a workspace error |
| ConsoleContextGuarantees.CommitsAndSelectionsMirror | apps/web-console-next/src/shell/context.tsx:127-193 | every resolution that ends without failure, before its first await (whatever event started it) or at an answer, and every selection that takes effect, mirrors a pair under the current user; which pair is in `ConsoleContextOutcomes` |
| ConsoleContextGuarantees.MirrorIsLostOnlyByAFailedLoad | apps/web-console-next/src/shell/context.tsx:166-167 | only a failed newest workspace load, or a write of the shared key by another page, ends the mirroring |
| ConsoleContextGuarantees.StorageMirrorsSelection | apps/web-console-next/src/shell/context.tsx:27-32 | in every run, while mirrored, storage holds exactly the active pair, or nothing when both parts are null; with no newest resolution in flight it is the current user's |
| ConsoleContextGuarantees.FreshMountRestores | apps/web-console-next/src/shell/context.tsx:153-165 | a fresh route-less mount offered the same tenant and workspace restores the pair left by any run |
| ConsoleContextGuarantees.FirstMatchIsFirst | apps/web-console-next/src/shell/context.tsx:145-151 | the reference search finds the first tenant in list order that has the workspace, or none has it |
| ConsoleContextGuarantees.CommittedRouteTenantIsFirst | apps/web-console-next/src/shell/context.tsx:143-152 | in any interleaving, while the route overrides, the newest resolution is a search of it; each tenant it passed answered that very search without the workspace, and the answer that has it commits its tenant, workspace and list; nothing is selected only when all answers lacked it |
| ConsoleContextGuarantees.SearchCommitsFirstMatch | apps/web-console-next/src/shell/context.tsx:145-165 | fed by a fixed listing, the suspended loop ends with the reference search's tenant, list and storage |
| ConsoleContextGuarantees.RouteSelectsTheFirstTenant | apps/web-console-next/src/shell/context.tsx:142-165 | after a route change the first tenant with the allowed workspace is committed, or nothing is selected |
| ConsoleContextGuarantees.DeliberateSwitchSticks | apps/web-console-next/src/shell/context.tsx:142-155 | while the route of a deliberate switch is current, the newest resolution opens the chosen tenant and never re-applies the route |
| ConsoleContextOutcomes.ResolutionStarts | apps/web-console-next/src/shell/context.tsx:127-180 | a route change and a reload start a resolution that searches the route unless a tenant was chosen under it, else opens the chosen or stored tenant if listed, else the only one, and otherwise selects nothing |
| ConsoleContextOutcomes.WorkspaceIsChosen | apps/web-console-next/src/shell/context.tsx:189-193 | a listed workspace, or none, becomes active and stored exactly as asked; any other choice changes nothing |
| ConsoleContextOutcomes.TenantIsChosen | apps/web-console-next/src/shell/context.tsx:181-188 | a listed tenant other than the active one, or none, becomes active, stored and selected under the current route without a workspace, and is opened; any other choice changes nothing |
| ConsoleContextOutcomes.ReloadAsksAgain | apps/web-console-next/src/shell/context.tsx:96-100 | a reload asks for the tenants of the current session and shows both flags |
| ConsoleContextOutcomes.SessionChangeDecides | apps/web-console-next/src/shell/context.tsx:106-175 | a new session supersedes all requests, asks for its own tenants, and resolves what is listed meanwhile with its own stored pair |
| ConsoleContextOutcomes.SignedOutDecides | apps/web-console-next/src/shell/context.tsx:106-111 | a session without a user supersedes all requests and has no tenants and nothing loading |
| ConsoleContextOutcomes.TenantAnswerDecides | apps/web-console-next/src/shell/context.tsx:79-104 | the newest tenant answer lists exactly the own tenants, ends a tenant failure and starts a resolution; a failed one shows its status over an empty list and selects nothing |
| ConsoleContextOutcomes.FailedResolutionDecides | apps/web-console-next/src/shell/context.tsx:166-168 | a failed newest workspace load shows its status, empties list and workspace and keeps tenant, selection and storage |
| ConsoleContextOutcomes.OpenedTenantDecides | apps/web-console-next/src/shell/context.tsx:156-165 | an opened tenant is committed and stored with its filtered list and the stored workspace of that tenant if listed and no tenant was chosen since, else the only one, else none |
| ConsoleContextOutcomes.MountDecides | apps/web-console-next/src/shell/context.tsx:59-124 | a mounted provider of a user is loading its own tenants over nothing selected; without a user there is nothing to load |
| ConsoleContextOutcomes.ForeignWritesOnlyStore | apps/web-console-next/src/shell/context.tsx:7-8 | a write of the shared key by another page changes nothing on this one |
| ConsoleContextOutcomes.InFlightShowsAsLoading | apps/web-console-next/src/shell/context.tsx:194 | in every run the newest resolution, and a reload of the tenants, show as loading while in flight |
| ContextProvider.Provider.constructor | apps/web-console-next/src/shell/context.tsx:59-124 | the initial state with both effects is the mounted state |
| ContextProvider.Provider.ResolveWorkspaces | apps/web-console-next/src/shell/context.tsx:127-162 | the code up to the first await is the starting step |
| ContextProvider.Provider.ContinueResolution | apps/web-console-next/src/shell/context.tsx:145-168 | the code after an awaited list is the continuing step |
| ContextProvider.Provider.OnWorkspaces | apps/web-console-next/src/shell/context.tsx:147-168 | the token check and the rest are the answer step |
| ContextProvider.Provider.OnTenants | apps/web-console-next/src/shell/context.tsx:79-104 | accept or reject, the reload flag and the effect it causes are the tenant step |
| ContextProvider.Provider.ReloadTenants | apps/web-console-next/src/shell/context.tsx:96-100 | takes a new token and shows both loading flags |
| ContextProvider.Provider.ChangeSession | apps/web-console-next/src/shell/context.tsx:106-124 | clean-ups, bootstrap and resolution are the session step |
| ContextProvider.Provider.SelectTenant | apps/web-console-next/src/shell/context.tsx:181-188 | the guarded switch, its storage write and the effect are the selection step |
| ContextProvider.Provider.SelectWorkspace | apps/web-console-next/src/shell/context.tsx:189-193 | the guarded choice and its storage write are the selection step |
| Capabilities.RunKeepsInv | apps/web-console-next/src/shell/capabilities.tsx:14-36 | in every run the ref holds the present stay's request or nothing, and the display shows its answer |
| Capabilities.EnabledExactlyByThisStay | apps/web-console-next/src/shell/capabilities.tsx:44-48 | a capability is enabled exactly when the request sent during the present stay on the active tenant was answered and granted it |
| Capabilities.OneRequestPerStay | apps/web-console-next/src/shell/capabilities.tsx:14-22 | requests belong to strictly increasing stays, so each stay sends at most one |
| Capabilities.EarlierStaysAreIgnored | apps/web-console-next/src/shell/capabilities.tsx:23-27 | the answer of an earlier stay changes nothing exposed, also back on the same tenant |
| Capabilities.ConsumersAsk | apps/web-console-next/src/shell/capabilities.tsx:14-35 | a consumer sends the request of the present stay exactly if it was not sent, mounted on a tenant or there when the tenant changes; every change begins a new stay |
| Capabilities.ExposedIsThePresentStay | apps/web-console-next/src/shell/capabilities.tsx:23-36 | what is exposed is exactly where the present stay's request is: unsent or unanswered, granted with its capabilities, or refused |
| Capabilities.AnswersAreRecorded | apps/web-console-next/src/shell/capabilities.tsx:23-27 | the first answer of a request is its only one |
| Capabilities.Provider.Load | apps/web-console-next/src/shell/capabilities.tsx:14-22 | the guarded request is the load step |
| Capabilities.Provider.ChangeTenant | apps/web-console-next/src/shell/capabilities.tsx:29-35 | the consumers' load before the clearing effect is the tenant step |
| Capabilities.Provider.OnAnswer | apps/web-console-next/src/shell/capabilities.tsx:23-27 | the identity check and the new state are the answer step |
| Capabilities.Provider.CapabilityGate | apps/web-console-next/src/shell/capabilities.tsx:44-48 | computes the gate from what the provider exposes |
| LocaleLoading.PutKeepsDistinct | apps/web-console-next/src/i18n/locale-loader.ts:17-18 | registering replaces the entry of the namespace in place or appends a new one, changing nothing else, and namespaces stay distinct |
| LocaleLoading.DeleteKeepsDistinct | apps/web-console-next/src/i18n/locale-loader.ts:19-20 | unregistering removes exactly the own entry, not a later one of the namespace |
| LocaleLoading.RunKeepsInv | apps/web-console-next/src/i18n/locale-loader.ts:42-61 | every run keeps single flight and the state of every load |
| LocaleLoading.AddBundlesHold | apps/web-console-next/src/i18n/locale-loader.ts:51 | the commit loop puts every bundle in place |
| LocaleLoading.AddBundlesFrame | apps/web-console-next/src/i18n/locale-loader.ts:51 | the commit loop touches only the active namespaces of the target |
| LocaleLoading.SwitchIsAllOrNothing | apps/web-console-next/src/i18n/locale-loader.ts:42-61 | a load with a broken bundle ends with the catalog it started from; one returning true has all its bundles, nothing else changed, and the target language |
| LocaleLoading.NothingChangesBeforeTheCommit | apps/web-console-next/src/i18n/locale-loader.ts:49-51 | until its commit a load leaves resources and language as they were |
| LocaleLoading.LoadsNeverOverlap | apps/web-console-next/src/i18n/locale-loader.ts:42-62 | loads never overlap, pending or error implies a target, and a retry after an error starts a load |
| LocaleLoading.RevisionIsStrict | apps/web-console-next/src/i18n/locale-loader.ts:11-14 | every visible change raises the revision |
| LocaleLoading.FailedImportIsNeverRepeated | apps/web-console-next/src/i18n/locale-loader.ts:25-38 | in every run, once a dynamic import through a loader has failed in any load, no load started later imports through it |
| LocaleOutcomes.ErrorShowsTheLastFailure | apps/web-console-next/src/i18n/locale-loader.ts:52-58 | in every run an idle loader with a target shows an error exactly if its last load failed; without a target there is none |
| LocaleOutcomes.LoadCallsEveryLoader | apps/web-console-next/src/i18n/locale-loader.ts:42-50 | an idle loader calls the loader of every namespace registered now, by dynamic import exactly if this does not repeat the target that failed last and no import through that loader failed in the run |
| LocaleOutcomes.AnswerDecides | apps/web-console-next/src/i18n/locale-loader.ts:47-58 | the first rejection ends the load with an error, the last answer commits it, and later answers show nothing |
| LocaleOutcomes.LanguageDecides | apps/web-console-next/src/i18n/locale-loader.ts:52-58 | the language change ends the load, with the target language or with an error over the committed bundles |
| LocaleOutcomes.RegistrationsDecide | apps/web-console-next/src/i18n/locale-loader.ts:17-23 | registrations hold exactly the latest entry of each namespace; the end of the last one clears error and target of an idle loader |
| LocaleLoader.Loader.LoadLocale | apps/web-console-next/src/i18n/locale-loader.ts:42-50 | the loop that calls the bundle loaders, and the joined promise, are the starting step |
| LocaleLoader.Loader.CommitBundles | apps/web-console-next/src/i18n/locale-loader.ts:51 | the loop adds the bundles of all active namespaces |
| LocaleLoader.Loader.OnBundle | apps/web-console-next/src/i18n/locale-loader.ts:26-37 | the sticky flag, the first rejection or the last answer are the answer step |
| LocaleLoader.Loader.OnLanguage | apps/web-console-next/src/i18n/locale-loader.ts:52-59 | the end of the promise is the language step |
| PlanMutations.RunKeepsInv | apps/web-console-next/src/pages/consolePlanDetail.tsx:162-218 | every run keeps one mutation and a consistent unresolved outcome |
| PlanMutations.OneMutationAtATime | apps/web-console-next/src/pages/consolePlanDetail.tsx:162-202 | at most one mutation is in flight, exactly while the ref is set |
| PlanMutations.LifecycleFeedbackAgrees | apps/web-console-next/src/pages/consolePlanDetail.tsx:197-198 | lifecycle feedback is the unresolved outcome if retryable, and nothing is unresolved otherwise |
| PlanMutations.DeniedIsFinal | apps/web-console-next/src/pages/consolePlanDetail.tsx:163 | a denied page stays denied and sends nothing in any run |
| PlanMutations.OnlyTheIdenticalRetryIsSent | apps/web-console-next/src/pages/consolePlanDetail.tsx:162-168 | while unresolved, a lifecycle request is sent only as the identical retry |
| PlanMutations.UnresolvedSendsOnlyItself | apps/web-console-next/src/pages/consolePlanDetail.tsx:101-104 | over any run that stays unresolved every lifecycle request is that same action |
| PlanMutations.ResolvedOnlyByRetryOrClose | apps/web-console-next/src/pages/consolePlanDetail.tsx:58-60 | only closing a dialog, or its own retry accepted or refused for good, resolves an outcome |
| PlanMutations.UnresolvedIsHeldByItsDialog | apps/web-console-next/src/pages/consolePlanDetail.tsx:205-218 | with modal dialogs an unresolved dialog action is held by its own open dialog |
| PlanOutcomes.SendsExactlyWhenAllowed | apps/web-console-next/src/pages/consolePlanDetail.tsx:162-170 | an action is sent exactly when nothing is in flight, a plan is shown, permission was not denied and no other lifecycle outcome is unresolved; a retry sends exactly the action of the failure on display |
| PlanOutcomes.NothingElseIsSent | apps/web-console-next/src/pages/consolePlanDetail.tsx:161-168 | no other event sends a request |
| PlanOutcomes.DeniedExactlyByA403 | apps/web-console-next/src/pages/consolePlanDetail.tsx:175-178 | in every run the page is denied exactly if one of its requests was refused with a 403 |
| PlanOutcomes.NothingIsSentAfterA403 | apps/web-console-next/src/pages/consolePlanDetail.tsx:163-178 | from a 403 on no request is sent in any run |
| PlanOutcomes.AcceptanceIsShown | apps/web-console-next/src/pages/consolePlanDetail.tsx:111-160 | an accepted lifecycle action shows its new status at once and the read plan after it, ends without failure, closes the dialog and resolves its outcome; an accepted limit reads, an accepted deletion just ends |
| PlanOutcomes.RefusalIsReported | apps/web-console-next/src/pages/consolePlanDetail.tsx:174-202 | every refusal is reported with its action, after a read exactly where one is due, and a lifecycle outcome is unresolved exactly if lost or a server error |
| PlanOutcomes.AfterLeavingNothingShows | apps/web-console-next/src/pages/consolePlanDetail.tsx:116-202 | after the page is left answers only end their call |
| PlanOutcomes.DialogOpens | apps/web-console-next/src/pages/consolePlanDetail.tsx:205-211 | a confirmed action opens a new dialog exactly on a page with a plan that is neither busy nor denied |
| PlanOutcomes.DialogCloses | apps/web-console-next/src/pages/consolePlanDetail.tsx:212-218 | closing discards feedback and unresolved outcome of confirmed actions only, and nothing while a request is in flight |
| PlanOutcomes.PageLoadsAndLeaves | apps/web-console-next/src/pages/consolePlanDetail.tsx:55-90 | the page starts mounted with nothing shown, refused or sent, and a read of the plan shows only while it is mounted |
| PlanDetail.Page.RunAction | apps/web-console-next/src/pages/consolePlanDetail.tsx:162-170 | the guards and setters before the request are the starting step |
| PlanDetail.Page.OnReply | apps/web-console-next/src/pages/consolePlanDetail.tsx:111-202 | acceptance or refusal of the request is the reply step |
| PlanDetail.Page.OnReread | apps/web-console-next/src/pages/consolePlanDetail.tsx:119-202 | the code after a reconciling read is the reread step |
| PlanDetail.Page.OnOpenDialog | apps/web-console-next/src/pages/consolePlanDetail.tsx:205-211 | the guarded opening is the dialog step |
| PlanDetail.Page.OnCloseDialog | apps/web-console-next/src/pages/consolePlanDetail.tsx:212-218 | the guarded closing discards the retry of a dialog action |
| FlowHistory.ChainedQueryIsItsPage | apps/web-console-next/src/pages/consoleFlowHistory.tsx:38-41 | a chained token stack asks for the page whose number is its height |
| FlowHistory.RunKeepsInv | apps/web-console-next/src/pages/consoleFlowHistory.tsx:51-64 | in every run all queries are chained and the result is its query's page |
| FlowHistory.ShowsThePageOfItsNumber | apps/web-console-next/src/pages/consoleFlowHistory.tsx:44-47 | a query settled without error shows page number `tokens.length` |
| FlowHistory.StepRefinesMove | apps/web-console-next/src/pages/consoleFlowHistory.tsx:116-122 | every step of the token stack is a move of a page number |
| FlowHistory.PreviousAndNextUndoEachOther | apps/web-console-next/src/pages/consoleFlowHistory.tsx:116-122 | previous undoes next and next undoes previous once the page has loaded |
| FlowHistory.ChangedQueriesAsk | apps/web-console-next/src/pages/consoleFlowHistory.tsx:51-55 | a changed query sends exactly one request for itself, and nothing else sends any |
| FlowHistory.ButtonsMoveTheStack | apps/web-console-next/src/pages/consoleFlowHistory.tsx:63-122 | next needs a settled page with a non-empty token and pushes it, previous a settled result and pops, filters and clearing start over at the first page |
| FlowHistory.RetryAsksAgain | apps/web-console-next/src/pages/consoleFlowHistory.tsx:50-55 | a retry asks for the same page again under a new key |
| FlowHistory.LiveAnswerSettles | apps/web-console-next/src/pages/consoleFlowHistory.tsx:55-60 | in every run a busy pager waits for its live request, whose answer settles it with the page of its number or the failure; other answers show nothing |
| FlowHistory.History.ChangeQuery | apps/web-console-next/src/pages/consoleFlowHistory.tsx:51-61 | a changed key cancels the live effect and sends one request |
| FlowHistory.History.OnNext | apps/web-console-next/src/pages/consoleFlowHistory.tsx:120-121 | the guarded push of the page token |
| FlowHistory.History.OnPrevious | apps/web-console-next/src/pages/consoleFlowHistory.tsx:117-118 | the guarded pop of the last token |
| FlowHistory.History.OnReply | apps/web-console-next/src/pages/consoleFlowHistory.tsx:55-59 | only the live effect's answer becomes the result |
| RelativeTime.Round | apps/web-console-next/src/pages/operationDetail.tsx:19-22 | rounds within half a unit, ties upwards |
| RelativeTime.SignAndRange | apps/web-console-next/src/pages/operationDetail.tsx:16-24 | the amount has the sign of the difference or is zero, below 60 minutes, 1 to 23 hours, at least 1 day |
| RelativeTime.UnitChangesAt | apps/web-console-next/src/pages/operationDetail.tsx:19-23 | the unit is the minute from -59.5 to below 59.5 minutes of true difference, the hour from there to -1410.5 and below 1409.5 minutes, and the day beyond |
| RelativeTime.ErrorBound | apps/web-console-next/src/pages/operationDetail.tsx:19-23 | off by at most 30 s, 30.5 min or 12 h 30.5 min |
| RelativeTime.ErrorBoundIsTight | apps/web-console-next/src/pages/operationDetail.tsx:19-23 | negative ties meet each bound |
| RelativeTime.Monotone | apps/web-console-next/src/pages/operationDetail.tsx:19-23 | a later date never shows as an earlier time, across unit changes |

## Left out

- JSX, kit components, toasts, focus, announcements, translations and styling: they decide nothing modelled here.
- Requests themselves (headers, URLs, abort signals): a network call is an answer or a failure chosen by the event.
- Text parsing: stored text is unparsable or a JSON value, and `Date.parse` is an arbitrary function from text to an optional number of milliseconds.
- Storage that throws (disabled or full), and pages without a window: the original ignores or fails early there.
- The ticks between a settled refresh call and the code that awaits it: no shared variable is touched in between, so they are one step.
- Handlers other than the invalidating one: such a handler is counted but has no effect of its own in the same step.
- Protected route intents, principal labels and the hint reader of `session.ts`: single-branch helpers.
- `inferStatusViewFromError`, permissions, navigation and breadcrumbs: finite tables without state.
- The StrictMode replay of effects (the memo in `tenantRequest` and the retained promises), and calls through closures of an earlier render.
- Unmounting of the context provider, and its page info, request id and `tenantsError` fields, which are only displayed.
- Tenant and workspace records are their ids, and listed ids are not empty.
- Limit rows, drafts, versions and outcomes of the plan page, the initial load's retry, and the navigation after a deletion.
- Exceptions after an accepted mutation outside its guarded read: the page's setters are taken not to throw.
- FreshMountRestores: assumes that nobody wrote the storage key since the run; the legacy app and other tabs share it (`context.tsx:7`). Their writes during a run are the event `StorageWritten`, after which StorageMirrorsSelection promises nothing until the next commit or selection.
- Listeners of the locale state; a bundle is the set of its paths, so replacing a nested object by a text is not modelled.
- SwitchIsAllOrNothing: resources and language are those the loader itself writes; other writers of the i18n instance are not modelled, and a rejected language change is taken to leave the language unchanged.
- The workspace gate of the history page; the JSON key of a query is the query itself.
- `Intl.RelativeTimeFormat` and the negative zero it may be given.
