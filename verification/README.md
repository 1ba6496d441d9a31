# Verified model of the Clavex operator

This project models the reconcile logic of the Clavex Kubernetes operator and proves what it keeps, over
every interleaving, fault and stale read that the model admits. `dafny verify dfyconfig.toml` checks all of it.

## What is modelled

**The ClavexClient protocol** (`ClientSync`, `ClientProtocol`, `ClientInvariants`, `ClientTheorems`,
`ClientOperator`). The world holds every CR name that carries one client ID in one org, each with the whole
history of its API object; the remote client under that ID; and a log. Steps are user creates, edits and
deletes, outside writes to the Admin API, and a reconcile pass split at each of its calls. An index into a
history is the resourceVersion: an update is accepted only when the pass's copy is the current version, and
reads may be stale but never older than an earlier one. Any call may fail, and a write may take effect and
still be reported as failed (`Lost`). A run is any sequence of such steps. `ClientOperator.Operator.Reconcile`
is the source's sequential code; each of its calls is one step of that system, others may act before each of
them, and its contracts record that the run was only extended by protocol steps.

**Name-keyed kinds** (`NameKeyed`, `AdminApi`, `Roles`, `AuthPolicy`): objects the server gives an ID to, found
by listing and searching for a name, created when missing. **Group roles** (`GroupRoles`): membership moved to the
role set of the spec, one fallible call at a time in arbitrary map order, while ClavexRole passes create and
delete roles in between. **Org settings** (`OrgSettings`): two sections with independent markers, in passes split at
each call.

**The event stream**: debounce (`Debounce`, `DebounceKeys`), fan-out into bounded channels (`EventQueue`), the
connection pool (`ConnectionPool`) and the reconnect loop (`Backoff`). **Shared pieces**: list comparison
(`StringSets`), status conditions (`Conditions`), Secrets (`Secrets`).

The remote store is explicit: Create and Update replace every field they send, list fields come back in any
order, Assign and Remove act on a set, and a server may or may not go on listing assignments of deleted roles.

## What the code does that its documentation does not say

- `docs/operator.md` says a ClavexOrg has no finalizer and that deleting it has no effect on the Admin API;
  the code has one and releases both markers (`OrgSettings.FinalizeOrg`).
- `compare.go` says every drift comparison must ignore order and nil against empty; the auth-policy comparison is
  structural, so against a server that lists absent lists as empty ones the rule is rewritten on every pass
  and drift is reported forever (`AuthPolicy.OtherServersReportDriftForever`; `AuthPolicy.SettlesInTwoPasses` has the
  exact condition).
- The debounce comment says collapsing loses nothing; that holds of an object's whole history if and only if none of
  its events was dropped on a full channel (`EventQueue.NothingIsLostUnlessDropped`), since a dropped event still
  takes its window. Even then a collapsed event may come after the reconcile it is collapsed into read the live
  state, and waits for the poll.
- An org pass that repairs one section and then fails never reports that drift
  (`OrgSettings.DriftReportAfterFailure` says exactly when the report survives); and an outside edit that falls
  between a section's Get and its Put is overwritten without a report (`OrgSettings.DriftIsADifferenceAtTheGet`).
- ClavexRole takes the first role of a name and ClavexGroup the last; they mean the same role if and only if the name
  occurs once (`GroupRoles.FirstIsLastExactly`, `GroupRoles.OrdersAgreeExactly`).
- A connection opened on demand between a tick's discovery and its lock is closed by that tick when its org was not
  listed yet, and which CR's Secret an org is opened with depends on map order
  (`ConnectionPool.OrderIsImmaterialExactly` says exactly when the pool does not).
- Re-creating a client that someone deleted is not reported as drift; `responseTypes` and `isPublic` are not compared;
  an auth error sets Ready's generation but leaves `status.observedGeneration`.

## Model

| member | source | states |
|---|---|---|
| ClientTheorems.NoOrphansEver | internal/controller/clavexclient_controller.go:162-189 | in every run, with any number of CRs sharing the client ID, a remote client made by a pass is covered by the persisted finalizer of the CR whose pass made it |
| ClientTheorems.DriftReportsAreReal | internal/controller/clavexclient_controller.go:271-299 | with one CR per client ID, a drift report is preceded by a confirmed match, then a success of the same generation that its CR's history holds, and by an outside change after the last confirmed match |
| ClientTheorems.LoggedSuccessesAreReal | internal/controller/clavexclient_controller.go:214-222 | in every run, each success that counts as persisted is a version in its CR's history that observes its own generation |
| ClientTheorems.PersistedStatusIsCoherent | internal/controller/clavexclient_controller.go:141-222 | every persisted version: Ready=True implies Synced=True, both at observedGeneration, which is at most the generation and never decreases |
| ClientTheorems.RunKeepsInv | internal/controller/clavexclient_controller.go:129-226 | the safety invariant holds in every world of every run |
| ClientInvariants.StepKeepsInv | internal/controller/clavexclient_controller.go:129-226 | each step of users, other API clients and the operator keeps the invariant |
| ClientInvariants.SubmitKeepsTrack | internal/controller/clavexclient_controller.go:170-188 | an optimistic-concurrency update, accepted, refused or accepted unnoticed, never takes the finalizer from a CR that a pass may still act on |
| ClientInvariants.SuccessIsReady | internal/controller/clavexclient_controller.go:209-219 | the success status has Ready and Synced true at its own generation with the source's reasons and messages, whatever was there before; a corrected drift shows on Synced, and only there |
| ClientInvariants.ErrorIsCoherent | internal/controller/clavexclient_controller.go:192-198 | a reconcile error shows on both conditions with its message and leaves the observed generation; no error status leaves Ready true over a false Synced |
| ClientInvariants.AuthErrorTouchesReadyOnly | internal/controller/clavexclient_controller.go:141-148 | an auth error shows on Ready and leaves Synced and the observed generation as they were |
| ClientTheorems.StepKeepsDriftInv | internal/controller/clavexclient_controller.go:129-299 | each step keeps: an observed generation still readable means the live client matches its spec unless someone else changed it |
| ClientTheorems.RunKeepsDriftInv | internal/controller/clavexclient_controller.go:129-299 | the same over every run |
| ClientOperator.Operator.Reconcile | internal/controller/clavexclient_controller.go:129-226 | refines the step system; success means a persisted coherent status under the finalizer, removal means no finalizer and no remote client of its making; an undisturbed pass settles any reachable CR, reports drift exactly when the live client differs at an observed generation, and repeated sends no Create or Update |
| ClientOperator.Operator.Handle | internal/controller/clavexclient_controller.go:140-226 | the same after the CR was read: auth error, deletion, finalizer, then sync |
| ClientOperator.Operator.EnsureFinalizer | internal/controller/clavexclient_controller.go:178-189 | on success the finalizer is persisted before any remote call; undisturbed, nothing but the finalizer changes |
| ClientOperator.Operator.Finalize | internal/controller/clavexclient_controller.go:163-176 | the finalizer goes only after the remote delete was answered |
| ClientOperator.Operator.ReconcileClient | internal/controller/clavexclient_controller.go:233-300 | when no one else acts: equals `PassSpec` down to the number of Create and Update calls; a success leaves name, activity and the multisets of the three compared lists equal to spec's, and an existing client is written, and drift reported at an observed generation, if and only if one of those five fields differed |
| ClientOperator.Operator.Conclude | internal/controller/clavexclient_controller.go:191-225 | an error shows on both conditions, an unwritten secret leaves the status as it was, success shows exactly the pass's drift |
| ClientOperator.Operator.PersistFailure | internal/controller/clavexclient_controller.go:145-198 | an accepted error status shows the error at the CR's generation and leaves what is not its own |
| ClientSync.SuccessIsAFixpoint | internal/controller/clavexclient_controller.go:233-310 | after a successful pass the live client is up to date and the next pass writes nothing and sees no drift, however the server orders lists at each read |
| ClientSync.WritesOnlyToRepair | internal/controller/clavexclient_controller.go:271-299 | a pass writes exactly when the client is missing or differs, reports drift exactly when it differs at an observed generation, and never changes isPublic |
| ClientSync.SuccessMatchesEveryField | internal/controller/clavexclient_controller.go:249-310 | a success means: name, activity and the three lists as in spec up to order; response types as well after a write; isPublic decided by the Create alone |
| ClientSync.WritesExactlyForADifference | internal/controller/clavexclient_controller.go:271-310 | an existing client is written, and drift reported at an observed generation, if and only if one of the five compared fields differs |
| ClientSync.FailureIsRetrySafe | internal/controller/clavexclient_controller.go:249-299 | a failing pass leaves the old client or a matching one, and its fault-free retry succeeds |
| ClientSync.RenderingKeepsUpToDate | internal/controller/clavexclient_controller.go:304-310 | comparing with any reordered answer is comparing with the store |
| StringSets.EqualStringSets | internal/controller/compare.go:12-29 | true exactly when the two lists are equal as multisets; nil and empty are the same; neither argument changes |
| StringSets.SortedListingIsUnique | internal/controller/compare.go:21-27 | two sorted listings of one multiset are equal, which is why comparing sorted copies decides it |
| Conditions.StatusBlock.SetCondition | internal/controller/clavexclient_controller.go:347-366 | the in-place loop computes the upsert |
| Conditions.ReplayRemembersTheFinalRun | internal/controller/clavexclient_controller.go:345-366 | after any history of calls an entry holds its last call's fields and the time of the first call of its longest final run of one status |
| Conditions.ReplayListsKindsAsFirstSeen | internal/controller/clavexclient_controller.go:356-365 | types are unique and in first-seen order |
| Conditions.UpsertActsOnOneKind | internal/controller/clavexclient_controller.go:356-363 | a call changes the entry of its own type only |
| Secrets.SecretStore.WriteClientSecret | internal/controller/clavexclient_controller.go:314-343 | creates the Secret or replaces the one data key, with the source's defaults, under any fault |
| Secrets.CredentialsComeFromTheirKeys | internal/authsecret/authsecret.go:53-76 | credentials resolve if and only if the one Secret has both values, nonempty; the API key is under the reference's key or "apiKey", the org ID under "orgId" |
| Secrets.ValuesComeFromTheirKeys | internal/authsecret/authsecret.go:80-101 | a single value resolves if and only if its Secret has the key; an absent reference reads as empty |
| Secrets.WrittenSecretReadsBack | internal/authsecret/authsecret.go:80-101 | round trip: a written secret reads back through the same reference, and what every other reference then reads |
| Secrets.CredentialsSurviveExactly | internal/authsecret/authsecret.go:53-76 | credentials that resolved still resolve to the same pair after the write if and only if it misses their Secret or keys, or rewrites the same value |
| NameKeyed.FindByName | internal/controller/clavexrole_controller.go:185-196 | the index loop returns the first entry of the name, or none when there is none |
| NameKeyed.FindIgnoresOrder | internal/controller/clavexgroup_controller.go:188-199 | with unique names the listing order does not matter |
| NameKeyed.NeverDuplicates | internal/controller/clavexrole_controller.go:202-219 | any number of passes, also with Creates that took effect but failed, keep at most one object per name |
| NameKeyed.SuccessesAgree | internal/controller/clavexrole_controller.go:202-219 | all successes of one name report the same ID until a deletion pass of that name |
| NameKeyed.PassKeepsIds | internal/controller/clavexauthpolicy_controller.go:235-282 | a pass changes no ID and removes only its own name, and what it reports is the live ID |
| Roles.FindRole | internal/controller/clavexrole_controller.go:185-196 | the lookup is that of the store, in whatever order the listing comes |
| Roles.ReconcileRole | internal/controller/clavexrole_controller.go:202-219 | an existing role is reported and left alone; a missing one is appended once, with its description, also when the answer is lost |
| Roles.FinalizeRole | internal/controller/clavexrole_controller.go:124-145 | succeeds if and only if the listing does and there is nothing to delete or the delete succeeds; success means that no role of the name is left |
| GroupRoles.SyncGroupRoles | internal/controller/clavexgroup_controller.go:230-273 | whatever fails, and whatever roles are created or deleted between its calls: the writes are a plan from the listed membership to the roles that the pass's own listing showed under the names; none is sent when that listing misses one; only the last call made can have failed; success is exactly that set, and exactly the roles named at the end when none of them was deleted meanwhile; no other group is touched |
| GroupRoles.ReconcileGroup | internal/controller/clavexgroup_controller.go:203-224 | creates the group once and then all of the above; a fault-free pass succeeds whenever its listing shows every named role |
| GroupRoles.EveryWriteIsProgress | internal/controller/clavexgroup_controller.go:258-271 | membership stays between intersection and union, each write brings it one step closer, and a finished pass used exactly the symmetric difference |
| GroupRoles.RetriesConverge | internal/controller/clavexgroup_controller.go:157-170 | over any chain of interrupted passes the writes so far and the distance left add up to the first distance |
| GroupRoles.PlanReaches | internal/controller/clavexgroup_controller.go:258-271 | what a plan makes of the membership, in any order of the maps |
| GroupRoles.SyncTo | internal/controller/clavexgroup_controller.go:249-272 | from the listing of the group's roles on: a plan from what was listed to the resolved IDs, whatever stops it |
| GroupRoles.ConvergeTo | internal/controller/clavexgroup_controller.go:258-272 | both loops together follow a plan: nothing is removed before every missing role is assigned |
| GroupRoles.AssignMissing | internal/controller/clavexgroup_controller.go:258-264 | assigns each missing role once and stops at the first error: every call but the last succeeded, and the writes are the calls that took effect |
| GroupRoles.RemoveExtra | internal/controller/clavexgroup_controller.go:265-271 | removes each extra role once and stops at the first error likewise |
| GroupRoles.EnsureGroup | internal/controller/clavexgroup_controller.go:204-218 | looks the group up, creates it once when it is missing, and reports the live ID |
| GroupRoles.IndexByName | internal/controller/clavexgroup_controller.go:235-238 | the index maps each name to the last role of that name |
| GroupRoles.ResolveNames | internal/controller/clavexgroup_controller.go:240-247 | succeeds exactly when every name is indexed, with exactly those IDs |
| GroupRoles.IndexMeansNames | internal/controller/clavexgroup_controller.go:231-247 | with unique names the resolved set is the set of IDs that carry the wanted names |
| GroupRoles.FirstIsLastExactly | internal/controller/clavexgroup_controller.go:235-238 | in one listing, the role a group assigns and the role its ClavexRole reports are the same if and only if the name occurs once |
| GroupRoles.OrdersAgreeExactly | internal/controller/clavexrole_controller.go:190-194 | they are the same in all orders the two listings may come in if and only if the name occurs once |
| GroupRoles.DuplicateNamesDisagree | internal/controller/clavexrole_controller.go:190-194 | the smallest instance of disagreement |
| GroupRoles.TargetStandsExactly | internal/controller/clavexgroup_controller.go:240-247 | while role passes go on, the resolved IDs remain those of the names if and only if none of the named roles was deleted; roles created meanwhile change nothing |
| GroupRoles.WritesReachTheListing | internal/controller/clavexgroup_controller.go:249-271 | writes planned from a listing do to a later listing what they were planned to do, whether or not assignments of deleted roles are listed |
| AuthPolicy.ReconcileAuthPolicy | internal/controller/clavexauthpolicy_controller.go:235-282 | the pass is one over the name-keyed store, and reports drift exactly when an existing rule differs at an observed generation |
| AuthPolicy.UpToDateShowsTheSpec | internal/controller/clavexauthpolicy_controller.go:215-230 | pins the field mapping: an up-to-date rule shows exactly the criteria of its CR |
| AuthPolicy.SettlesInTwoPasses | internal/controller/clavexauthpolicy_controller.go:235-295 | two successful passes settle a rule, whatever `enabled` defaults to, if and only if the server lists the built conditions back as sent |
| AuthPolicy.SecondPassWritesExactly | internal/controller/clavexauthpolicy_controller.go:246-274 | after a Create the second pass writes exactly when the default for `enabled` or the echo differs |
| AuthPolicy.OtherServersNeverSettle | internal/controller/clavexauthpolicy_controller.go:287-295 | against any other server every pass writes again |
| AuthPolicy.OtherServersReportDriftForever | internal/controller/clavexauthpolicy_controller.go:262-281 | and every pass after the first that wrote reports drift at an observed generation |
| AuthPolicy.EmptyListServerNeverSettles | internal/controller/compare.go:5-11 | a server that lists absent lists as empty makes every pass write, forever, if and only if the spec leaves a list out |
| OrgSettings.ReconcileSection | internal/controller/clavexorg_controller.go:243-303 | one section, with edits before its Get and between Get and Put: writes exactly when what was read has other values or not the operator's marker, succeeds with both, and reports drift exactly when there was no row or other values, never for the marker alone |
| OrgSettings.ReconcileOrgSettings | internal/controller/clavexorg_controller.go:200-225 | both sections in order, stopping at the first error; drift exactly when a present section had no row or other values |
| OrgSettings.FinalizeOrg | internal/controller/clavexorg_controller.go:110-151 | deletion touches markers only, in order, and succeeds exactly when both are released or the credentials are gone, in which case nothing is touched |
| OrgSettings.FaultFreePassConverges | internal/controller/clavexorg_controller.go:200-303 | whatever others edit before and between its calls, a fault-free pass leaves present sections matching spec and marked, absent ones with their values and no marker, reports drift exactly when a present section differed as it was read, and a quiet repeat writes nothing |
| OrgSettings.ValuesAreConserved | internal/controller/clavexorg_controller.go:200-274 | over every run of single calls, with edits, faults and crashes between any two: the password policy's values are those of the last outside edit or effective Put, and a Put is one of a pass whose spec has the section and these values |
| OrgSettings.LimitsAreConserved | internal/controller/clavexorg_controller.go:200-303 | the same for rate limits |
| OrgSettings.DriftIsADifferenceAtTheGet | internal/controller/clavexorg_controller.go:243-303 | over every such run, a pass that succeeds reports drift if and only if a present section differed from its spec in the row that this pass's own Get answered |
| OrgSettings.PassIsARun | internal/controller/clavexorg_controller.go:200-225 | every pass of the method is such a run and reports what the run reports |
| OrgSettings.DeletionIsARun | internal/controller/clavexorg_controller.go:137-151 | so is every deletion with credentials |
| OrgSettings.DriftIsExactOnSuccess | internal/controller/clavexorg_controller.go:272-302 | a successful pass reports drift exactly when a managed section's values differed |
| OrgSettings.DriftReportAfterFailure | internal/controller/clavexorg_controller.go:201-218 | after a failing pass the retry reports drift if and only if some section was not already repaired |
| Debounce.RateIsBounded | internal/eventstream/eventstream.go:116-146 | a stretch of time of length L holds at most L / 2 s + 1 admitted events |
| Debounce.AdmittedAreSeparated | internal/eventstream/eventstream.go:138-146 | admitted events are at least the window apart |
| Debounce.SeparatedSpans | internal/eventstream/eventstream.go:138-146 | the k-th and l-th of any separated choice are at least l - k windows apart |
| Debounce.AdmittingGreedilyIsOptimal | internal/eventstream/eventstream.go:138-146 | no separated choice of the same events is larger than the admitted one |
| Debounce.RefusedFollowsAdmitted | internal/eventstream/eventstream.go:141-143 | each refused event has an admitted one less than the window before it |
| Debounce.AdmittedExactly | internal/eventstream/eventstream.go:138-146 | the admitted indices are exactly those the map entry lets through |
| Debounce.NothingIsLostExactly | internal/eventstream/eventstream.go:105-111 | over a whole history, every event is sent or preceded by a sent one within the window if and only if every admitted event found room |
| DebounceKeys.KeyIsInjective | internal/eventstream/eventstream.go:311 | the joined key is injective when type, namespace and name have no bar, even if the org slug has |
| DebounceKeys.BarsInNamespacesCollide | internal/eventstream/eventstream.go:311 | with a bar in a namespace it is not |
| DebounceKeys.OneDebouncerPerObject | internal/eventstream/eventstream.go:138-146 | the shared map admits an event exactly when a debouncer of that object alone would |
| EventQueue.Dispatcher.Dispatch | internal/eventstream/eventstream.go:293-329 | the loop over the listed CRs, while the controller drains the channel and other connections send to it and record admissions, also between an item's admission and its send; unknown kinds and failed listings change nothing |
| EventQueue.Dispatcher.ShouldEnqueue | internal/eventstream/eventstream.go:138-146 | admits outside the window and records the time only then |
| EventQueue.DispatchAccountsForEveryEvent | internal/eventstream/eventstream.go:306-323 | whatever others do: the channel stays bounded, what comes out is what went in, in order, and this dispatch's own part of it is exactly its items of fate Sent, in list order and each once |
| EventQueue.DispatchDecidesExactly | internal/eventstream/eventstream.go:307-322 | the fate of every item: passed over, collapsed, sent or dropped; collapsed if and only if its own key was recorded less than 2 s before, dropped if and only if it is admitted and all 256 places are taken at that moment |
| EventQueue.OthersKeepTheirWindow | internal/eventstream/eventstream.go:311-314 | admitting one CR leaves the window of every CR of another namespace or name as it was |
| EventQueue.DistinctObjectsAreAllSent | internal/eventstream/eventstream.go:306-323 | in one undisturbed dispatch with room, all CRs of the org that are outside their windows are sent, however close together |
| EventQueue.DroppedEventsTakeTheirWindow | internal/eventstream/eventstream.go:312-322 | an admitted event takes its object's window whether it is sent or dropped, and a collapsed one does not |
| EventQueue.NothingIsLostUnlessDropped | internal/eventstream/eventstream.go:105-111 | over an object's whole history, with everything that happens around it, every event is sent or covered by one sent within the window before it if and only if none was dropped |
| ConnectionPool.Pool.Valid | internal/eventstream/eventstream.go:170-186 | every live connection goroutine is the one stored under its slug, hence at most one per org |
| ConnectionPool.Pool.EnsureOrgWithKey | internal/eventstream/eventstream.go:170-186 | opens exactly one connection, only when started and not connected, and keeps all others |
| ConnectionPool.Discover | internal/eventstream/eventstream.go:223-248 | the result is that of visiting the kinds once each in some order; its slugs are exactly the nonempty ones of successfully listed CRs, each with the Secret reference and the namespace of the first CR of its org in some listing |
| ConnectionPool.Pool.ReconcileConns | internal/eventstream/eventstream.go:252-280 | after a tick the pool is exactly the desired slugs that were connected, were opened meanwhile or whose key resolved; kept orgs keep their connection, dropped ones have exited, and a connection opened by the tick runs with the key resolved for a listed CR of its org |
| ConnectionPool.Pool.OpenDesired | internal/eventstream/eventstream.go:258-271 | opens what is missing with the key its coordinates resolve to |
| ConnectionPool.Pool.Launch | internal/eventstream/eventstream.go:267-269 | a goroutine starts only once its connection is stored, in a pool that is valid before and after |
| ConnectionPool.Pool.Remove | internal/eventstream/eventstream.go:273-279 | an entry may be removed only when its goroutine has exited, and the pool is valid after this step alone |
| ConnectionPool.Pool.StopConn | internal/eventstream/conn.go:37-43 | ends the goroutine while its entry is still in the pool |
| ConnectionPool.Pool.CloseAllBut | internal/eventstream/eventstream.go:273-279 | keeps exactly the desired connections, untouched, and takes the others through stop and then removal |
| ConnectionPool.Pool.Shutdown | internal/eventstream/eventstream.go:282-289 | an empty pool and no live goroutine |
| ConnectionPool.Pool.Start | internal/eventstream/eventstream.go:194-213 | over any number of ticks, on-demand opens and goroutines that leave when the context ends, the pool stays valid and ends empty with every goroutine exited |
| ConnectionPool.OrderIsImmaterialExactly | internal/eventstream/eventstream.go:230-269 | the pool after a tick is independent of map order if and only if, for each unconnected org, the first CRs of all the listings that show it agree on whether their key resolves |
| Backoff.Run | internal/eventstream/conn.go:47-79 | the wait after attempt i is min(500 * 2^(i - j), 30000) ms, j the last attempt that lasted over 30 s |
| Backoff.ReconnectRate | internal/eventstream/conn.go:17-20 | n attempts and their waits take at least 5000 n - 12500 ms |
| Backoff.ReconnectRateIsTight | internal/eventstream/conn.go:17-20 | some history meets that bound |

## Left out

- HTTP, WebSocket dialling, JSON decoding, TLS, leader election, work queues, events, logging and the manager's main function.
- The webhook and identity-provider controllers: the auth-policy protocol again; the webhook comparison is sensitive to list order.
- The admission webhook, API types, and the fields lastSyncedAt and clavexClientId of the status.
- Liveness of stop and shutdown: a tick waits for a connection under the lock that its dispatch may be waiting for, and stop may read a cancel function not yet set.
- How the SDK sends absent lists: they are taken to replace the stored field by an empty one; spec.scopes and tokenEndpointAuthMethod, which the code never sends, and the managed-by stamp of clients.
- Users who strip the operator's finalizer or write the status themselves. The client ID is immutable; the org, which comes from the Secret and may change, is kept fixed.
- The finalizer and status steps of the other kinds, which repeat those of ClavexClient.
- Outside creates and deletes of name-keyed objects, and outside edits of a group's membership during its pass.
- Secret reads that fail for another reason than absence, when credentials are resolved; error messages are inputs.
- A generated client secret that could not be written is lost; `Conclude` records the failed pass only.
- slices.Sort is an insertion sort here with the same contract.
- Two setCondition calls of one status persist read one clock.
- The manager's context ends between turns of `Start`; a connection opened after that exits at once and is not shown.
- Duration of a connection attempt is an input of `Backoff.Run`, and cancellation inside the loop is not modelled.
- ClientTheorems.DriftReportsAreReal: is for one CR per client ID; with two, the passes of the other CR change the client as well and are not counted as outside changes.
- ClientSync.SuccessIsAFixpoint: is about one synchronisation; `ClientOperator.Operator.Reconcile` says the same of whole undisturbed passes.
- Debounce.RateIsBounded: measures between the recorded times of two admitted events, which may be later than their check by the time of the lock.
