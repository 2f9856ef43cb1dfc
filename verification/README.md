# Operator RBAC toolkit: a verified model

This project models the parts of the operator RBAC toolkit that decide who holds which grant,
and proves what they keep. It is checked with `dafny verify dfyconfig.toml`.

- **Scoping (`pkg/scoper`)**. Four actors create, adopt, repair and delete the same RoleBindings
  through the API server: the CR reconciler, the namespace label trigger, the admission webhook and
  the periodic cleanup. `scoper_actors.dfy` gives each of them as a program that issues one API call
  at a time (`Next`) and goes on with the reply (`Resume`); the server (`Exec`) keeps resource
  versions and may fail any call. The same programs are used in three ways:
  - alone and without faults they are shown equal to closed forms (`scoper_solo.dfy`), about which the
    laws of `scoper_laws.dfy`, `scoper_cleanup.dfy` and `scoper_convergence.dfy` are proved;
  - interleaved in any number, with faults, CR and namespace changes and time passing, they form the
    system of `scoper_system.dfy`, whose runs `scoper_owners.dfy`, `scoper_runs.dfy`,
    `scoper_refs.dfy`, `scoper_label_runs.dfy`, `scoper_checks.dfy` and `scoper_safety.dfy` are about;
  - the classes `ScopingReconciler`, `LabelTriggerReconciler`, `ProvisioningWebhookHandler` and
    `CleanupReconciler` are the source's methods, statement by statement, each proved to be a run of
    its program against the class `ApiServer`, so every theorem about runs is about the methods.

  The vocabulary of the programs is tied to the administrator's: `scoper_grants.dfy` defines, on their
  own, what a deny list permits, what a RoleBinding admits and what a CR asks for, and shows these to be
  what the programs compute; `scoper_effects.dfy` says in those terms, with every label and annotation
  written out, what each closed form does to the store; the theorems about runs are stated in them too.
- **Cross-namespace grants (`pkg/crossns`)**. `Apply`, `gc` and `Teardown` in the same style: the
  program, what one run does under any failures, sequences of calls, make-before-break,
  two controllers side by side, and the methods of `Reconciler`; `crossns_effects.dfy` says what
  calls spare, keep, grant and remove by the labels, names and grants written out.
- **Graceful degradation (`pkg/graceful`)**. Permission discovery as goroutines behind a semaphore,
  the capped backoff with its per-key counters, and the two coupled status conditions.
- **Impersonation guard and audit (`pkg/impersonation`, `pkg/audit`)**. The rewriting of RBAC rules,
  what it decides for every request, and the audit's predicate as a judge of the result.

Where a wished-for property fails, the code is kept as it is and the lemma says exactly when it
holds, with an input at which it fails: `RefKeptExactly` with `PatchRace`, `DeletedUnlessAdopted`
with `LabelRace`, `SteadyState` with `ClusterScopedNeverSettles`, `OwnSelector` with
`SelectorOfAnotherTarget`, `KeptIff` with `BindingsWithoutSuffix`, `ReapplyWritesNothing` with
`OneRoleTwice`, `OwnedMeansMarked` with `ReservedKey`, `LostExactly` with `CustomVerbLost`; and `UidReadBack`, `CapIffBaseCapped`,
`ReachesMax`.

## Where code and documentation differ

The model follows the code in each case.

- `site/docs/architecture/rbac-scoping.md:109` says that owner references are patched with a strategic
  merge patch to avoid conflicts. `client.MergeFrom` (`pkg/scoper/reconciler.go:372`) makes a JSON merge
  patch without a resource version, which replaces the whole list: a concurrent owner can be lost
  (`ScoperRefs.PatchRace`; `ScoperRefs.RefKeptExactly` says exactly when).
- `README.md:110` promises no API calls at steady state. A settled CR causes no write
  (`ScoperLaws.SteadyState`), but it is read again; and a cluster-scoped CR never settles, because its
  owner entry has no namespace and is dropped when the annotation is parsed
  (`ScoperLaws.ClusterScopedNeverSettles`). For the same reason cleanup never removes the binding made
  for it (`ScoperConvergence.ClusterScopedIsKept`).
- `site/docs/architecture/rbac-scoping.md:121` says that malformed entries are logged. They are skipped
  silently (`pkg/scoper/ownership.go:16-28`).
- `site/docs/architecture/rbac-scoping.md:210` says that cleanup also runs on every CR deletion. It runs
  at start and on a ticker only (`pkg/scoper/cleanup.go:23-39`).
- `site/docs/design/tradeoffs.md:114` says that a namespace label change makes the controller delete the
  binding. The CR reconciler just stops (`pkg/scoper/reconciler.go:79-82`); only the label trigger
  deletes, and only a binding that its own latest read showed as made by it and without owners. The
  deletion has no precondition (`pkg/scoper/label_trigger.go:229-250`), so a binding adopted between
  that read and the deletion is deleted too (`ScoperLabelRuns.LabelRace`).
- `pkg/crossns/reconciler.go:131-132` says that bindings without the suffix are left alone. They are
  swept unless a wanted Role has their name (`CrossnsCalls.KeptIff`, `CrossnsCalls.BindingsWithoutSuffix`). The naming constraint of
  `pkg/crossns/types.go:22-23` is not needed: Roles and RoleBindings are told apart by kind.
- `pkg/impersonation/guard.go:141-144` says that explicit verbs beside a wildcard are a subset of the
  standard ones. A custom verb is dropped (`Guard.CustomVerbLost`).

## Model

| member | source | states |
|---|---|---|
| `Ownership.FormatThenParse` | pkg/scoper/ownership.go:16-48 | Writing a list of owners and reading it back gives the same list if and only if every entry is one the format can carry |
| `Ownership.NormalForm` | pkg/scoper/ownership.go:16-48 | Rewriting any annotation string, well formed or not, changes nothing that is read from it |
| `Ownership.ParsedAreCarried` | pkg/scoper/ownership.go:16-40 | Whatever the string, parsing yields only entries the format can carry |
| `Ownership.AddLaws` | pkg/scoper/ownership.go:54-74 | Adding keeps UIDs unique, is idempotent, adds exactly one UID unless a delimiter forbids it, and removing that UID undoes it |
| `Ownership.AddExact` | pkg/scoper/ownership.go:54-64 | A new owner goes behind the others, unless its UID is listed already or its namespace or name holds a slash or comma |
| `Ownership.RemoveExact` | pkg/scoper/ownership.go:66-74 | Removing a UID keeps every entry of the other UIDs, as often as it was there and in its order, and nothing else |
| `Ownership.AddSurvivesWriting` | pkg/scoper/ownership.go:54-64 | An accepted entry survives being written and read if and only if the format can carry it; the delimiter check alone is not enough |
| `Ownership.UidReadBack` | pkg/scoper/ownership.go:16-64 | The exact condition under which the UID of an appended entry is found by the next reader |
| `Ownership.AppendKeeps` | pkg/scoper/ownership.go:16-64 | Whatever entry is appended and written, every earlier owner is read back, in place |
| `Ownership.ParseOwnerAnnotation` | pkg/scoper/ownership.go:16-28 | The loop computes the parse function, which the laws above are about |
| `Ownership.FormatOwnerAnnotation` | pkg/scoper/ownership.go:42-48 | The loop over the preallocated slice computes the format function |
| `Ownership.AddOwnerEntry` | pkg/scoper/ownership.go:54-64 | The search loop computes Add, delimiter check and duplicate UID included |
| `Ownership.RemoveOwnerEntry` | pkg/scoper/ownership.go:66-74 | The filtering loop computes Remove |
| `ScoperTypes.PendingRoundTrip` | pkg/scoper/webhook.go:133-137 | Parsing the pending-owner text gives back namespace, name and the time cut to whole seconds, less than one second before the clock read |
| `ScoperTypes.PendingParts` | pkg/scoper/reconciler.go:399-416 | A pending-owner text of fewer than six parts is not read, and parts behind the sixth change nothing |
| `ScoperTypes.SetOwnerAt` | pkg/scoper/reconciler.go:372-376 | Setting an owner reference puts it in the list, invents nothing, and keeps every reference to another object |
| `ScoperGrants.PermittedIff` | pkg/scoper/validation.go:13-27 | A namespace is denied if and only if it is listed or some prefix of it is a listed prefix |
| `ScoperGrants.ListedIsDenied` | pkg/scoper/validation.go:13-27 | A listed name is denied, and so is a listed prefix followed by anything |
| `ScoperGrants.ExpectedGrants` | pkg/scoper/reconciler.go:218-235 | The expected roleRef and subjects are those that bind the ClusterRole to the one service account, told by its namespace and its name, and admit nobody else |
| `ScoperGrants.FieldIff` | pkg/scoper/reconciler.go:383-397 | A field is found if and only if it is the non-empty string at the dot-separated path, with or without a leading dot |
| `ScoperGrants.AsksForIff` | pkg/scoper/reconciler.go:69-77 | The target namespace is the one the CR names in the configured field, or its own if none is configured |
| `ScoperGrants.ActsForIff` | pkg/scoper/reconciler.go:114-137 | The service account is that of the function, else of the two fields, with the CR's own namespace when no namespace field is configured, else the static one |
| `ScoperReconciler.NewScopingReconciler` | pkg/scoper/reconciler.go:34-50 | Refuses exactly the targets whose namespace selector cannot be read |
| `ScoperReconciler.ScopingReconciler.Reconcile` | pkg/scoper/reconciler.go:52-98 | Every reconcile, whatever fails, is a run of the reconciler program; without faults its store and result are exactly those of the closed form |
| `ScoperReconciler.ScopingReconciler.IsNamespaceAllowed` | pkg/scoper/reconciler.go:100-112 | Allowed means neither listed nor under a listed prefix, and labels read that pass the selector; a failed read refuses; without a selector the deny list alone decides |
| `ScoperReconciler.ScopingReconciler.EnsureRoleBinding` | pkg/scoper/reconciler.go:146-214 | From the resolved service account to the recorded owner, call by call as the program does |
| `ScoperReconciler.ScopingReconciler.EnsureRoleBindingSpec` | pkg/scoper/reconciler.go:218-298 | Re-read, delete and recreate for a drifted roleRef; retry loop for drifted subjects |
| `ScoperReconciler.ScopingReconciler.CreateRoleBinding` | pkg/scoper/reconciler.go:300-361 | Creates with the first owner recorded; AlreadyExists counts as success without recording anything |
| `ScoperReconciler.ScopingReconciler.BackfillPendingOwner` | pkg/scoper/reconciler.go:420-476 | The retry loop that turns the pending owner into an owner reference in one update |
| `ScoperReconciler.ScopingReconciler.EnsureOwnerReference` | pkg/scoper/reconciler.go:177-187 | The retry loop around the owner reference patch |
| `ScoperReconciler.ScopingReconciler.EnsureOwnerEntry` | pkg/scoper/reconciler.go:189-213 | The retry loop that appends the owner entry to the annotation read last |
| `ScoperSolo.SoloReconcile` | pkg/scoper/reconciler.go:52-214 | An undisturbed fault-free reconcile ends within eleven calls in exactly the closed form's store |
| `ScoperSolo.SoloLabel` | pkg/scoper/label_trigger.go:59-259 | The same for the label trigger, within six calls |
| `ScoperSolo.SoloHook` | pkg/scoper/webhook.go:60-171 | The same for the webhook, within four calls |
| `ScoperEffects.ReconcileGrants` | pkg/scoper/reconciler.go:52-214 | A CR that asks for an open namespace and a plain ClusterRole has afterwards a binding that grants that role to its service account and nobody else; nothing else changes |
| `ScoperEffects.ReconcileRefuses` | pkg/scoper/reconciler.go:52-112 | A CR that is missing, names no namespace or account, or asks for a denied namespace, unselected labels or an aggregated or missing role changes nothing |
| `ScoperEffects.ReconcileCreates` | pkg/scoper/reconciler.go:300-361 | The labels, annotations and owner of a new binding, written out: an owner reference in the CR's own namespace, an owner entry elsewhere |
| `ScoperEffects.ReconcileOwns` | pkg/scoper/reconciler.go:177-187 | An existing binding of the CR's namespace gets the CR as owner, behind the others when it is new; other references keep their places |
| `ScoperEffects.ReconcileLists` | pkg/scoper/reconciler.go:189-213 | An existing binding of another namespace gets exactly one more entry in its annotation text, or none if the UID is listed or a delimiter forbids it |
| `ScoperEffects.ReconcileTakesOver` | pkg/scoper/reconciler.go:399-476 | A pending owner is removed by a reconcile of the CR it names, once that has a UID, and by no other reconcile |
| `ScoperEffects.ReconcileKeeps` | pkg/scoper/reconciler.go:236-298 | What a reconcile keeps of an existing binding besides its owners: all labels and annotations, or, where a drifted roleRef had it replaced, the owner annotation alone |
| `ScoperEffects.LabelWithdraws` | pkg/scoper/label_trigger.go:71-139 | Labels that fail the trigger or the selector, or a denied namespace: nothing is made, the trigger's own binding without owners is gone, any other stays |
| `ScoperEffects.LabelGrants` | pkg/scoper/label_trigger.go:86-217 | Labels that pass both tests and a plain ClusterRole: the binding is there, and unless it has owners grants exactly that role to the target's account |
| `ScoperEffects.LabelWaits` | pkg/scoper/label_trigger.go:59-126 | A missing namespace, or a missing or aggregated ClusterRole: nothing changes |
| `ScoperEffects.HookGrants` | pkg/scoper/webhook.go:60-171 | A request, not a dry run, in an open namespace without a binding makes one with the object as pending owner and the time in seconds; every other request changes nothing |
| `ScoperEffects.PendingExpires` | pkg/scoper/cleanup.go:131-175 | A binding with a pending owner is dropped if and only if that CR is missing and more than thirty seconds have passed since the second it was stamped |
| `ScoperEffects.OwnersDecide` | pkg/scoper/cleanup.go:91-125 | Any other binding keeps exactly the owners whose CR is there with that UID and still asks for the namespace, in order; it is dropped when it had owners and none is left |
| `ScoperEffects.CleanupCuts` | pkg/scoper/cleanup.go:61-125 | Cleaning a target touches only managed bindings of its name, and of those that stay only the owner annotation, which then reads as the owners that still ask |
| `ScoperEffects.FailedCallsEnd` | pkg/scoper/reconciler.go:52-214 | After any failed call a reconcile or label trigger ends with an error, except that an unread namespace is refused and an unread ClusterRole waited for; the webhook lets the request pass |
| `ScoperEffects.LostRaces` | pkg/scoper/reconciler.go:146-361 | A binding somebody else has just made or deleted counts as made or deleted; one that has gone before it could be changed ends the attempt with an error; a CR or namespace that has gone ends it without |
| `ScoperLaws.SteadyState` | pkg/scoper/reconciler.go:146-214 | A second reconcile performs no write at all if and only if the owner entry of a cross-namespace CR can be read back from the annotation |
| `ScoperLaws.ClusterScopedNeverSettles` | pkg/scoper/reconciler.go:189-213 | After any number of reconciles of a cross-namespace CR without a namespace, the next one writes again |
| `ScoperLaws.ManySameNs` | pkg/scoper/reconciler.go:146-187 | After any reconciles of CRs sharing a binding its owner references are exactly those CRs' plus the earlier ones to other objects |
| `ScoperLaws.ManyCrossNs` | pkg/scoper/reconciler.go:189-213 | The same for the owner UIDs in the annotation |
| `ScoperLaws.OrderIndependence` | pkg/scoper/reconciler.go:146-298 | Reconciling the same CRs in any order and number leaves the same owner UIDs, roleRef and subjects |
| `ScoperLaws.RepairKeepsOwners` | pkg/scoper/reconciler.go:240-288 | Reconciling an existing binding, its roleRef drifted or not, keeps every owner entry in place; its owner references too, except that in the CR's own namespace one to the CR's object may become the CR's; replacing a drifted roleRef forgets a pending owner |
| `ScoperLaws.AdoptionDiamond` | pkg/scoper/label_trigger.go:59-259 | Label trigger then reconcile, or the reverse, give the same bindings, roleRefs, subjects and owners from any store and configuration |
| `ScoperLaws.LabelKeepsAdopted` | pkg/scoper/label_trigger.go:240-246 | An undisturbed label trigger leaves every binding with owner references, and every other name, exactly as it was |
| `ScoperLabelRuns.DeletedUnlessAdopted` | pkg/scoper/label_trigger.go:193-250 | In any run, when the label trigger deletes, its latest call read a binding without owners that it had made (or whose roleRef had drifted); what it deletes has owners if and only if somebody gave it its first one after that read |
| `ScoperLabelRuns.LabelRace` | pkg/scoper/label_trigger.go:229-250 | A reconciler adopts the binding between the label trigger's read and its deletion: both report success and the binding is gone |
| `ScoperLabelTrigger.NewLabelTriggerReconciler` | pkg/scoper/label_trigger.go:31-56 | Refuses exactly the targets without a trigger or with a selector that cannot be read; otherwise keeps the target's selectors |
| `ScoperLabelTrigger.LabelTriggerReconciler.Reconcile` | pkg/scoper/label_trigger.go:59-139 | A run of the label trigger program; without faults exactly its closed form |
| `ScoperLabelTrigger.LabelTriggerReconciler.EnsureRoleBinding` | pkg/scoper/label_trigger.go:143-177 | Create, or check for drift when something is there |
| `ScoperLabelTrigger.LabelTriggerReconciler.EnsureDrift` | pkg/scoper/label_trigger.go:180-217 | Adopted bindings are left; a drifted roleRef is replaced, drifted subjects corrected in a retry loop |
| `ScoperLabelTrigger.LabelTriggerReconciler.DeleteRoleBinding` | pkg/scoper/label_trigger.go:220-259 | Reads, and deletes what was read as made by the trigger and without owners, call by call as the program does |
| `ScoperWebhook.ProvisioningWebhookHandler.constructor` | pkg/scoper/webhook.go:28-58 | The two maps hold, for each resource, configured or the plural of the kind, the last webhook target and the last readable selector configured for it |
| `ScoperWebhook.PluralOf` | pkg/scoper/webhook.go:173-183 | The plural of a kind by its last two letters |
| `ScoperWebhook.LastAnswers` | pkg/scoper/webhook.go:28-58 | A request is answered by the last webhook target of that group and version whose resource, or plural of the kind, it names |
| `ScoperWebhook.OwnSelector` | pkg/scoper/webhook.go:28-58 | A request is judged by its target's own selector if and only if that can be read, or the target has none and no target for that resource has a readable one; an earlier target's selector is not cleared |
| `ScoperWebhook.SelectorOfAnotherTarget` | pkg/scoper/webhook.go:45-51 | Two targets for one resource, only the first with a selector: requests are answered with the second, but nothing is made where the first one's selector fails |
| `ScoperWebhook.ProvisioningWebhookHandler.Handle` | pkg/scoper/webhook.go:60-171 | Always allows; for a configured resource it is a run of the webhook program, without faults exactly its closed form |
| `ScoperCleanupLoop.CleanupReconciler.RunCleanup` | pkg/scoper/cleanup.go:45-59 | The total is the number of bindings removed, whatever fails; when nothing fails every managed binding of every target is treated by its verdict |
| `ScoperCleanupLoop.CleanupReconciler.ListAndCleanup` | pkg/scoper/cleanup.go:61-76 | Visits the listed bindings of the target's name in order and counts the removed ones |
| `ScoperCleanupLoop.CleanupReconciler.CleanupRoleBinding` | pkg/scoper/cleanup.go:78-126 | One visit: pending rule, or prune, delete or keep by the valid owners |
| `ScoperCleanupLoop.CleanupReconciler.CleanupPendingOwner` | pkg/scoper/cleanup.go:131-175 | Deletes only after expiry and a lookup that found no CR |
| `ScoperCleanupLoop.CleanupReconciler.IsOwnerValid` | pkg/scoper/cleanup.go:177-204 | Same UID and, for a namespace field, same namespace; any error but a missing CR leaves the owner valid |
| `ScoperCleanup.ReportedIsRemoved` | pkg/scoper/cleanup.go:45-126 | The reported total equals the number of bindings that are gone, over all targets and listings, under any failures |
| `ScoperCleanup.CleanupExact` | pkg/scoper/cleanup.go:45-204 | A pass without failures prunes each binding to the live owners in order, deletes it exactly when it had owners and none is live or its pending owner expired without a CR, and touches nothing else |
| `ScoperCleanup.PassEnds` | pkg/scoper/cleanup.go:45-204 | From any point of a pass there is a failure-free course that ends it |
| `ScoperConvergence.Convergence` | pkg/scoper/cleanup.go:45-204 | From any reachable store, one reconcile of every CR and one cleanup pass leave a binding in an open namespace if and only if some CR asks for it; it admits exactly the target's account to exactly its ClusterRole and lists exactly the CRs that ask |
| `ScoperConvergence.ClusterScopedIsKept` | pkg/scoper/cleanup.go:91-115 | The binding made for a CR without a namespace shows no owner, and no cleanup pass removes it whatever becomes of the CR |
| `ScoperConvergence.ReconcilesCross` | pkg/scoper/reconciler.go:69-214 | Reconciling a list of CRs records each that reaches its binding, loses no recorded owner, and keeps every binding a correct grant with true owners |
| `ScoperRuns.OwnersAreTrue` | pkg/scoper/reconciler.go:189-213 | In every reachable state the owners in an annotation have distinct UIDs and each names the CR that UID was given to |
| `ScoperOwners.AnnotationStep` | pkg/scoper/reconciler.go:189-213 | Each step leaves a binding's owner list alone, appends the one new owner its reconciler works for, or prunes it by a cleanup update |
| `ScoperRuns.NoLostOwner` | pkg/scoper/cleanup.go:91-125 | In every interleaving, while the binding lives, a recorded owner stays until an update by a cleanup pass whose own lookup found its CR missing, with another UID, or no longer asking for the namespace |
| `ScoperRuns.ConflictCharged` | pkg/scoper/reconciler.go:190-213 | Each conflict of a retry loop follows a successful write of that binding by someone else since the loop's own latest read |
| `ScoperRuns.FifthConflictFails` | pkg/scoper/reconciler.go:190-213 | A conflict in a retry loop is followed by a fresh read and the next try; the fifth ends in an error |
| `ScoperRuns.FiveTriesAtMost` | pkg/scoper/reconciler.go:190-213 | In no run is a retry loop past its fifth try |
| `ScoperRefs.RefStep` | pkg/scoper/reconciler.go:363-377 | One move of the system, exactly: afterwards a reference is recorded if and only if the move puts it on, or it was there and the move does not take it off |
| `ScoperRefs.RefKeptExactly` | pkg/scoper/reconciler.go:177-187 | While a binding lives, a recorded owner reference stays if and only if no move takes it off: a patch whose own latest read lacked it, or showed it as the one to the patcher's object, which it replaces; a backfill that replaces it; a change from outside. It is there at the end if and only if after each such move another put it back |
| `ScoperRefs.PatchRace` | pkg/scoper/reconciler.go:179-187 | Two reconcilers that both read before either patches both report success, and the first owner is gone |
| `ScoperSystem.VersionStep` | pkg/scoper/reconciler.go:190-213 | A snapshot that still has the object's uid and resource version is the object, in every state |
| `ScoperChecks.NothingWhereDenied` | pkg/scoper/validation.go:13-27 | In every run, whatever the configuration, the faults and the changes from outside, no store holds a binding in a namespace that is listed or begins with a listed prefix |
| `ScoperChecks.EveryCreationChecked` | pkg/scoper/reconciler.go:79-112 | In every run, each creation grants its target's ClusterRole to the one account the target or a CR the actor read names, where that CR asks for it, after the actor's own reads of labels that pass the selector and a ClusterRole without aggregation; a label trigger's, moreover, after labels that pass its trigger |
| `ScoperChecks.EveryRepairChecked` | pkg/scoper/reconciler.go:262-298 | The same for every update that repairs subjects |
| `ScoperSafety.EveryBindingIsSafe` | pkg/scoper/reconciler.go:79-112 | In every reachable store each binding lies in a namespace neither listed nor under a listed prefix, carries the managed label, and for the target of its name admits exactly that service account to exactly that ClusterRole and follows its one ownership regime |
| `ScoperSafety.HandOver` | pkg/scoper/reconciler.go:461-474 | A webhook-made binding always shows a pending owner or an owner reference |
| `ScoperSafety.CleanupCoversOwners` | pkg/scoper/scoper.go:194-202 | A binding with an owner annotation or pending owner belongs to a target cleanup visits |
| `ScoperSafety.CleanupDeletesOrphansOnly` | pkg/scoper/cleanup.go:78-175 | When a pass is about to delete, it has itself found every owner stale, or found no CR of the name in the binding's own pending-owner text, stamped more than 29 seconds ago by the webhook process that created the binding |
| `ScoperSafety.CleanupTargetsExact` | pkg/scoper/scoper.go:194-202 | The cleanup list holds exactly the targets with a namespace field or webhook provisioning |
| `ScoperSetup.ValidateTarget` | pkg/scoper/scoper.go:124-192 | The counter and early returns accept exactly the targets with one service account strategy, a name, spec-only paths and no webhook or trigger where a CR would be needed |
| `ScoperSetup.AcceptedIff` | pkg/scoper/scoper.go:124-192 | Accepted are exactly the targets with a kind, a ClusterRole and a name, one way to find the service account, paths below the spec, and no webhook or trigger where a CR would have to be read |
| `ScoperSetup.FilterCleanupTargets` | pkg/scoper/scoper.go:194-202 | The loop computes the cleanup list |
| `ScoperSetup.AcceptedIsStatic` | pkg/scoper/scoper.go:133-192 | An accepted webhook, trigger or static target resolves to its own service account for every CR and meets what the safety theorems ask |
| `ScoperSetup.ListedForCleanup` | pkg/scoper/scoper.go:124-202 | An accepted target that can leave an owner annotation or pending owner is on the cleanup list |
| `CrossnsProgram.DesiredKeyInjective` | pkg/crossns/reconciler.go:83-85 | Composite keys tell (namespace, role) pairs apart, whatever the role names, because namespaces hold no slash |
| `CrossnsProgram.TrimUndoesAdd` | pkg/crossns/reconciler.go:131-134 | Trimming the suffix undoes adding it |
| `CrossnsCalls.KeptIff` | pkg/crossns/reconciler.go:113-137 | The sweep keeps exactly the wanted objects and suffixless bindings named like a wanted Role |
| `CrossnsCalls.BindingsWithoutSuffix` | pkg/crossns/reconciler.go:127-136 | Of two suffixless bindings nobody wants, the one named like the wanted Role is kept and the other is swept |
| `CrossnsCalls.ApplyExact` | pkg/crossns/reconciler.go:59-146 | After an Apply that got to the sweep: wanted objects carry the last rule set's content and merged labels; other objects of the owner are gone unless their listing or deletion is in the error; the rest is untouched |
| `CrossnsCalls.TeardownExact` | pkg/crossns/reconciler.go:94-146 | Teardown removes exactly the owner's objects except those whose listing or deletion is in the error |
| `CrossnsCalls.NilIffNothingFailed` | pkg/crossns/reconciler.go:59-146 | A Teardown, or an Apply of a valid job, returns nil if and only if no API call of it failed |
| `CrossnsCalls.LastCallWins` | pkg/crossns/reconciler.go:59-146 | After any sequence of calls, failed ones included, whose last returned nil, the owner's objects are exactly that call's; objects no call named are as at the start |
| `CrossnsCalls.MakeBeforeBreak` | pkg/crossns/reconciler.go:72-80 | After a completed Apply, at every point of the next one, whatever fails, no object wanted by both is missing, and each shows the old content or that of a rule set of the new call |
| `CrossnsCalls.SweepComesLast` | pkg/crossns/reconciler.go:72-80 | At every point of an Apply either every wanted object is in place or nothing has been removed but a binding being replaced |
| `CrossnsEffects.OwnedMeansMarked` | pkg/crossns/reconciler.go:247-266 | What an owner's sweeps take for its own are exactly the objects with the managed label and the owner's, if and only if its key is not the managed label with another value |
| `CrossnsEffects.ReservedKey` | pkg/crossns/reconciler.go:258-266 | With the managed label as owner key an object that is not managed is taken for the owner's |
| `CrossnsEffects.SparesOthers` | pkg/crossns/reconciler.go:59-266 | Whatever fails and however far a call got, an object it does not name and that lacks the managed label or the owner's is as it was |
| `CrossnsEffects.KeepsNamed` | pkg/crossns/reconciler.go:210-228 | An object an Apply names never goes missing, but for a binding with another roleRef that has to be replaced |
| `CrossnsEffects.ApplyGrants` | pkg/crossns/reconciler.go:156-244 | After nil each rule set has its Role with the last rules and the binding of that Role to the subject alone, both with both labels |
| `CrossnsEffects.ApplySweeps` | pkg/crossns/reconciler.go:102-146 | After nil nothing else with both labels is left but bindings with the very name of a wanted Role |
| `CrossnsEffects.TeardownRemovesMarked` | pkg/crossns/reconciler.go:94-146 | Of the objects with both labels exactly those whose listing and deletion worked are gone, and every other object is as it was |
| `CrossnsEffects.MarkedAreNamed` | pkg/crossns/reconciler.go:59-146 | After any sequence of calls whose last returned nil the objects with both labels are exactly those that call names |
| `CrossnsEffects.RefusedIffMalformed` | pkg/crossns/reconciler.go:59-71 | An Apply without a subject name, or with a rule set without a name or namespace, does nothing and says so; no other says so |
| `CrossnsEffects.FifthConflictFails` | pkg/crossns/reconciler.go:156-244 | A conflict is followed by a fresh read and the next try; the fifth is in the error |
| `CrossnsSettled.ReapplyWritesNothing` | pkg/crossns/reconciler.go:156-244 | A repeated Apply leaves the store unchanged, versions included, if and only if no two rule sets disagree about one Role |
| `CrossnsSettled.OneRoleTwice` | pkg/crossns/reconciler.go:156-187 | With two rule sets for one Role and different rules every repeated Apply that succeeds writes again |
| `CrossnsSchedules.NonInterference` | pkg/crossns/reconciler.go:59-266 | Two controllers with one owner key, different values and disjoint names: in any schedule with any failures each gets the same replies, ends in the same state and leaves the same objects as alone |
| `CrossnsReconciler.Reconciler.Apply` | pkg/crossns/reconciler.go:59-80 | A run of the program for every input and failure; when it returns nil every object of the cluster is settled |
| `CrossnsReconciler.Reconciler.Teardown` | pkg/crossns/reconciler.go:94-96 | A run of the program; when it returns nil exactly the owner's objects are gone |
| `CrossnsReconciler.Reconciler.Gc` | pkg/crossns/reconciler.go:102-146 | Both sweeps in order, collecting the errors, as the program does |
| `CrossnsReconciler.Reconciler.ApplyRole` | pkg/crossns/reconciler.go:156-187 | The retry loop that creates or updates the Role |
| `CrossnsReconciler.Reconciler.ApplyRoleBinding` | pkg/crossns/reconciler.go:189-244 | The retry loop that creates, replaces or updates the RoleBinding |
| `CrossnsReconciler.MergeLabels` | pkg/crossns/reconciler.go:271-280 | The two copying loops give the union in which the managed labels win |
| `Discovery.BuildChecks` | pkg/graceful/discovery.go:29-46 | A check is made if and only if some resource has its group, name and verb, and its namespace is one of those given or, when none is, the empty one |
| `Discovery.ChecksCover` | pkg/graceful/discovery.go:29-46 | The checks are exactly the resource, verb and namespace combinations |
| `Discovery.RunKeeps` | pkg/graceful/discovery.go:48-78 | In every schedule at most MaxConcurrency goroutines hold the semaphore, and each slot is empty, an error or what its check was answered |
| `Discovery.AnsweredOnce` | pkg/graceful/discovery.go:53-77 | No check is answered twice |
| `Discovery.InvStep` | pkg/graceful/discovery.go:53-77 | Each step touches no slot but its own goroutine's |
| `Discovery.Progress` | pkg/graceful/discovery.go:53-78 | Until all goroutines have ended some goroutine can move without cancellation |
| `Discovery.RunsAreShort` | pkg/graceful/discovery.go:53-78 | No schedule takes more than four steps per check |
| `Discovery.ScheduleIndependence` | pkg/graceful/discovery.go:48-89 | Whatever the schedule there is an error if and only if a check failed or was cancelled, and otherwise the slots hold exactly the answers given, in the order of the checks |
| `Discovery.PickExact` | pkg/graceful/discovery.go:91-98 | Granted and Denied together hold every result once |
| `Discovery.PickInOrder` | pkg/graceful/discovery.go:91-98 | Both keep the order of the checks |
| `Discovery.Fork` | pkg/graceful/discovery.go:48-78 | Running the goroutines in any order, with any answers, failures and cancellation, writes the result and error slots as some complete run of the machine does |
| `Discovery.DiscoverPermissions` | pkg/graceful/discovery.go:23-107 | An error if and only if some check failed or was cancelled; otherwise the report holds a granted or denied result for exactly what was asked, as answered, with the counts in its summary; ten at a time unless configured |
| `Discovery.ByNamespace` | pkg/graceful/discovery.go:197-204 | The two loops map every mentioned namespace to whether nothing in it was denied |
| `Discovery.DiscoverNamespacedPermissions` | pkg/graceful/discovery.go:186-206 | Fail-closed: no map on error; otherwise its keys are the given namespaces, or the empty one when none is given, each allowed if and only if every answer about it was yes |
| `Backoff.WithFactor` | pkg/graceful/types.go:87-94 | A factor of at least one is taken as given, any other becomes two |
| `Backoff.CalculateBackoff` | pkg/graceful/graceful.go:157-166 | The loop computes the delay function |
| `Backoff.DelayLaws` | pkg/graceful/graceful.go:157-166 | Delays never fall with the count, lie between base and max, and stay at max once there |
| `Backoff.CapIffBaseCapped` | pkg/graceful/graceful.go:157-166 | The delays keep under max, and never fall, if and only if the first one is under max |
| `Backoff.GeometricDelay` | pkg/graceful/graceful.go:157-166 | For a whole factor the delay is the capped power series |
| `Backoff.ReachesMax` | pkg/graceful/graceful.go:157-166 | The maximum is reached, within max - base failures after the first, if and only if base is max or one truncated step grows |
| `Backoff.Tracker.Increment` | pkg/graceful/graceful.go:29-34 | Returns the key's Forbidden errors since its last reset, this one included, and counts nothing for other keys |
| `Backoff.Tracker.ResetKey` | pkg/graceful/graceful.go:36-40 | Ends the streak of that key and of no other |
| `Backoff.StreakIsOwn` | pkg/graceful/graceful.go:29-50 | A key's streak depends only on its own events, however others are interleaved |
| `Conditions.SetLaws` | pkg/graceful/status.go:68-97 | Setting a condition reads back as its replacement, appends when new, and leaves other conditions in place |
| `Conditions.SetBothShows` | pkg/graceful/status.go:15-59 | The two conditions of each verdict with status, reason and message written out: only a denial that is still being provisioned does not degrade |
| `Conditions.StatusObject.SetCondition` | pkg/graceful/status.go:68-97 | In place or on a longer list, the conditions become exactly the specified list |
| `Conditions.StatusObject.SetPermissionGranted` | pkg/graceful/status.go:15-59 | Both conditions are set for the verdict, the pending case included |
| `Conditions.StatusObject.FindCondition` | pkg/graceful/status.go:99-107 | The first condition of the type |
| `Handler.ConditionsFollowHistory` | pkg/graceful/status.go:15-97 | After any run the two conditions are those of the last verdict, each dated by the latest flip of its own status |
| `Handler.AlwaysCoupled` | pkg/graceful/status.go:15-59 | After any run both are absent or both there once, in one of the three legal combinations and with one message |
| `Handler.OthersKept` | pkg/graceful/status.go:68-97 | Every other condition keeps its place and value |
| `Handler.GracefulHandler.Do` | pkg/graceful/graceful.go:78-155 | A refusal shows MissingPermissions, ProvisioningPending or PermissionDenied as the managed binding's lookup says, and is delayed by the key's own streak; a success clears a shown denial and otherwise writes nothing; other errors move no condition; a status write that fails is an error |
| `Handler.ApplyReport` | pkg/graceful/discovery.go:143-161 | Shows missing permissions when anything was denied, otherwise that all are available with the summary |
| `Guard.RemoveImpersonateVerb` | pkg/impersonation/guard.go:120-156 | The loops compute the rewrite function |
| `Guard.SearchImpersonateVerb` | pkg/impersonation/guard.go:91-103 | True exactly when some rule over service accounts has the verb or the wildcard |
| `Guard.SearchServiceAccounts` | pkg/impersonation/guard.go:105-112 | True exactly when the rule names service accounts or all resources |
| `Guard.RewriteExact` | pkg/impersonation/guard.go:120-156 | The rewritten rules allow a request if and only if some original rule by itself still does |
| `Guard.NeverMore` | pkg/impersonation/guard.go:120-156 | No request is newly allowed, and get, list, watch, create, update, patch and delete are decided as before |
| `Guard.LostExactly` | pkg/impersonation/guard.go:141-147 | A request for another verb is lost if and only if only wildcard or impersonate grants on service accounts allowed it |
| `Guard.ImpersonationGone` | pkg/impersonation/guard.go:120-156 | No rewritten rules let anybody impersonate a service account |
| `Guard.OnlyImpersonateChanges` | pkg/impersonation/guard.go:120-156 | Without a wildcard verb on service accounts only impersonate is decided differently |
| `Guard.CustomVerbLost` | pkg/impersonation/guard.go:141-147 | Beside a wildcard even a named custom verb is lost |
| `Guard.RewriteOnce` | pkg/impersonation/guard.go:91-156 | Rewriting is idempotent and removes the guard's trigger |
| `Guard.DueIff` | pkg/impersonation/guard.go:39-43 | A role is due if and only if it is labelled for aggregation to edit and some rule gives impersonate or every verb on service accounts or every resource |
| `Guard.Reconciler.Reconcile` | pkg/impersonation/guard.go:31-63 | Exactly one labelled role with the verb is rewritten and annotated in one update; otherwise, or when a call fails, nothing changes |
| `Guard.CleansedNotDue` | pkg/impersonation/guard.go:39-61 | A rewritten role is not due again, keeps its labels and other annotations, and carries autoupdate "false" |
| `Audit.ScanImpersonationGrants` | pkg/audit/scanners.go:14-59 | One finding per offending role, in order, the aggregate role skipped; an error exactly when a listing failed |
| `Audit.ScanAggregateToEditStatus` | pkg/audit/scanners.go:103-125 | Warns exactly when the aggregate role offends, says nothing when it is missing, and fails exactly when it cannot be read |
| `Audit.RoleFindingsExact` | pkg/audit/scanners.go:38-56 | A Role is reported under its namespace and name if and only if it is listed there with rules that offend |
| `Audit.FlaggedIff` | pkg/audit/scanners.go:218-223 | Rules are flagged if and only if they let somebody impersonate some service account |
| `Audit.FlaggedTriggersGuard` | pkg/audit/scanners.go:218-223 | What the audit flags triggers the guard; the guard also acts where the core group is left out |
| `Audit.RewrittenIsClean` | pkg/audit/scanners.go:218-223 | Rewritten rules are never flagged |
| `Audit.GuardedClusterPasses` | pkg/audit/scanners.go:14-59 | Once no labelled ClusterRole is due, the audit reports none of them |

## Left out

- The API server is modelled by its observable effect: resource versions, AlreadyExists, Conflict, NotFound and failed calls. A call that takes effect and still returns an error is not modelled, nor are patches and updates refused for other reasons, nor checks that a namespace exists.
- In `pkg/crossns` resource versions are counted per object; the cluster-wide counter would make no difference to any comparison the code makes.
- Reads are taken from the API server, not from an informer cache that lags behind it.
- `ScoperSystem.VersionStep`: outsiders may change, delete and recreate bindings but leave the owner annotation as it is; UIDs of CRs are not reused, and CRs are namespaced with entries the annotation can carry.
- `ScoperSafety.EveryBindingIsSafe`: for runs in which nobody but the actors and deletions touch RoleBindings, and for targets with a static name and service account and names of their own.
- Kubernetes garbage collection appears only as a deletion by the environment.
- `ScoperTypes.PendingRoundTrip`: RFC 3339 rendering is replaced by decimal seconds with a proved inverse; its calendar is library code.
- Label selectors are arbitrary predicates on label maps, or unreadable; what their text means is library code. Lower-casing a kind for its plural is done for ASCII letters. The RESTMapper is left out.
- The actors of the system belong to targets whose selectors can be read, as the constructors demand; a webhook handler given an unreadable selector, which it passes over, appears in `ScoperWebhook` only.
- `retry.DefaultRetry` is its five tries, without the waiting between them; `SetOwnerReference` is an upsert by group, kind and name.
- `CrossnsReconciler.Reconciler.Gc`: the Role and RoleBinding halves of gc share one method, as they differ only in how the Role name is read off the object.
- Go's nil and empty slices are one: an object whose rules come back as the other one would be updated once more.
- `Backoff.CalculateBackoff`: the factor is a fraction and products are exact before truncation; float rounding, overflow of the duration and the tracker's mutex (each operation is one step) are left out.
- `Handler.GracefulHandler.Do`: objects without status conditions are left out; the status write to the server is a success or a failure after the conditions are set; messages and backoff keys are given, as parsing them from errors is easy string work.
- `Guard.Reconciler.Reconcile`: an update conflict is one of the failures; controller set-up and event filters are left out.
- The other audit scans, service account protection, policy YAML, the command binaries, metrics, logging, events and the scaffolding plugin have no state worth proving.
