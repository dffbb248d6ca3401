# Verification of yacd's stateful cores

This project models the parts of yacd (a Kubernetes operator for Cardano development networks, with its
CLI) whose correctness does not show in any single function, and proves what they promise over every
input or every run. Nothing here is executed; `dafny verify dfyconfig.toml` checks all of it.

| modules | part of yacd |
|---|---|
| `Protocol`, `Placement`, `StatusMirror`, `MirrorWitness`, `ManagedPostgres`, `CredentialRace`, `Incumbency`, `Ownership`, `PeerHandoff`, `Decisions`, `WholeReconcile`, `Resolution`, `LaterReconcile`, `HandoffRelease`, `Reconciler` | the CardanoDBSync reconcile protocol |
| `Claims`, `FanOut` | incumbent selection and watch fan-out |
| `Planner`, `Plans`, `PlannedInputs`, `PgPass`, `Material` | the db-sync planner, the password file, the published revision |
| `Tx`, `InputKeys` | the funding-transaction engine |
| `SizeQueue`, `HelmValues`, `Lifecycle`, `Ports` | CLI: terminal sizes, Helm values, devnet lifecycle, port resolution |
| `SlotLength`, `ContainerPaths`, `Localnet` | the localnet planner |
| `Text`, `CommandLine`, `Fingerprints` | Go string operations, reading a command line, fingerprints |

**The protocol.** `Protocol` is a state machine with one action per cluster read, write or decision of a
reconcile and one per thing the user, Kubernetes or the CardanoNetwork controller may do in between. A run
is any sequence of actions. A reconcile may stop after any action, take the blocked path at any point, and
work on an object the user has meanwhile edited; a sidecar may be attached on the strength of an offer the
object made at any time in the past. `Reconciler` is the same reconcile as the controller's sequence of
method calls on live objects, with interference before every call; each call is proved to be one action,
so what holds of every run holds of every sequence of reconciles (`Reconciler.Reconciler.ReconcileAll`).

**Fingerprints.** SHA-256 over JSON is taken to be injective, so a digest is identified with the value it
was computed from (`Digest(x)`); any other text a user may put in its place is `Edited(text)`.

## Where the code and its documentation disagree

- `status.database.acceptedIdentityFingerprint` is documented as a mirror outside the acceptance decisions
  (apply.go:170-173, 247-250). That holds for the identity gate, but the placement gate infers an accepted
  placement as soon as the mirror is non-empty. `StatusMirror.MirrorDecidesPlacementIff` gives the exact
  condition, `MirrorWitness.MirrorEditBlocksTheMove` a run.
- The generated Postgres password is documented as create-once. A user who drops the fingerprint annotation
  before the controller's read and changes the password before its patch gets the new password past every
  check. Of the credentials that pass the Postgres gate, exactly those of sound patches re-derive the accepted
  identity (`ManagedPostgres.GatedPatchIsSoundIff`), and over every run exactly the applies whose last patch
  was sound use the accepted password (`ManagedPostgres.AppliesUseTheAcceptedPasswordIff`).
  `CredentialRace.RaceBreaksCreateOnce` is a run that ends with the changed password in the password file.
- The checks on the generated Secret are documented to prevent accidental adoption (managed_postgres_auth.go:84-99),
  and a foreign Secret that is there when the controller reads is never touched
  (`Ownership.ForeignAuthSecretOutlivesRuns`). The patch names no version of the Secret it read, though: a foreign
  one that takes its place in between is changed exactly if the patch carries an owner, or a fingerprint it lacks
  (`Ownership.SecretsAreLeftAloneIff`, `Ownership.PatchTakesOverAForeignSecret`).
- The conflict message tells a losing sidecar claim to use dedicatedFollower placement, but the handoff check
  waits for any db-sync container in the primary Pod, the incumbent's included
  (`PeerHandoff.ForeignSidecarHoldsDedicatedBack`). The reconcile goes on exactly if no such container is left
  (`HandoffRelease.DedicatedReconcileAppliesIff`); `HandoffRelease.LoserWaitsThenRuns` is the run.
- The transaction validator adds an input once per occurrence (`Tx.LedgerConservationIff`,
  `Tx.DoubledInputIsAccepted`).
- A pgpass line whose host begins with `#` is a comment to libpq (`PgPass.ClientFindsPasswordIff`).
- An Up that stops between creating the cluster and saving the record leaves the next Up with whatever context
  is current by then: Down brings the user's context back exactly if that is still it
  (`Lifecycle.UnsavedUpKeepsTheContextIff`). A context captured by a saving Up comes back exactly if it is not
  the managed one (`Lifecycle.DownRestoresTheContextIff`).
- The CLI's port conflict check does not know the serve port 8090 (`Ports.LocalAgreementIff`,
  `Ports.ServePortIsNotChecked`).
- Folding values files first and merging the result is not merging the files in turn where a file puts a
  leaf over a typed map (`HelmValues.FoldThenMergeIff`, `HelmValues.LeafBetweenMapsDiffers`).
- The localnet planner's normalized spec is documented as the authoritative form (normalize.go:9-11), but
  normalizing it again can change it: a trailing slash hides whitespace from the trimming, so `"/state /"`
  becomes `"/state "` and that becomes `"/state"` (`ContainerPaths.NormalPathNeedNotSettle`). It is stable
  exactly if the last element left of each given path does not end in whitespace
  (`ContainerPaths.NormalPathSettlesIff`, `Localnet.RenormalizingChangesNothingIff`).

## Model

| member | source | states |
|---|---|---|
| `Placement.PlacementExclusion` | internal/controller/cardanodbsync/controller.go:256-446 | from a cluster where the object owns nothing, no run ever has a dedicated db-sync Pod beside a sidecar of the same object, nor sidecars of it in two networks |
| `Placement.RunKeepsLock` | internal/controller/cardanodbsync/apply.go:89-145 | the inductive invariant behind it: the state PVC's annotations are in place before any Deployment or offer, and status, workloads and the reconcile in flight agree with them |
| `Placement.PinIsWriteOnce` | internal/controller/cardanodbsync/resources.go:54-74 | once owned, the state PVC never changes its identity or placement in any run |
| `Placement.IdentityPin` | internal/controller/cardanodbsync/apply.go:174-245 | in every reachable locked state, every next step keeps the PVC, and every config or pgpass it writes, every owned Deployment and every offer carries the pinned identity and placement |
| `Decisions.IdentityGateIff` | internal/controller/cardanodbsync/apply.go:174-207 | the identity gate passes exactly if nothing is stored or the stored identity has the referenced network and every identity input of the spec; any other text is refused |
| `Decisions.PlacementGateIff` | internal/controller/cardanodbsync/apply.go:209-289 | the placement gate passes exactly if no other placement than the wanted one is accepted, by status, by PVC, or, once an identity was accepted, by the workload's shape or the last published placement |
| `Decisions.PostgresGateIff` | internal/controller/cardanodbsync/apply.go:405-467 | the Postgres gate passes an external database, and a managed one exactly if the accepted identity was computed for its image, database, user, Secret and credential |
| `Decisions.WaitingIsReported` | internal/controller/cardanodbsync/status.go:104-319 | a report of waiting or blocking withdraws the offer and keeps what was accepted |
| `Decisions.PendingPostgresIsReported` | internal/controller/cardanodbsync/status.go:104-319 | a report of a Postgres not ready also shows the stored identity and the generated Secret |
| `Decisions.SuccessIsReported` | internal/controller/cardanodbsync/status.go:104-319 | a report of success shows identity, placement and Secret name, and offers a sidecar's material to the network of its spec |
| `Decisions.OfferIsTakenIff` | internal/controller/cardanodbsync/primary_sidecar.go:80-109 | an offer is taken exactly for the network it names, while object and condition are observed at the latest generation |
| `Decisions.SuspensionScalesDown` | internal/controller/cardanodbsync/apply.go:587-624 | suspension scales an owned Deployment to zero, keeps the rest of it, and leaves any other alone |
| `LaterReconcile.SpecChangePassesIff` | internal/controller/cardanodbsync/apply.go:174-245 | in every run, after a state PVC was applied for one spec, a reconcile of another passes the identity gate exactly if network and all other identity inputs agree, and then the placement gate exactly if the placement does |
| `LaterReconcile.DatabaseChangePassesIff` | internal/controller/cardanodbsync/apply.go:405-430 | in every run, with the accepted identity surviving, a reconcile of another managed database passes the Postgres gate exactly if image, database, user, Secret and credential are those of the apply before |
| `LaterReconcile.SpecIsLeftBehind` | internal/controller/cardanodbsync/apply.go:89-168 | an unhindered reconcile leaves every child with the spec's identity inputs and placement, the resolved password in the password file, and Postgres children stamped for this database and credential |
| `LaterReconcile.ReconcileIsIdempotent` | internal/controller/cardanodbsync/controller.go:79-446 | repeating an unhindered reconcile changes neither the object nor its status, its children or the Secrets, in any database mode and either placement |
| `StatusMirror.IdentityGateIgnoresMirror` | internal/controller/cardanodbsync/apply.go:174-207 | whatever text the status mirror holds, the identity gate decides alike and repairs the mirror from the PVC |
| `StatusMirror.PatchesRepairMirror` | internal/controller/cardanodbsync/apply.go:187-199 | in every run, every status patch of a reconcile past the identity gate leaves the pinned identity in the live mirror |
| `StatusMirror.MirrorDecidesPlacementIff` | internal/controller/cardanodbsync/apply.go:258-289 | an edit of the mirror changes the placement decision exactly if nothing is locked, status has no accepted mode, the edit turns empty into non-empty or back, and the inferred mode is not the wanted one |
| `StatusMirror.LegacyStateGoesByItsShape` | internal/controller/cardanodbsync/apply.go:258-289 | state with an identity but no recorded placement is decided by the inferred placement, whatever the mirror says |
| `MirrorWitness.MoveIsAccepted` | internal/controller/cardanodbsync/apply.go:278-287 | a fresh object reported once as dedicated may move to sidecar placement |
| `MirrorWitness.MirrorEditBlocksTheMove` | internal/controller/cardanodbsync/apply.go:278-289 | with any text written into the mirror the same move is refused |
| `ManagedPostgres.AcceptedIsTheStamp` | internal/controller/cardanodbsync/apply.go:432-467 | in reachable states the accepted Postgres identity, whichever child it is read from, is the one stamp all owned children carry, and it is empty exactly when none is owned |
| `ManagedPostgres.CreateOnce` | internal/controller/cardanodbsync/managed_postgres_auth.go:84-177 | while a child carrying the accepted identity survives, the identity never changes and no password is generated, whatever happens to the Secret |
| `ManagedPostgres.GatedPatchIsSoundIff` | internal/controller/cardanodbsync/managed_postgres_auth.go:152-241 | a patched credential that passes the Postgres gate over an accepted identity re-derives that identity exactly if the live Secret met a stated condition when the patch arrived |
| `ManagedPostgres.AppliesUseTheAcceptedPasswordIff` | internal/controller/cardanodbsync/apply.go:410-430 | every apply of every run has a usable password; the identity re-derived from it is the accepted one exactly if the run's last patch was sound; and the password file holds that password |
| `ManagedPostgres.PasswordNeverChangesIff` | internal/controller/cardanodbsync/postgres_identity.go:56-128 | two applies of one run, with the accepted identity surviving in between and the first patch sound, use the same password exactly if the later patch was sound, and then the same image, database and user |
| `ManagedPostgres.RestoredSecretIsAdoptedIff` | internal/controller/cardanodbsync/managed_postgres_auth.go:179-222 | in every run, a generated Secret put back without an owner is taken back and passes the Postgres gate exactly if it holds the password of an apply since when the identity survived and the spec asks for the same image, database and user; otherwise it is left as it is |
| `Resolution.ResolvesIff` | internal/controller/cardanodbsync/database.go:50-164 | for each of the three database modes, a reconcile left to itself resolves its database exactly if the placement is let through and the state has a usable password for it, then with that password, and on the generated path under that password's fingerprint; otherwise it is blocked and no password is touched |
| `Resolution.OwnedSecretIsReadIff` | internal/controller/cardanodbsync/managed_postgres_auth.go:152-177 | an owned generated Secret is read on exactly if it carries no fingerprint or its own password's |
| `Resolution.PatchResolvesIff` | internal/controller/cardanodbsync/managed_postgres_auth.go:224-241 | what the patch leaves in whatever the live Secret has become, and when the reconcile goes on with it |
| `CredentialRace.EditedPasswordPassesTheGate` | internal/controller/cardanodbsync/managed_postgres_auth.go:152-177 | with the annotation dropped before the read and the password changed before the patch, the Postgres gate passes with the changed password |
| `CredentialRace.RaceBreaksCreateOnce` | internal/controller/cardanodbsync/managed_postgres_auth.go:100-241 | a run from an empty cluster in which two edits of the Secret end with the changed password in the applied password file, beside Postgres children stamped for the original one |
| `Incumbency.OnlyIncumbentsPublish` | internal/controller/cardanodbsync/placement.go:16-45 | in every run in which the placement check never finds the object to be the incumbent, it never offers material to any network |
| `WholeReconcile.IncumbentPublishesIff` | internal/controller/cardanodbsync/primary_sidecar.go:80-109 | the converse: an object that does not offer its material does after a reconcile left to itself exactly if it asked for a sidecar, was the incumbent and nothing hindered it |
| `Incumbency.SuspendedStaysDown` | internal/controller/cardanodbsync/apply.go:587-624 | once a degraded reconcile suspended the workload and its Pods stopped, no run starts one again before a Deployment apply or a user's scaling |
| `PeerHandoff.ForeignSidecarHoldsDedicatedBack` | internal/controller/cardanodbsync/placement_handoff.go:44-76 | while a peer's sidecar stays attached to the network, no run gets a dedicated follower past the handoff |
| `PeerHandoff.DedicatedAppliesOnlyAfterRelease` | internal/controller/cardanodbsync/placement_handoff.go:44-76 | in every run, with any interference, where a dedicated reconcile may apply anything its handoff check found no db-sync container of its network |
| `WholeReconcile.ReconcileAppliesIff` | internal/controller/cardanodbsync/controller.go:79-446 | a reconcile left to itself, of either placement and any database mode, gets to its last apply exactly if it resolves its database, the gates pass, the other placement's Pods are gone, a managed Postgres is ready and no foreign child is in its way; otherwise it has stopped |
| `WholeReconcile.AppliedAsAsked` | internal/controller/cardanodbsync/apply.go:89-168 | what stands then is what the spec asks for: every child with its identity, placement and password, and the object untouched |
| `HandoffRelease.DedicatedReconcileAppliesIff` | internal/controller/cardanodbsync/placement_handoff.go:44-76 | in every reachable state, whatever the database mode and whatever was accepted, a dedicated reconcile left to itself applies its Deployment exactly if nothing else hinders it and no sidecar of its network is left; where only a sidecar hinders it, it waits and applies nothing |
| `HandoffRelease.LockedSpecPassesGatesIff` | internal/controller/cardanodbsync/apply.go:170-245 | in every reachable state an object locked to what its spec asks for passes the gates exactly if a managed Postgres does |
| `HandoffRelease.LoserWaitsThenRuns` | internal/controller/cardanodbsync/placement_handoff.go:21-76 | a run in which a losing sidecar claim moves to dedicated, waits for the incumbent's sidecar, and has its Deployment applied by the first reconcile after the sidecar went |
| `Ownership.ForeignChildrenAreLeftAlone` | internal/ctrlkit/apply/apply.go:65-155 | no controller step changes a PVC, Deployment, ConfigMap or password Secret of another owner; an apply that meets one only goes onto the blocked path |
| `Ownership.SecretsAreLeftAloneIff` | internal/controller/cardanodbsync/managed_postgres_auth.go:84-241 | no controller step changes a Secret under another name, and a foreign auth Secret is changed exactly by a patch under way that was meant for a Secret without an owner or without the fingerprint |
| `Ownership.ForeignAuthSecretOutlivesRuns` | internal/controller/cardanodbsync/managed_postgres_auth.go:145-150 | a foreign auth Secret in place while no patch is under way is the same after every run in which the user leaves it there |
| `Ownership.PatchTakesOverAForeignSecret` | internal/controller/cardanodbsync/managed_postgres_auth.go:214-241 | a run in which another owner's Secret takes the place of the one read and becomes the controller's |
| `Reconciler.Reconciler.ReconcileAll` | internal/controller/cardanodbsync/controller.go:79-446 | after any sequence of reconciles placement exclusion holds and an owned state PVC is unchanged |
| `Reconciler.Reconciler.Reconcile` | internal/controller/cardanodbsync/controller.go:79-169 | one reconcile, selection of the incumbent included, with failures and interference anywhere, is a run of protocol steps; success leaves status and state PVC saying what was asked for |
| `Reconciler.Reconciler.ReconcileWorkloads` | internal/controller/cardanodbsync/controller.go:256-446 | gates, handoff, Postgres, material, workload and report in the source's order are a run of protocol steps, each call enabled where it is made; success leaves status and state PVC saying what was asked for |
| `Reconciler.Reconciler.HandOff` | internal/controller/cardanodbsync/controller.go:297-306 | the handoff of either placement is a run of protocol steps ending past the handoff or idle |
| `Reconciler.Reconciler.ReconcileManagedPostgresResources` | internal/controller/cardanodbsync/controller.go:307-322 | the Postgres bundle and its pending report are a run of protocol steps |
| `Reconciler.Reconciler.Publish` | internal/controller/cardanodbsync/status.go:104-319 | when the applied status is written, status and state PVC both carry the reconcile's identity and placement |
| `Reconciler.Reconciler.ReconcilePlacement` | internal/controller/cardanodbsync/placement.go:20-54 | refines the protocol's placement check, given the outcome of the selection |
| `Reconciler.Reconciler.AcceptedManagedPostgresIdentity` | internal/controller/cardanodbsync/apply.go:432-467 | the three-place lookup returns the protocol's accepted identity |
| `Reconciler.Reconciler.ValidateAcceptedManagedPostgresIdentity` | internal/controller/cardanodbsync/apply.go:405-430 | performs the Postgres gate |
| `Reconciler.Reconciler.ValidateAcceptedDBSyncDatabaseIdentity` | internal/controller/cardanodbsync/apply.go:170-207 | performs the identity gate, repairing the in-memory status in place |
| `Reconciler.Reconciler.CurrentAcceptedDBSyncPlacementMode` | internal/controller/cardanodbsync/apply.go:258-363 | status, PVC, then inference return the protocol's accepted mode |
| `Reconciler.Reconciler.ValidateAcceptedDBSyncPlacementMode` | internal/controller/cardanodbsync/apply.go:209-245 | performs the placement gate, filling the in-memory status in place |
| `Reconciler.ValidateExternalDatabaseSecret` | internal/controller/cardanodbsync/controller.go:626-674 | returns the password under the key of a live referenced Secret, and nothing for an incomplete reference or an unusable Secret |
| `Reconciler.Reconciler.ResolveExternalDatabase` | internal/controller/cardanodbsync/database.go:73-94 | uses the validated password or blocks |
| `Reconciler.Reconciler.ValidateProvidedManagedPostgresAuthSecret` | internal/controller/cardanodbsync/managed_postgres_auth.go:26-65 | uses the provided Secret, or blocks on a blank name, a missing, deleting or unusable Secret |
| `Reconciler.Reconciler.AdoptRestoredManagedPostgresAuthSecret` | internal/controller/cardanodbsync/managed_postgres_auth.go:182-212 | goes on to the patch or blocks, as the protocol's step |
| `Reconciler.Reconciler.EnsureManagedPostgresAuthSecret` | internal/controller/cardanodbsync/managed_postgres_auth.go:100-170 | creates, adopts, goes on or refuses, as the protocol's step |
| `Reconciler.Reconciler.PatchManagedPostgresAuthSecret` | internal/controller/cardanodbsync/managed_postgres_auth.go:224-241 | writes only when the wanted metadata differs; the stored Secret keeps its data and takes only what differs; the reply becomes the Secret in use |
| `Reconciler.Reconciler.SuspendDBSyncDeploymentIfOwned` | internal/controller/cardanodbsync/apply.go:587-624 | scales an owned Deployment to zero and leaves any other alone |
| `Reconciler.Reconciler.ApplyManagedPostgresPVC` | internal/controller/cardanodbsync/apply.go:157-160 | a foreign PVC blocks, anything else takes the desired identity |
| `Reconciler.Reconciler.ApplyManagedPostgresDeployment` | internal/controller/cardanodbsync/apply.go:165-167 | a foreign Deployment blocks, anything else takes the desired identity |
| `Reconciler.Reconciler.ApplyDBSyncConfigMap` | internal/controller/cardanodbsync/apply.go:96-99 | a foreign ConfigMap blocks, anything else takes identity and placement |
| `Reconciler.Reconciler.ApplyDBSyncPGPassSecret` | internal/controller/cardanodbsync/apply.go:100-103 | a foreign Secret blocks, anything else takes identity, placement and the resolved password |
| `Reconciler.Reconciler.ApplyDBSyncStatePVC` | internal/controller/cardanodbsync/apply.go:104-107 | a foreign PVC blocks, anything else takes identity and placement |
| `Reconciler.Reconciler.ApplyDBSyncDeployment` | internal/controller/cardanodbsync/apply.go:112-115 | a foreign Deployment blocks, anything else runs one replica with the identity |
| `Claims.OrderIsStrictAndTotal` | internal/controller/cardanodbsync/placement_claims.go:48-59 | the order is asymmetric, irreflexive, and total on claims of distinct namespace/name |
| `Claims.OrderIsTransitive` | internal/controller/cardanodbsync/placement_claims.go:48-59 | the order is transitive |
| `Text.PrefixIsLess` | internal/controller/cardanodbsync/placement_claims.go:48-59 | in the order of strings a proper prefix comes first |
| `Text.FirstDifferenceDecides` | internal/controller/cardanodbsync/placement_claims.go:48-59 | and otherwise the first difference decides |
| `Claims.SelectPrimarySidecarClaim` | internal/controller/cardanodbsync/placement_claims.go:26-46 | the incumbent precedes every other claim, and the conflict keys are exactly those of the others |
| `Claims.IncumbentIsOldest` | internal/controller/cardanodbsync/placement_claims.go:21-25 | the incumbent is the oldest claim, ties broken by UID, then namespace, then name |
| `Claims.SelectionIgnoresOrder` | internal/controller/cardanodbsync/placement_claims.go:21-25 | incumbent and conflict keys depend only on the set of claims |
| `Claims.ExactlyOnePasses` | internal/controller/cardanodbsync/placement.go:32-45 | of a non-empty list exactly one claim passes the placement gate |
| `Claims.LaterClaimKeepsIncumbent` | internal/controller/cardanodbsync/placement_claims.go:24-25 | a claim later in the order never displaces the incumbent |
| `FanOut.PassesPlacement` | internal/controller/cardanodbsync/placement.go:31-47 | listing, selection and comparison pass a claim exactly if there is no claim or it is the first of those on the network |
| `FanOut.AtMostOneClaimPasses` | internal/controller/cardanodbsync/placement.go:31-47 | of two live claims on a network at most one passes, whatever the order of their lists |
| `FanOut.PrimarySidecarClaims` | internal/controller/cardanodbsync/placement.go:58-86 | returns exactly the live sidecar claims on the network |
| `FanOut.EnqueuePlacementPeers` | internal/controller/cardanodbsync/controller.go:582-612 | enqueues exactly the live claims on the object's network, if the object asks for a sidecar |
| `FanOut.HandlePlacementEvent` | internal/controller/cardanodbsync/controller.go:560-578 | enqueues the claims on the networks of both versions, and nothing for an unchanged generation |
| `FanOut.ChangedClaimSetTriggers` | internal/controller/cardanodbsync/controller.go:556-578 | an event that changes a network's claim set triggers the fan-out for that network |
| `FanOut.IncumbentIsEnqueued` | internal/controller/cardanodbsync/controller.go:560-612 | after such an event every claim on the network is enqueued, the incumbent included |
| `FanOut.DBSyncsForDatabaseSecret` | internal/controller/cardanodbsync/controller.go:706-745 | requests every object of the namespace whose reconcile reads the Secret, and, unless the name is blank, only such objects and those with both database modes |
| `FanOut.IndexesCoverReads` | internal/controller/cardanodbsync/controller.go:483-507 | the indexes hold every Secret resolveDatabase reads, and for one-mode objects nothing else but a provided name of blanks |
| `Planner.CollectTrimmed` | internal/cardano/dbsync/normalize.go:115-132 | the loop returns the trimmed non-blank strings in order |
| `Text.TrimSpaceIsTheCore` | internal/cardano/dbsync/normalize.go:9-31 | what `strings.TrimSpace` cuts off at either end is whitespace |
| `Text.SpacesAre` | internal/cardano/dbsync/normalize.go:9-31 | whitespace is the 25 code points of Unicode's White_Space |
| `Planner.ValidateSpec` | internal/cardano/dbsync/validate.go:7-50 | reports every violation and nothing else |
| `Planner.NormalizeSpec` | internal/cardano/dbsync/normalize.go:8-111 | returns the normal form if it is acceptable, else exactly its violations |
| `Planner.NormalIdempotent` | internal/cardano/dbsync/normalize.go:8-142 | a normal form is its own normal form |
| `Planner.PaddingIsIgnored` | internal/cardano/dbsync/normalize.go:9-31 | whitespace around any trimmed field leaves the normal form unchanged |
| `PlannedInputs.NamesAreGiven` | internal/cardano/dbsync/normalize.go:9-31 | names, artifact hash, image and node host are the trimmed given ones |
| `PlannedInputs.DatabaseIsGiven` | internal/cardano/dbsync/normalize.go:43-57 | each database field is the trimmed given one or, if blank, the documented default; the port likewise for zero |
| `PlannedInputs.RuntimeAndStorageAreGiven` | internal/cardano/dbsync/normalize.go:58-69 | the same for metrics port, ledger backend, snapshot interval and storage size |
| `PlannedInputs.InsertIsGiven` | internal/cardano/dbsync/normalize.go:35-96 | the same for every insert option; features are kept, or all on where no option is set |
| `PlannedInputs.PathsAreGiven` | internal/cardano/dbsync/normalize.go:98-104 | the same for every path |
| `PlannedInputs.GatewaysAreGiven` | internal/cardano/dbsync/normalize.go:115-132 | gateways one by one: trimmed, blanks dropped, in order |
| `PlannedInputs.DatabaseViolationsOfTheGiven` | internal/cardano/dbsync/validate.go:7-50 | which database fields of a given spec are refused; a field with a default never is |
| `PlannedInputs.ViolationsOfTheGiven` | internal/cardano/dbsync/validate.go:7-50 | which other fields are |
| `PlannedInputs.FilesSayTheGiven` | internal/cardano/dbsync/config.go:134-183 | configuration and topology say the given fields, one by one |
| `PlannedInputs.IdentitySaysTheGiven` | internal/cardano/dbsync/fingerprint.go:96-141 | the database identity says the given fields, one by one |
| `Plans.BuildInvocation` | internal/cardano/dbsync/plan.go:46-63 | the argument list is the fixed part and the flags in order |
| `Plans.ArgumentsInjective` | internal/cardano/dbsync/plan.go:46-63 | equal argument lists come from equal paths and flags |
| `PlannedInputs.ArgumentsAreRead` | internal/cardano/dbsync/plan.go:46-63 | reading the argument list as options and switches gives back the two paths, the password variable and exactly the switches set |
| `Plans.BuildPlan` | internal/cardano/dbsync/plan.go:7-40 | returns the plan of the normal form, or exactly its violations |
| `Plans.ReplanningIsStable` | internal/cardano/dbsync/plan.go:7-40 | planning an accepted plan's spec is accepted and gives the same plan |
| `Plans.PaddingKeepsThePlan` | internal/cardano/dbsync/normalize.go:9-11 | whitespace around the trimmed fields changes neither acceptance nor any part of the plan |
| `Plans.StorageSizeTextIsFingerprinted` | internal/cardano/dbsync/normalize.go:67-69 | another state storage size text changes the plan fingerprint unless both are blank or equal, and nothing else |
| `PgPass.EscapeFieldIsOnePass` | internal/controller/cardanodbsync/resources.go:222-227 | the two chained replacements are a single-pass escape |
| `PgPass.RenderOfFive` | internal/controller/cardanodbsync/resources.go:197-217 | the line is the five escaped fields in order, joined by colons and ended by a line feed |
| `PgPass.PgPassFile` | internal/controller/cardanodbsync/resources.go:192-218 | refuses a missing password and the first field with a line break, and renders anything else |
| `PgPass.FieldsOfJoined` | internal/controller/cardanodbsync/resources.go:209-217 | splitting a rendered line by the format's rules gives back exactly the values |
| `PgPass.RenderInjective` | internal/controller/cardanodbsync/resources.go:183-187 | equal files come from equal values |
| `PgPass.ClientFindsPasswordIff` | internal/controller/cardanodbsync/resources.go:189-218 | a libpq lookup with the rendered endpoint finds the password exactly if the host does not begin with `#` |
| `Material.RenderPgPass` | internal/controller/cardanodbsync/resources.go:192-197 | renders the plan's endpoint with the Secret's password under the plan's key |
| `Material.BuildPrimarySidecarMaterial` | internal/controller/cardanodbsync/builder.go:286-398 | a bundle is built exactly for the requests of a declarative predicate; it is rendered from the normal form and the Secret's password, and its db-sync listens on a port that no container of the primary Pod owns |
| `Material.PlanSaysTheRequest` | internal/controller/cardanodbsync/builder.go:354-398 | the plan has the request's image, artifacts, endpoint and metrics port, requires the magic, and takes the rest from the copied inputs |
| `Material.RevisionIsComplete` | internal/controller/cardanodbsync/primary_sidecar_status.go:60-96 | two published revisions are equal exactly if names, artifacts, normalized spec and password are, and then all mounted files are |
| `Material.IdentityPinsTheMountedEndpoint` | internal/cardano/dbsync/fingerprint.go:96-141 | two bundles of one database identity feed the database alike, and their password files are equal exactly if their passwords are |
| `Material.MountedFilesPinTheirInputs` | internal/cardano/dbsync/config.go:134-183 | the mounted files of two bundles are equal exactly if password, endpoint and the named plan inputs are, and bundles with equal configuration and password file have one identity exactly if image and network artifacts agree |
| `Material.SidecarFindsItsPasswordIff` | internal/controller/cardanodbsync/resources.go:150-187 | the sidecar's client finds the password in the mounted file exactly if the host does not begin with `#` |
| `Tx.FilterExcludedUTxOs` | internal/cardano/tx/apollo.go:204-230 | keeps, in order, the UTxOs whose lower-cased key is not among the trimmed lower-cased exclusions |
| `Tx.KeptIsTheRest` | internal/cardano/tx/apollo.go:221-229 | a UTxO is kept exactly if its key is not excluded |
| `Tx.InputKeyInjective` | internal/cardano/tx/apollo.go:345-347 | inputs with equal keys, up to case, are equal |
| `InputKeys.KeyDenotesIff` | internal/cardano/tx/apollo.go:345-347 | the computed key is the only text that spells the transaction id in hexadecimal digits, a colon, and the index in decimal |
| `Text.DigitsAre` | internal/cardano/tx/apollo.go:345-347 | each decimal digit is printed as itself |
| `InputKeys.FoundIff` | internal/cardano/tx/apollo.go:255-287 | an input is found exactly if some UTxO's key denotes it, and is worth what the last such UTxO is |
| `Tx.AddInputs` | internal/cardano/tx/apollo.go:277-287 | fails exactly on a non-source input, else returns the wrapped total |
| `Tx.AddOutputs` | internal/cardano/tx/apollo.go:288-314 | fails exactly on an output out of order, with a reason that is there, else returns wrapped change and payment count |
| `Tx.ValidateTransaction` | internal/cardano/tx/apollo.go:232-334 | accepts exactly the transactions of the declarative predicate, and a refusal names a real violation |
| `InputKeys.AcceptsIff` | internal/cardano/tx/apollo.go:232-334 | what is accepted, without the loops: fee and amount in bounds, every UTxO at the source, every input held by one, exactly one payment as asked for, and plain sums of worth and change that balance modulo 2^64 |
| `Tx.AcceptedPaysOnce` | internal/cardano/tx/apollo.go:288-321 | an accepted transaction has one non-change output, to the destination, of the exact amount, without assets |
| `Tx.ConservationModulo` | internal/cardano/tx/apollo.go:322-331 | inputs equal outputs plus fee modulo 2^64 |
| `Tx.ConservationIff` | internal/cardano/tx/apollo.go:274-331 | they are equal exactly if the source's true loss fits an int64 |
| `Tx.ConservationOfRealAmounts` | internal/cardano/tx/apollo.go:274-331 | they are equal for non-negative amounts whose totals fit |
| `Tx.LedgerConservationIff` | internal/cardano/tx/apollo.go:277-287 | counting each input once they are equal exactly if repeated occurrences are worth nothing, as when none is repeated |
| `Tx.DoubledInputIsAccepted` | internal/cardano/tx/apollo.go:277-287 | a transaction that doubles an input and pays twice its worth is accepted |
| `Tx.SpentInputKeys` | internal/cardano/tx/apollo.go:336-343 | returns the keys of the inputs in order |
| `InputKeys.SpentKeysDenote` | internal/cardano/tx/apollo.go:336-347 | the reported keys denote the inputs one by one |
| `InputKeys.ExcludedIff` | internal/cardano/tx/apollo.go:209-216 | exactly the listed keys are excluded, trimmed, in lower case, and blanks apart |
| `Text.LettersAreLowered` | internal/cardano/tx/apollo.go:209-222 | lower-casing turns each of the 26 letters into its lower-case one and keeps every other character |
| `InputKeys.KeptOneByOne` | internal/cardano/tx/apollo.go:221-229 | UTxOs are left out one by one and the others keep their order |
| `Tx.Submit` | internal/cardano/tx/apollo.go:56-195 | a signed transaction goes out exactly if the request is valid, the chain answers and the built transaction is accepted over the filtered UTxOs; it succeeds exactly if the node then takes it, and reports the keys spent |
| `Tx.ReportedKeysAreListed` | internal/cardano/tx/tx.go:42-53 | keys excluded as they were reported are matched by the filter |
| `Tx.NoUTxOReuse` | internal/cardano/tx/apollo.go:204-230 | in any run of successful submissions that exclude all earlier spent keys no two share an input, not even up to case |
| `SizeQueue.NewestWins` | cli/internal/cli/exec.go:241-263 | in every interleaving the last default branch is never taken, deliveries are an in-order subsequence, and between refreshes the newest size is pending or was delivered last |
| `SizeQueue.TakingCatchesUp` | cli/internal/cli/exec.go:231-239 | one receive between refreshes leaves the consumer with the newest size |
| `SizeQueue.SizeStaysUntilTaken` | cli/internal/cli/exec.go:231-263 | a size in the channel stays there until it is drained or taken, and only taking delivers it |
| `SizeQueue.RefreshNeverBlocks` | cli/internal/cli/exec.go:241-263 | whatever the channel holds, refresh's next operation can be taken and brings it nearer to its return; the consumer cannot send it back |
| `SizeQueue.ClampDimension` | cli/internal/cli/exec.go:269-280 | in-range values are kept, others go to the nearer bound |
| `SizeQueue.TerminalSizeQueue.Next` | cli/internal/cli/exec.go:231-239 | returns the pending size, or the end of the stream only once closed, and waits exactly if there is neither |
| `SizeQueue.TerminalSizeQueue.CloseQueue` | cli/internal/cli/exec.go:265-267 | closes once and leaves the sizes alone |
| `SizeQueue.TerminalSizeQueue.Refresh` | cli/internal/cli/exec.go:241-263 | with the consumer running between any two channel operations, the size read is pending or delivered last on return |
| `HelmValues.MergeValues` | cli/internal/operator/values.go:106-118 | taking the keys in any order computes the merge of the two trees |
| `HelmValues.MergedAt` | cli/internal/operator/values.go:106-118 | what is at every path of a merged tree |
| `HelmValues.LaterLeafWins` | cli/internal/operator/values.go:106-107 | every leaf of the later layer arrives |
| `HelmValues.EarlierLeafKeptIff` | cli/internal/operator/values.go:106-118 | an earlier leaf is kept exactly if the later layer has nothing at its path and no leaf above it, or repeats it |
| `HelmValues.MergeAssociatesIff` | cli/internal/cli/install_values.go:58-72 | merging is associative exactly where no leaf of the middle layer hides a map of the base from a map of the last that does not cover it |
| `HelmValues.FoldThenMergeIff` | cli/internal/cli/install_values.go:25-38 | for any number of files, folding them and merging over the typed fields is merging them in turn exactly if no file's leaf hides a typed map under a merged map that does not give all its keys back |
| `HelmValues.FoldThenMerge` | cli/internal/cli/install_values.go:25-38 | in particular if no file has a leaf where the typed fields have a map |
| `HelmValues.LeafBetweenMapsDiffers` | cli/internal/cli/install_values.go:58-72 | where one has, the hidden typed entry comes back |
| `HelmValues.BuildUserOverrides` | cli/internal/cli/install_values.go:25-56 | the files are folded in order, then the two kinds of lines are written in; it fails exactly if a file or a line does, and returns nothing for an empty tree |
| `HelmValues.EarlierFileStays` | cli/internal/cli/install_values.go:28-38 | a leaf of any file arrives as long as no later file has something at its path or a leaf above it |
| `HelmValues.FlagsInOrder` | cli/internal/cli/install_values.go:39-50 | the `--set` lines see the folded files, the `--set-string` lines what those leave, each in the order given |
| `HelmValues.ToHelmValues` | cli/internal/operator/values.go:76-104 | the overrides merged over the typed fields |
| `HelmValues.TypedFieldsAre` | cli/internal/operator/values.go:28-101 | the typed tree at every path: exactly the fields that are set, each under its chart name |
| `HelmValues.FieldSurvivesIff` | cli/internal/operator/values.go:73-104 | each typed field reaches the chart exactly if the extra values have nothing at its path and no leaf above it, or the same there |
| `HelmValues.PinnedRepositorySurvivesIff` | cli/internal/operator/values.go:73-104 | the pinned image repository survives exactly if no override leaf is at or above it, save the same one |
| `Lifecycle.Manager.Up` | cli/internal/lifecycle/manager.go:38-85 | Up changes contexts and record exactly as specified and releases the lock on every path |
| `Lifecycle.Manager.Down` | cli/internal/lifecycle/manager.go:194-245 | Down restores and clears exactly as specified and releases the lock on every path |
| `Lifecycle.Manager.NewRecord` | cli/internal/lifecycle/manager.go:164-189 | keeps a real recorded prior context, never takes the managed one |
| `Lifecycle.RecordNeverNamesManagedContext` | cli/internal/lifecycle/manager.go:169-180 | in every sequence of events no saved record names the managed context as prior |
| `Lifecycle.PriorContextIsSticky` | cli/internal/lifecycle/manager.go:177-180 | a saved real prior context outlives everything but a clearing Down |
| `Lifecycle.RecordNamesTheFirstReal` | cli/internal/lifecycle/manager.go:164-189 | in every run without a clearing Down the record names exactly the first real context that a saving Up captured |
| `Lifecycle.DownRestoresTheFirstReal` | cli/internal/lifecycle/manager.go:223-242 | a Down that goes through puts that context back into the record's kubeconfig and clears the record |
| `Lifecycle.RecordIsOfTheLastUp` | cli/internal/lifecycle/manager.go:164-189 | in every run cluster name, context, kubeconfig path and version of the record are the last saving Up's |
| `Lifecycle.DownRestoresIntoTheKubeconfig` | cli/internal/lifecycle/manager.go:223-242 | the restored context goes into the kubeconfig file that Up reported, or into the ambient one |
| `Lifecycle.DownRestoresTheContextIff` | cli/internal/lifecycle/manager.go:223-242 | what the first saving Up captured comes back exactly if it was not the managed context and, where nothing was current, no later saving Up captured a real one |
| `Lifecycle.UnsavedUpKeepsTheContextIff` | cli/internal/lifecycle/manager.go:55-85 | after an Up that did not save, the next saving Up and Down bring the user's context back exactly if it was still current, and clear it if the managed one was |
| `SlotLength.SlotLengthRoundTrip` | internal/cardano/localnet/invocation.go:28-42 | parsing the printed seconds gives the duration back, and no fractional zero trails |
| `SlotLength.FormatSlotLengthInjective` | internal/cardano/localnet/invocation.go:31-42 | different durations are printed differently |
| `ContainerPaths.CleanIdempotent` | internal/cardano/localnet/normalize.go:63-70 | a cleaned rooted path is clean and consists of proper elements |
| `ContainerPaths.JoinAppends` | internal/cardano/localnet/plan.go:42-47 | joining a name to a rooted directory appends it as the last element |
| `ContainerPaths.DotsAreResolved` | internal/cardano/localnet/normalize.go:63-70 | "." stays in a directory, ".." leaves it for its parent, the root being its own |
| `ContainerPaths.RootAndParent` | internal/cardano/localnet/normalize.go:63-70 | the root is the empty path, and the parent of a joined path is the directory |
| `ContainerPaths.NormalPathSettlesIff` | internal/cardano/localnet/normalize.go:61-70 | normalizing a path again changes nothing exactly if the last element left of the given path does not end in whitespace |
| `ContainerPaths.TrailingSlashHidesWhitespace` | internal/cardano/localnet/normalize.go:63-70 | for every proper word, the path with a blank and a slash after it normalizes to one that normalizes further |
| `ContainerPaths.NormalPathNeedNotSettle` | internal/cardano/localnet/normalize.go:63-70 | `"/state /"` normalizes to `"/state "`, and that to `"/state"` |
| `Localnet.AcceptedIff` | internal/cardano/localnet/normalize.go:12-59 | which given fields are accepted: rooted paths, no negative number, no blank binary; zero and the empty string stand for defaults |
| `Localnet.NormalFormGuarantees` | internal/cardano/localnet/normalize.go:9-11 | an accepted spec is valid, with a positive magic, two clean paths of proper elements, and a trimmed binary and version |
| `Localnet.NormalFormIsGiven` | internal/cardano/localnet/normalize.go:12-59 | the normal form field by field of the given spec, defaults included |
| `Localnet.RenormalizingChangesNothingIff` | internal/cardano/localnet/normalize.go:9-59 | it is its own normal form exactly if neither given path leaves whitespace at the end of its last element; the default env dir never does |
| `Localnet.NormalizeSpec` | internal/cardano/localnet/normalize.go:12-59 | the field-by-field assignments compute that normal form, or the first error |
| `Localnet.BuildPlan` | internal/cardano/localnet/plan.go:17-54 | returns the plan of the normal form, or its error |
| `Localnet.PlanSaysTheSpec` | internal/cardano/localnet/plan.go:17-54 | manifest, command and fingerprint say the normal form, the slot length reading back as its nanoseconds |
| `Localnet.ArgumentsAreRead` | internal/cardano/localnet/invocation.go:14-26 | reading the create-env arguments as options gives back pool count, magic, epoch length, slot length and env dir as numbers and text |
| `Localnet.FilesLieInTheEnvDir` | internal/cardano/localnet/plan.go:42-47 | config and manifest file lie directly in the env dir |
| `Localnet.FingerprintIff` | internal/cardano/localnet/plan.go:17-36 | two accepted inputs plan to equal fingerprints exactly if, after defaults and trimming, magic, pools, epoch length, slot duration and version agree and the env dirs have the same elements |
| `Localnet.FingerprintPinsInvocation` | internal/cardano/localnet/invocation.go:14-26 | two accepted inputs plan to equal fingerprints exactly if their create-env arguments and tool versions are equal |
| `Localnet.SpellingIsIgnored` | internal/cardano/localnet/normalize.go:15-56 | whitespace around given paths and the version, and zero for a default, give the same plan or error |
| `Ports.ResolveChainAPI` | cli/internal/devconfig/runtime_support.go:117-143 | returns the resolved settings, and fails only if there are none |
| `Ports.ValidatePortConflicts` | cli/internal/devconfig/runtime_support.go:228-249 | accepts exactly pairwise different ports in use |
| `Ports.ValidateRuntimeSupport` | cli/internal/devconfig/runtime_support.go:45-115 | returns an accepted resolution, and fails only if there is none or one of the checks that do not look at ports does |
| `Ports.PortOwners` | internal/cardano/primarypod/primarypod.go:100-120 | fills the owner map, later components winning |
| `Ports.AgreeOnComponents` | internal/cardano/primarypod/primarypod.go:122-164 | both sides default alike, but for Kupo on public networks that do not mention it |
| `Ports.LocalAgreementIff` | cli/internal/devconfig/runtime_support.go:228-249 | on an accepted local spec every component owns its own port and nothing else is owned exactly if no port in use is 8090 |
| `Ports.ServePortIsNotChecked` | cli/internal/devconfig/runtime_support.go:228-249 | a local network with node port 8090 is accepted, and the Pod gives that port to the serve component |
| `Ports.OwnersCoverUsedPorts` | internal/cardano/primarypod/primarypod.go:97-120 | every port in use is owned, on public networks too |
| `Ports.SidecarPortsAreDistinct` | internal/controller/cardanodbsync/primary_sidecar.go:191-229 | an accepted sidecar leaves all ports of the local Pod pairwise different |
| `Ports.SidecarIsAcceptedIff` | internal/controller/cardanodbsync/primary_sidecar.go:191-229 | a sidecar is accepted exactly on a local, preview or preprod network with a metrics port no component listens on |
| `Ports.SidecarPortIsFree` | internal/controller/cardanodbsync/primary_sidecar.go:216-226 | an accepted sidecar's port is used by no container, on public networks too |

## Left out

- Kubernetes client caching, server-side apply internals and Pod-controller lag: reads and writes are atomic, and a dedicated Pod starts only while an owned Deployment asks for replicas.
- Deleting the state PVC, hand-editing `status.database.acceptedPlacementMode` or the PVC annotations: the lock argument of the code assumes that nobody does.
- Reconcile runs one at a time per object, as controller-runtime guarantees; the CardanoNetwork controller appears only as attaching a sidecar for an offer made at some time.
- A status patch reads the live object and then patches it; the two are one step here, which leaves out an edit that falls in between.
- Status conditions other than SidecarMaterialReady, Services, the follower PVC, the metrics endpoint and the runtime probe: no modelled decision reads them.
- The readiness checks of the referenced network (controller.go:118-169, 222-249): they only send the reconcile onto the blocked path, which it may take at any point.
- Reconciler.Reconciler.ReconcilePlacement: takes the outcome of the selection, which `Reconcile` computes with `FanOut.PassesPlacement`.
- Reconciler.Reconciler.ResolveExternalDatabase: takes the outcome of `Reconciler.ValidateExternalDatabaseSecret`, which `Reconcile` calls before it.
- Reconciler.Reconciler.Reconcile: the lookups and readiness checks of the referenced network are one flag, since they only send the reconcile onto the blocked path.
- WholeReconcile.IncumbentPublishesIff: the checks that the published revision and resource names are not empty are not modelled; the controller always fills them.
- The random password is an input; that two random passwords differ is not assumed.
- Nil and empty lists in the database identity hash to different bytes (fingerprint.go:82-92); lists are sequences here, so empty lists are taken to be nil throughout.
- The constant parts of the rendered db-sync configuration and the YAML and JSON encodings.
- PgPass.ClientFindsPasswordIff: the wildcard `*` is recognized after unescaping; the renderer never escapes a `*`.
- HelmValues.MergeValues: nested maps are values, so sharing of sub-maps between layers after an in-place merge is not captured.
- HelmValues.BuildUserOverrides: the YAML reader and the parser of `--set` and `--set-string` lines are inputs, a line being any function on the tree that may refuse.
- Tx.Submit: what the chain client, the builder and the address and key checks answer are arbitrary inputs; signing and CBOR are left out; `GetKey` of a UTxO is an arbitrary string.
- `strings.ToLower` beyond ASCII letters; the keys it is used on are hexadecimal.
- Lifecycle.Manager.Up: what follows the saved record (operator, network, wallet) is one flag, since it touches neither record nor contexts; the orphan-record cleanup is not modelled.
- Lifecycle.DownRestoresTheFirstReal: the context goes back into the kubeconfig file of the latest record; a cluster recreated under another KUBECONFIG moves that file.
- Ports.ValidateRuntimeSupport: the image, storage and local topology checks enter with their verdicts; what they look at is not modelled.
- Material.BuildPrimarySidecarMaterial: owner references, labels and the metrics Service are left out; a failure to set an owner reference has no case.
- Liveness, timeouts and requeue intervals.
