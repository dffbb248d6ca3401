/** The CardanoDBSync reconcile protocol (internal/controller/cardanodbsync) as a state machine.

    One controller action is one cluster read, one cluster write or one decision of a reconcile;
    one environment action is one thing the user, Kubernetes or the CardanoNetwork controller does
    in between. A run is any sequence of actions; an action that is not enabled changes nothing.
    A reconcile may stop after any action (`Fail`) and, for a reason outside this model, may leave
    for the blocked path at any point (`Block`). */
module Protocol {
  import opened Fingerprints
  import opened Planner
  import opened Text

  // -------------------------------------------------------------------------------------------
  // The CardanoDBSync object

  datatype Mode = DedicatedFollower | PrimarySidecar | UnknownMode

  datatype DatabaseMode =
    | External
    | Managed(image: string, name: string, user: string, authSecretRef: Option<string>)

  /** What the user asks for. `inputs` are the database-affecting plan inputs other than the network
      name, which is the referenced network's. */
  datatype UserSpec = UserSpec(placement: Option<Mode>, network: string, inputs: DatabaseIdentity,
                               database: DatabaseMode)

  datatype PlacementStatus = PlacementStatus(mode: Mode, sidecarNetwork: Option<string>)

  /** The SidecarMaterialReady condition. */
  datatype Material = Material(ready: bool, observedGeneration: nat)

  datatype Status = Status(observedGeneration: nat, acceptedIdentity: Fingerprint<DatabaseIdentity>,
                           acceptedMode: Option<Mode>, authSecretName: string,
                           placement: Option<PlacementStatus>, material: Material)

  datatype DBSync = DBSync(spec: UserSpec, generation: nat, status: Status)

  function EffectiveMode(spec: UserSpec): Mode {
    if spec.placement.None? then DedicatedFollower else spec.placement.value
  }

  function DesiredIdentity(spec: UserSpec): DatabaseIdentity {
    spec.inputs.(networkName := spec.network)
  }

  /** `PrimarySidecarClaimReadyForAttachment`: the object offers attachable material to `network`. */
  predicate ReadyForAttachment(x: DBSync, network: string) {
    && x.status.observedGeneration >= x.generation
    && x.status.material.ready && x.status.material.observedGeneration >= x.generation
    && x.status.placement.Some? && x.status.placement.value.mode == PrimarySidecar
    && x.status.placement.value.sidecarNetwork == Some(network)
  }

  // -------------------------------------------------------------------------------------------
  // Owned children and what surrounds them

  datatype Owner = ThisDBSync | NoOwner | OtherOwner

  datatype StatePVC = StatePVC(owner: Owner, identity: Fingerprint<DatabaseIdentity>, mode: Option<Mode>)
  datatype ConfigMap = ConfigMap(owner: Owner, identity: DatabaseIdentity, mode: Mode)
  datatype PGPass = PGPass(owner: Owner, identity: DatabaseIdentity, mode: Mode, password: string)
  datatype Deployment = Deployment(owner: Owner, replicas: nat, identity: Fingerprint<DatabaseIdentity>)

  /** `deleting` is a set deletion timestamp. */
  datatype Secret = Secret(owner: Owner, password: string, fingerprint: Fingerprint<string>, deleting: bool)

  /** The bootstrap inputs hashed into the managed Postgres identity. */
  datatype PostgresIdentity = PostgresIdentity(image: string, name: string, user: string, secretName: string,
                                               version: Fingerprint<string>, provided: bool)

  datatype PostgresPVC = PostgresPVC(owner: Owner, identity: Fingerprint<PostgresIdentity>)
  datatype PostgresDeployment = PostgresDeployment(owner: Owner, identity: Fingerprint<PostgresIdentity>,
                                                   templateIdentity: Fingerprint<PostgresIdentity>)

  /** A db-sync container in the primary Pod of `network`, attached for this claim or for a peer. */
  datatype Sidecar = Sidecar(network: string, ours: bool)

  /** Progress of the one in-flight reconcile. */
  datatype Phase =
    | Idle
    | Fetched | Placed | SecretSeen | Resolved
    | PostgresGated | IdentityGated | PlacementGated
    | HandoffSuspended | HandedOff
    | PostgresPVCApplied | PostgresApplied | PostgresPending
    | ReadyToApply | ConfigMapApplied | PGPassApplied | StatePVCApplied | DeploymentApplied
    | Waiting | Blocked | BlockedSuspended

  /** The reconcile's local variables: its copy of the object, the live auth Secret it read, and the
      credential Secret it resolved. */
  datatype Work = Work(dbSync: DBSync, seen: Secret, credential: Secret)

  /** The cluster plus the in-flight reconcile. `everReady` and `generated` are history: the networks
      the object ever offered material to, and how many passwords were generated. */
  datatype State = State(live: DBSync, statePVC: Option<StatePVC>, configMap: Option<ConfigMap>,
                         pgPass: Option<PGPass>, deployment: Option<Deployment>, dedicatedRunning: bool,
                         postgresPVC: Option<PostgresPVC>, postgresDeployment: Option<PostgresDeployment>,
                         secrets: map<string, Secret>, templates: set<Sidecar>, sidecarPods: set<Sidecar>,
                         everReady: set<string>, generated: nat, phase: Phase, work: Work)

  /** The generated Secret's name; the source derives it from the object's. */
  const GENERATED_AUTH_SECRET := "dbsync-postgres-auth"

  // -------------------------------------------------------------------------------------------
  // What the gates read

  /** `acceptedDBSyncDatabaseIdentityFromPVC`. */
  function AcceptedIdentity(pvc: Option<StatePVC>): Fingerprint<DatabaseIdentity> {
    if pvc.Some? && pvc.value.owner == ThisDBSync then pvc.value.identity else Unset
  }

  function AcceptedModeOnPVC(pvc: Option<StatePVC>): Option<Mode> {
    if pvc.Some? && pvc.value.owner == ThisDBSync then pvc.value.mode else None
  }

  /** `inferAcceptedDBSyncPlacementMode`: the workload shape, then the last published placement. */
  function InferredMode(s: State, x: DBSync): Option<Mode> {
    if Sidecar(x.spec.network, true) in s.templates + s.sidecarPods then Some(PrimarySidecar)
    else if s.deployment.Some? && s.deployment.value.owner == ThisDBSync then Some(DedicatedFollower)
    else if x.status.placement.Some? then Some(x.status.placement.value.mode)
    else None
  }

  /** `currentAcceptedDBSyncPlacementMode`. */
  function AcceptedMode(s: State, x: DBSync): Option<Mode> {
    if x.status.acceptedMode.Some? then x.status.acceptedMode
    else if AcceptedModeOnPVC(s.statePVC).Some? then AcceptedModeOnPVC(s.statePVC)
    else if x.status.acceptedIdentity == Unset && AcceptedIdentity(s.statePVC) == Unset then None
    else InferredMode(s, x)
  }

  /** `acceptedManagedPostgresIdentity`: the PVC, then the Deployment, then its Pod template. */
  function AcceptedPostgres(s: State): Fingerprint<PostgresIdentity> {
    if s.postgresPVC.Some? && s.postgresPVC.value.owner == ThisDBSync && s.postgresPVC.value.identity != Unset then
      s.postgresPVC.value.identity
    else if s.postgresDeployment.None? || s.postgresDeployment.value.owner != ThisDBSync then Unset
    else if s.postgresDeployment.value.identity != Unset then s.postgresDeployment.value.identity
    else s.postgresDeployment.value.templateIdentity
  }

  /** `managedPostgresAuthSecretDataProblem`. */
  predicate DataProblem(password: string) {
    password == "" || '\r' in password || '\n' in password
  }

  function SecretName(mode: DatabaseMode): string
    requires mode.Managed?
  {
    if mode.authSecretRef.Some? then mode.authSecretRef.value else GENERATED_AUTH_SECRET
  }

  /** `managedPostgresCredentialVersion`: the annotation on the generated path, the password's own
      fingerprint on the provided path. */
  function CredentialVersion(mode: DatabaseMode, credential: Secret): Fingerprint<string>
    requires mode.Managed?
  {
    if mode.authSecretRef.None? then credential.fingerprint else Digest(credential.password)
  }

  function PostgresIdentityFor(mode: DatabaseMode, version: Fingerprint<string>): PostgresIdentity
    requires mode.Managed?
  {
    PostgresIdentity(mode.image, mode.name, mode.user, SecretName(mode), version, mode.authSecretRef.Some?)
  }

  /** The identity the reconcile stamps on the Postgres PVC and Deployment. */
  function DesiredPostgres(w: Work): PostgresIdentity
    requires w.dbSync.spec.database.Managed?
  {
    PostgresIdentityFor(w.dbSync.spec.database, CredentialVersion(w.dbSync.spec.database, w.credential))
  }

  // -------------------------------------------------------------------------------------------
  // Status patches

  /** `patchStatusConditions`: conditions only; database status is kept, placement loses its material. */
  function ConditionsStatus(x: DBSync): Status {
    x.status.(observedGeneration := x.generation,
              placement := Some(PlacementStatus(EffectiveMode(x.spec), None)),
              material := Material(false, x.generation))
  }

  function GeneratedSecretName(mode: DatabaseMode): string {
    if mode.Managed? && mode.authSecretRef.None? then GENERATED_AUTH_SECRET else ""
  }

  /** `patchManagedPostgresAppliedStatus` and its primary-sidecar twin. */
  function PostgresPendingStatus(x: DBSync, accepted: Fingerprint<DatabaseIdentity>): Status {
    ConditionsStatus(x).(acceptedIdentity := accepted, authSecretName := GeneratedSecretName(x.spec.database))
  }

  /** `patchWorkloadsAppliedStatus` and `patchPrimarySidecarResourcesAppliedStatus`. */
  function AppliedStatus(x: DBSync): Status {
    var mode := EffectiveMode(x.spec);
    var sidecar := mode == PrimarySidecar;
    Status(x.generation, Digest(DesiredIdentity(x.spec)), Some(mode), GeneratedSecretName(x.spec.database),
           Some(PlacementStatus(mode, if sidecar then Some(x.spec.network) else None)),
           Material(sidecar, x.generation))
  }

  /** The patch makes the live status equal to the reconcile's, whatever was there. */
  function PatchStatus(s: State, status: Status): State {
    s.(live := s.live.(status := status), phase := Idle)
  }

  // -------------------------------------------------------------------------------------------
  // Controller actions

  /** Reading the object, then the gates of Reconcile and reconcileWorkloads. */
  datatype GateAction = Fetch | CheckPlacement(incumbent: bool) | GatePostgres | GateIdentity | GatePlacement

  /** resolveDatabase. */
  datatype CredentialAction =
    | ResolveExternal(password: string)
    | ResolveProvided
    | ReadGeneratedSecret(newPassword: string)
    | PatchGeneratedSecret(drift: bool)

  /** The placement handoff checks. */
  datatype HandoffAction = CheckSidecarGone | SuspendForHandoff | CheckDedicatedPodsGone

  /** The ordered applies; `CheckPostgresReady` stands between the Postgres and the db-sync bundle. */
  datatype ApplyAction =
    | ApplyPostgresPVC | ApplyPostgresDeployment | CheckPostgresReady(ready: bool)
    | ApplyConfigMap | ApplyPGPass | ApplyStatePVC | ApplyDeployment

  /** The ways a reconcile ends. */
  datatype ReportAction =
    | PatchApplied | PatchWaiting | PatchPostgresPending
    | Block | SuspendBlocked | PatchBlocked
    | Fail

  function Goto(s: State, phase: Phase): State {
    s.(phase := phase)
  }

  function Resolve(s: State, credential: Secret): State {
    s.(phase := Resolved, work := s.work.(credential := credential))
  }

  /** `reconcilePlacement`; whether a sidecar claim is the incumbent is decided elsewhere. */
  function CheckPlacementStep(s: State, incumbent: bool): State {
    match EffectiveMode(s.work.dbSync.spec)
    case DedicatedFollower => Goto(s, Placed)
    case PrimarySidecar => Goto(s, if incumbent then Placed else Blocked)
    case UnknownMode => Goto(s, Blocked)
  }

  function ResolveProvidedStep(s: State): State
    requires s.work.dbSync.spec.database.Managed?
  {
    var name := SecretName(s.work.dbSync.spec.database);
    if TrimSpace(name) == "" || name !in s.secrets || s.secrets[name].deleting || DataProblem(s.secrets[name].password)
    then Goto(s, Blocked)
    else Resolve(s, s.secrets[name])
  }

  /** `ensureManagedPostgresAuthSecret` up to its write: refuse, create, or go on to the patch. */
  function ReadGeneratedSecretStep(s: State, newPassword: string): State
    requires s.work.dbSync.spec.database.Managed?
  {
    if GENERATED_AUTH_SECRET !in s.secrets then
      if AcceptedPostgres(s) != Unset then Goto(s, Blocked)
      else
        var created := Secret(ThisDBSync, newPassword, Digest(newPassword), false);
        Resolve(s.(secrets := s.secrets[GENERATED_AUTH_SECRET := created], generated := s.generated + 1), created)
    else
      var current := s.secrets[GENERATED_AUTH_SECRET];
      match current.owner
      case NoOwner => ReadRestoredSecretStep(s, current)
      case OtherOwner => Goto(s, Blocked)
      case ThisDBSync =>
        if current.password != "" && current.fingerprint != Unset && current.fingerprint != Digest(current.password)
        then Goto(s, Blocked)
        else s.(phase := SecretSeen, work := s.work.(seen := current))
  }

  /** `adoptRestoredManagedPostgresAuthSecret` up to its write. */
  function ReadRestoredSecretStep(s: State, current: Secret): State
    requires s.work.dbSync.spec.database.Managed?
  {
    var restored := PostgresIdentityFor(s.work.dbSync.spec.database.(authSecretRef := None), Digest(current.password));
    if AcceptedPostgres(s) == Unset || DataProblem(current.password) || AcceptedPostgres(s) != Digest(restored)
    then Goto(s, Blocked)
    else s.(phase := SecretSeen, work := s.work.(seen := current))
  }

  /** The fingerprint `ensureManagedPostgresAuthSecret` wants on the Secret it read. */
  function WantedFingerprint(seen: Secret): Fingerprint<string> {
    if seen.password != "" then Digest(seen.password) else Unset
  }

  /** The merge patch changes only what differs between the Secret as read and the wanted metadata;
      the data is never part of it. */
  function Patched(seen: Secret, current: Secret): Secret {
    Secret(if seen.owner != ThisDBSync then ThisDBSync else current.owner,
           current.password,
           if seen.fingerprint != WantedFingerprint(seen) then WantedFingerprint(seen) else current.fingerprint,
           current.deleting)
  }

  /** `patchManagedPostgresAuthSecret`, then the checks of `resolveManagedDatabase`. Without a
      difference nothing is written and the Secret as read is used; otherwise the Secret in use is
      the server's reply. `drift` stands for a difference in labels or type. */
  function PatchGeneratedSecretStep(s: State, drift: bool): State {
    var seen := s.work.seen;
    if !drift && seen.owner == ThisDBSync && seen.fingerprint == WantedFingerprint(seen) then
      ResolveGenerated(s, seen)
    else if GENERATED_AUTH_SECRET !in s.secrets then Goto(s, Idle)
    else
      var patched := Patched(seen, s.secrets[GENERATED_AUTH_SECRET]);
      ResolveGenerated(s.(secrets := s.secrets[GENERATED_AUTH_SECRET := patched]), patched)
  }

  function ResolveGenerated(s: State, credential: Secret): State {
    if DataProblem(credential.password) || credential.fingerprint == Unset then Goto(s, Blocked)
    else Resolve(s, credential)
  }

  /** `validateAcceptedManagedPostgresIdentity`. */
  function GatePostgresStep(s: State): State {
    if s.work.dbSync.spec.database.External? then Goto(s, PostgresGated)
    else if AcceptedPostgres(s) == Unset || AcceptedPostgres(s) == Digest(DesiredPostgres(s.work)) then
      Goto(s, PostgresGated)
    else Goto(s, Blocked)
  }

  /** `validateAcceptedDBSyncDatabaseIdentity`: the PVC decides; the status mirror is overwritten. */
  function GateIdentityStep(s: State): State {
    var accepted := AcceptedIdentity(s.statePVC);
    if accepted == Unset then Goto(s, IdentityGated)
    else
      var x := s.work.dbSync;
      var repaired := s.work.(dbSync := x.(status := x.status.(acceptedIdentity := accepted)));
      s.(phase := if accepted == Digest(DesiredIdentity(x.spec)) then IdentityGated else Blocked, work := repaired)
  }

  /** `validateAcceptedDBSyncPlacementMode`. */
  function GatePlacementStep(s: State): State {
    var x := s.work.dbSync;
    var accepted := AcceptedMode(s, x);
    if accepted.None? then Goto(s, PlacementGated)
    else
      var filled := if x.status.acceptedMode.None? then x.status.(acceptedMode := accepted) else x.status;
      s.(phase := if accepted.value == EffectiveMode(x.spec) then PlacementGated else Blocked,
         work := s.work.(dbSync := x.(status := filled)))
  }

  /** `primarySidecarDBSyncGone`: no db-sync container of any claim is left in the primary Pod. */
  predicate SidecarGone(s: State, network: string) {
    forall sidecar :: sidecar in s.templates + s.sidecarPods ==> sidecar.network != network
  }

  /** `suspendDBSyncDeploymentIfOwned`. */
  function Suspend(deployment: Option<Deployment>): Option<Deployment> {
    if deployment.Some? && deployment.value.owner == ThisDBSync then Some(deployment.value.(replicas := 0))
    else deployment
  }

  /** `ApplyOwnedObject`: a child of another owner is a conflict, anything else takes the desired form. */
  predicate Conflict(owner: Owner) {
    owner != ThisDBSync
  }

  function ApplyPostgresPVCStep(s: State): State
    requires s.work.dbSync.spec.database.Managed?
  {
    if s.postgresPVC.Some? && Conflict(s.postgresPVC.value.owner) then Goto(s, Blocked)
    else s.(phase := PostgresPVCApplied,
            postgresPVC := Some(PostgresPVC(ThisDBSync, Digest(DesiredPostgres(s.work)))))
  }

  function ApplyPostgresDeploymentStep(s: State): State
    requires s.work.dbSync.spec.database.Managed?
  {
    if s.postgresDeployment.Some? && Conflict(s.postgresDeployment.value.owner) then Goto(s, Blocked)
    else s.(phase := PostgresApplied,
            postgresDeployment := Some(PostgresDeployment(ThisDBSync, Unset, Digest(DesiredPostgres(s.work)))))
  }

  function ApplyConfigMapStep(s: State): State {
    var spec := s.work.dbSync.spec;
    if s.configMap.Some? && Conflict(s.configMap.value.owner) then Goto(s, Blocked)
    else s.(phase := ConfigMapApplied,
            configMap := Some(ConfigMap(ThisDBSync, DesiredIdentity(spec), EffectiveMode(spec))))
  }

  function ApplyPGPassStep(s: State): State {
    var spec := s.work.dbSync.spec;
    if s.pgPass.Some? && Conflict(s.pgPass.value.owner) then Goto(s, Blocked)
    else s.(phase := PGPassApplied,
            pgPass := Some(PGPass(ThisDBSync, DesiredIdentity(spec), EffectiveMode(spec), s.work.credential.password)))
  }

  function ApplyStatePVCStep(s: State): State {
    var spec := s.work.dbSync.spec;
    if s.statePVC.Some? && Conflict(s.statePVC.value.owner) then Goto(s, Blocked)
    else s.(phase := StatePVCApplied,
            statePVC := Some(StatePVC(ThisDBSync, Digest(DesiredIdentity(spec)), Some(EffectiveMode(spec)))))
  }

  function ApplyDeploymentStep(s: State): State {
    if s.deployment.Some? && Conflict(s.deployment.value.owner) then Goto(s, Blocked)
    else s.(phase := DeploymentApplied,
            deployment := Some(Deployment(ThisDBSync, 1, Digest(DesiredIdentity(s.work.dbSync.spec)))))
  }

  // In which phase an action belongs: the order of the calls in Reconcile and reconcileWorkloads.

  predicate GateEnabled(a: GateAction, s: State) {
    match a
    case Fetch => s.phase == Idle
    case CheckPlacement(_) => s.phase == Fetched
    case GatePostgres => s.phase == Resolved
    case GateIdentity => s.phase == PostgresGated
    case GatePlacement => s.phase == IdentityGated
  }

  function PerformGate(a: GateAction, s: State): State {
    match a
    case Fetch => s.(phase := Fetched, work := s.work.(dbSync := s.live))
    case CheckPlacement(incumbent) => CheckPlacementStep(s, incumbent)
    case GatePostgres => GatePostgresStep(s)
    case GateIdentity => GateIdentityStep(s)
    case GatePlacement => GatePlacementStep(s)
  }

  predicate CredentialEnabled(a: CredentialAction, s: State) {
    var database := s.work.dbSync.spec.database;
    match a
    case ResolveExternal(_) => s.phase == Placed && database.External?
    case ResolveProvided => s.phase == Placed && database.Managed? && database.authSecretRef.Some?
    case ReadGeneratedSecret(newPassword) =>
      s.phase == Placed && database.Managed? && database.authSecretRef.None? && !DataProblem(newPassword)
    case PatchGeneratedSecret(_) => s.phase == SecretSeen
  }

  function PerformCredential(a: CredentialAction, s: State): State
    requires CredentialEnabled(a, s)
  {
    match a
    case ResolveExternal(password) =>
      if DataProblem(password) then Goto(s, Blocked) else Resolve(s, Secret(NoOwner, password, Unset, false))
    case ResolveProvided => ResolveProvidedStep(s)
    case ReadGeneratedSecret(newPassword) => ReadGeneratedSecretStep(s, newPassword)
    case PatchGeneratedSecret(drift) => PatchGeneratedSecretStep(s, drift)
  }

  predicate Dedicated(s: State) {
    EffectiveMode(s.work.dbSync.spec) != PrimarySidecar
  }

  predicate HandoffEnabled(a: HandoffAction, s: State) {
    match a
    case CheckSidecarGone => s.phase == PlacementGated && Dedicated(s)
    case SuspendForHandoff => s.phase == PlacementGated && !Dedicated(s)
    case CheckDedicatedPodsGone => s.phase == HandoffSuspended
  }

  function PerformHandoff(a: HandoffAction, s: State): State {
    match a
    case CheckSidecarGone => Goto(s, if SidecarGone(s, s.work.dbSync.spec.network) then HandedOff else Waiting)
    case SuspendForHandoff => s.(phase := HandoffSuspended, deployment := Suspend(s.deployment))
    case CheckDedicatedPodsGone => Goto(s, if s.dedicatedRunning then Waiting else HandedOff)
  }

  predicate ApplyEnabled(a: ApplyAction, s: State) {
    var managed := s.work.dbSync.spec.database.Managed?;
    match a
    case ApplyPostgresPVC => s.phase == HandedOff && managed
    case ApplyPostgresDeployment => s.phase == PostgresPVCApplied && managed
    case CheckPostgresReady(_) => s.phase == PostgresApplied
    case ApplyConfigMap => s.phase == ReadyToApply || (s.phase == HandedOff && !managed)
    case ApplyPGPass => s.phase == ConfigMapApplied
    case ApplyStatePVC => s.phase == PGPassApplied
    case ApplyDeployment => s.phase == StatePVCApplied && Dedicated(s)
  }

  function PerformApply(a: ApplyAction, s: State): State
    requires ApplyEnabled(a, s)
  {
    match a
    case ApplyPostgresPVC => ApplyPostgresPVCStep(s)
    case ApplyPostgresDeployment => ApplyPostgresDeploymentStep(s)
    case CheckPostgresReady(ready) => Goto(s, if ready then ReadyToApply else PostgresPending)
    case ApplyConfigMap => ApplyConfigMapStep(s)
    case ApplyPGPass => ApplyPGPassStep(s)
    case ApplyStatePVC => ApplyStatePVCStep(s)
    case ApplyDeployment => ApplyDeploymentStep(s)
  }

  predicate ReportEnabled(a: ReportAction, s: State) {
    match a
    case PatchApplied => if Dedicated(s) then s.phase == DeploymentApplied else s.phase == StatePVCApplied
    case PatchWaiting => s.phase == Waiting
    case PatchPostgresPending => s.phase == PostgresPending
    case Block => s.phase != Idle
    case SuspendBlocked => s.phase == Blocked
    case PatchBlocked => s.phase == BlockedSuspended
    case Fail => s.phase != Idle
  }

  function PerformReport(a: ReportAction, s: State): State {
    var x := s.work.dbSync;
    match a
    case PatchApplied => PatchStatus(s, AppliedStatus(x))
    case PatchWaiting => PatchStatus(s, ConditionsStatus(x))
    case PatchPostgresPending => PatchStatus(s, PostgresPendingStatus(x, AcceptedIdentity(s.statePVC)))
    case Block => Goto(s, Blocked)
    case SuspendBlocked => s.(phase := BlockedSuspended, deployment := Suspend(s.deployment))
    case PatchBlocked => PatchStatus(s, ConditionsStatus(x))
    case Fail => Goto(s, Idle)
  }

  // -------------------------------------------------------------------------------------------
  // Environment actions

  datatype EnvironmentAction =
    // the user
    | EditSpec(spec: UserSpec)
    | EditIdentityMirror(text: Fingerprint<DatabaseIdentity>)
    | PutSecret(name: string, secret: Secret)
    | DeleteSecret(name: string)
    | PutForeignStatePVC
    | DeleteDeployment | PutForeignDeployment | ScaleDeployment(replicas: nat)
    | DeletePostgresPVC | PutForeignPostgresPVC
    | DeletePostgresDeployment | PutForeignPostgresDeployment
    | DeleteMaterial | PutForeignConfigMap(content: ConfigMap) | PutForeignPGPass(file: PGPass)
    // Kubernetes
    | StartDedicatedPod | StopDedicatedPods
    | StartSidecarPod(sidecar: Sidecar) | StopSidecarPods(sidecar: Sidecar)
    // the CardanoNetwork controller
    | Attach(network: string) | AttachPeer(network: string) | Detach(sidecar: Sidecar)

  /** A user may delete any child but the state PVC, put a same-named object of another owner in an
      empty place, and do anything to Secrets. A Pod starts only from a live template; our sidecar is
      attached only on the strength of material this object offered at some time, however long ago. */
  function Disturb(e: EnvironmentAction, s: State): State {
    match e
    case EditSpec(spec) => s.(live := s.live.(spec := spec, generation := s.live.generation + 1))
    case EditIdentityMirror(text) => s.(live := s.live.(status := s.live.status.(acceptedIdentity := text)))
    case PutSecret(name, secret) => s.(secrets := s.secrets[name := secret])
    case DeleteSecret(name) => s.(secrets := s.secrets - {name})
    case PutForeignStatePVC =>
      if s.statePVC.None? then s.(statePVC := Some(StatePVC(OtherOwner, Unset, None))) else s
    case DeleteDeployment => s.(deployment := None)
    case PutForeignDeployment =>
      if s.deployment.None? then s.(deployment := Some(Deployment(OtherOwner, 1, Unset))) else s
    case ScaleDeployment(replicas) =>
      if s.deployment.Some? then s.(deployment := Some(s.deployment.value.(replicas := replicas))) else s
    case DeletePostgresPVC => s.(postgresPVC := None)
    case PutForeignPostgresPVC =>
      if s.postgresPVC.None? then s.(postgresPVC := Some(PostgresPVC(OtherOwner, Unset))) else s
    case DeletePostgresDeployment => s.(postgresDeployment := None)
    case PutForeignPostgresDeployment =>
      if s.postgresDeployment.None? then s.(postgresDeployment := Some(PostgresDeployment(OtherOwner, Unset, Unset)))
      else s
    case DeleteMaterial => s.(configMap := None, pgPass := None)
    case PutForeignConfigMap(content) =>
      if s.configMap.None? then s.(configMap := Some(content.(owner := OtherOwner))) else s
    case PutForeignPGPass(file) =>
      if s.pgPass.None? then s.(pgPass := Some(file.(owner := OtherOwner))) else s
    case StartDedicatedPod =>
      if s.deployment.Some? && s.deployment.value.owner == ThisDBSync && s.deployment.value.replicas > 0
      then s.(dedicatedRunning := true) else s
    case StopDedicatedPods => s.(dedicatedRunning := false)
    case StartSidecarPod(sidecar) =>
      if sidecar in s.templates then s.(sidecarPods := s.sidecarPods + {sidecar}) else s
    case StopSidecarPods(sidecar) => s.(sidecarPods := s.sidecarPods - {sidecar})
    case Attach(network) =>
      if network in s.everReady then s.(templates := s.templates + {Sidecar(network, true)}) else s
    case AttachPeer(network) => s.(templates := s.templates + {Sidecar(network, false)})
    case Detach(sidecar) => s.(templates := s.templates - {sidecar})
  }

  // -------------------------------------------------------------------------------------------
  // Runs

  datatype Action =
    | Gate(gate: GateAction)
    | Credential(credential: CredentialAction)
    | Handoff(handoff: HandoffAction)
    | Apply(apply: ApplyAction)
    | Report(report: ReportAction)
    | Environment(environment: EnvironmentAction)

  /** Remembers the offer the live object makes, if any. */
  function Observe(s: State): State {
    var placement := s.live.status.placement;
    if placement.Some? && placement.value.sidecarNetwork.Some?
       && ReadyForAttachment(s.live, placement.value.sidecarNetwork.value)
    then s.(everReady := s.everReady + {placement.value.sidecarNetwork.value})
    else s
  }

  predicate Enabled(a: Action, s: State) {
    match a
    case Gate(gate) => GateEnabled(gate, s)
    case Credential(credential) => CredentialEnabled(credential, s)
    case Handoff(handoff) => HandoffEnabled(handoff, s)
    case Apply(apply) => ApplyEnabled(apply, s)
    case Report(report) => ReportEnabled(report, s)
    case Environment(_) => true
  }

  function Perform(a: Action, s: State): State
    requires Enabled(a, s)
  {
    match a
    case Gate(gate) => PerformGate(gate, s)
    case Credential(credential) => PerformCredential(credential, s)
    case Handoff(handoff) => PerformHandoff(handoff, s)
    case Apply(apply) => PerformApply(apply, s)
    case Report(report) => PerformReport(report, s)
    case Environment(environment) => Disturb(environment, s)
  }

  function Step(a: Action, s: State): State {
    if Enabled(a, s) then Observe(Perform(a, s)) else s
  }

  function Run(s: State, actions: seq<Action>): State
    decreases actions
  {
    if actions == [] then s else Run(Step(actions[0], s), actions[1..])
  }

  lemma {:induction false} RunConcat(s: State, before: seq<Action>, after: seq<Action>)
    ensures Run(s, before + after) == Run(Run(s, before), after)
    decreases before
  {
    if before == [] {
      assert before + after == after;
    } else {
      assert (before + after)[1..] == before[1..] + after;
      RunConcat(Step(before[0], s), before[1..], after);
    }
  }

  lemma NoActions(s: State)
    ensures Run(s, []) == s
  {
  }

  lemma OneStep(s: State, a: Action)
    ensures Run(s, [a]) == Step(a, s)
  {
    assert [a][1..] == [];
    assert Run(Step(a, s), []) == Step(a, s);
  }

  lemma ThreeSteps(s: State, a: Action, b: Action, c: Action)
    ensures Run(s, [a, b, c]) == Step(c, Step(b, Step(a, s)))
  {
    var first, second := Step(a, s), Step(b, Step(a, s));
    assert [a, b, c][1..] == [b, c] && [b, c][1..] == [c] && [c][1..] == [];
    assert Run(s, [a, b, c]) == Run(first, [b, c]);
    assert Run(first, [b, c]) == Run(second, [c]);
    assert Run(second, [c]) == Run(Step(c, second), []);
  }

  /** One more step of a run, for a step after which the object offers no material. */
  lemma Then(s: State, actions: seq<Action>, t: State, a: Action, u: State)
    requires Run(s, actions) == t && Enabled(a, t) && u == Perform(a, t) && !u.live.status.material.ready
    ensures Run(s, actions + [a]) == u
  {
    RunConcat(s, actions, [a]);
    assert [a][1..] == [];
    assert Run(Step(a, t), []) == Step(a, t);
  }

  /** A cluster in which this object owns nothing yet; peers and foreign children may exist. */
  predicate Initial(s: State) {
    && s.phase == Idle
    && s.live.status == Status(0, Unset, None, "", None, Material(false, 0))
    && (s.statePVC.Some? ==> s.statePVC.value.owner != ThisDBSync)
    && (s.configMap.Some? ==> s.configMap.value.owner != ThisDBSync)
    && (s.pgPass.Some? ==> s.pgPass.value.owner != ThisDBSync)
    && (s.deployment.Some? ==> s.deployment.value.owner != ThisDBSync)
    && (s.postgresPVC.Some? ==> s.postgresPVC.value.owner != ThisDBSync)
    && (s.postgresDeployment.Some? ==> s.postgresDeployment.value.owner != ThisDBSync)
    && !s.dedicatedRunning
    && (forall sidecar :: sidecar in s.templates + s.sidecarPods ==> !sidecar.ours)
    && s.everReady == {}
  }
}
