/** The reconcile as the controller performs it: one call after another on the live objects, any call
    may fail, and anything in the environment's power may happen between two calls. Every call is tied
    to the protocol step it performs, so whatever every run of the protocol keeps is kept by every
    sequence of reconciles. */
module Reconciler {
  import opened Fingerprints
  import opened Planner
  import opened Protocol
  import opened Placement
  import opened Text
  import Claims
  import FanOut

  /** What a reconcile finds outside the modelled cluster: the object as a claim and the objects listed, the
      external Secret, a random password, metadata drift on the auth Secret, and the
      readiness of the referenced network and of Postgres. */
  datatype Inputs = Inputs(self: Claims.Claim, listed: seq<Claims.Claim>, externalRef: SecretRef,
                           externalSecret: ExternalSecret, newPassword: string, drift: bool, networkReady: bool,
                           postgresReady: bool)

  datatype SecretRef = SecretRef(name: string, key: string)

  /** The Secret a reference leads to, in the object's namespace. */
  datatype ExternalSecret = NotFound | Found(deleting: bool, data: map<string, string>)

  predicate UsableExternal(ref: SecretRef, secret: ExternalSecret) {
    && ref.name != "" && ref.key != "" && secret.Found? && !secret.deleting
    && ref.key in secret.data && !DataProblem(secret.data[ref.key])
  }

  /** `validateExternalDatabaseSecret`. */
  method ValidateExternalDatabaseSecret(ref: SecretRef, secret: ExternalSecret) returns (password: Option<string>)
    ensures password == if UsableExternal(ref, secret) then Some(secret.data[ref.key]) else None
  {
    if ref.name == "" || ref.key == "" {
      return None;
    }
    if secret.NotFound? || secret.deleting {
      return None;
    }
    if ref.key !in secret.data || secret.data[ref.key] == "" {
      return None;
    }
    if '\r' in secret.data[ref.key] || '\n' in secret.data[ref.key] {
      return None;
    }
    return Some(secret.data[ref.key]);
  }

  /** The environment has no hand in the reconcile's own variables. */
  lemma DisturbLeavesTheReconcile(e: EnvironmentAction, s: State)
    ensures var t := Disturb(e, s);
            t.work == s.work && t.phase == s.phase && t.everReady == s.everReady && t.generated == s.generated
  {
  }

  /** Where an action may lead. */
  predicate Leads(a: Action, phase: Phase) {
    match a
    case Gate(Fetch) => phase == Fetched
    case Gate(CheckPlacement(_)) => phase == Placed || phase == Blocked
    case Gate(GatePostgres) => phase == PostgresGated || phase == Blocked
    case Gate(GateIdentity) => phase == IdentityGated || phase == Blocked
    case Gate(GatePlacement) => phase == PlacementGated || phase == Blocked
    case Credential(ReadGeneratedSecret(_)) => phase == Resolved || phase == SecretSeen || phase == Blocked
    case Credential(PatchGeneratedSecret(_)) => phase == Resolved || phase == Blocked || phase == Idle
    case Credential(_) => phase == Resolved || phase == Blocked
    case Handoff(SuspendForHandoff) => phase == HandoffSuspended
    case Handoff(_) => phase == HandedOff || phase == Waiting
    case Apply(ApplyPostgresPVC) => phase == PostgresPVCApplied || phase == Blocked
    case Apply(ApplyPostgresDeployment) => phase == PostgresApplied || phase == Blocked
    case Apply(CheckPostgresReady(ready)) => phase == if ready then ReadyToApply else PostgresPending
    case Apply(ApplyConfigMap) => phase == ConfigMapApplied || phase == Blocked
    case Apply(ApplyPGPass) => phase == PGPassApplied || phase == Blocked
    case Apply(ApplyStatePVC) => phase == StatePVCApplied || phase == Blocked
    case Apply(ApplyDeployment) => phase == DeploymentApplied || phase == Blocked
    case Report(Block) => phase == Blocked
    case Report(SuspendBlocked) => phase == BlockedSuspended
    case Report(_) => phase == Idle
    case Environment(_) => true
  }

  lemma CredentialLeads(a: CredentialAction, s: State)
    requires CredentialEnabled(a, s)
    ensures Leads(Credential(a), PerformCredential(a, s).phase)
    ensures PerformCredential(a, s).work.dbSync == s.work.dbSync
  {
  }

  lemma PerformLeads(a: Action, s: State)
    requires Enabled(a, s) && !a.Environment?
    ensures Leads(a, Perform(a, s).phase)
    ensures a != Gate(Fetch) ==> Perform(a, s).work.dbSync.spec == s.work.dbSync.spec
  {
    match a
    case Gate(_) =>
    case Credential(credential) => CredentialLeads(credential, s);
    case Handoff(_) =>
    case Apply(_) =>
    case Report(_) =>
  }

  class Reconciler {
    // The object, its owned children and what surrounds them.
    var live: DBSync
    var statePVC: Option<StatePVC>
    var configMap: Option<ConfigMap>
    var pgPass: Option<PGPass>
    var deployment: Option<Deployment>
    var dedicatedRunning: bool
    var postgresPVC: Option<PostgresPVC>
    var postgresDeployment: Option<PostgresDeployment>
    var secrets: map<string, Secret>
    var templates: set<Sidecar>
    var sidecarPods: set<Sidecar>

    // The variables of the reconcile in flight: its copy of the object, which the gates overwrite in
    // place, the auth Secret it read and the credential it resolved.
    var dbSync: DBSync
    var seen: Secret
    var credential: Secret

    // How far the reconcile has come, and what the protocol remembers of the past.
    var phase: Phase
    var everReady: set<string>
    var generated: nat
    ghost const start: State
    ghost var history: seq<Action>

    function View(): State
      reads this
    {
      State(live, statePVC, configMap, pgPass, deployment, dedicatedRunning, postgresPVC, postgresDeployment, secrets,
            templates, sidecarPods, everReady, generated, phase, Work(dbSync, seen, credential))
    }

    ghost predicate Valid()
      reads this
    {
      Initial(start) && View() == Run(start, history)
    }

    /** Some protocol steps were taken for the same spec. */
    twostate predicate Advanced()
      reads this
    {
      Valid() && old(history) <= history && dbSync.spec == old(dbSync.spec)
    }

    constructor (s: State)
      requires Initial(s)
      ensures Valid() && View() == s && history == []
    {
      live, statePVC, configMap, pgPass, deployment := s.live, s.statePVC, s.configMap, s.pgPass, s.deployment;
      dedicatedRunning, postgresPVC, postgresDeployment := s.dedicatedRunning, s.postgresPVC, s.postgresDeployment;
      secrets, templates, sidecarPods := s.secrets, s.templates, s.sidecarPods;
      dbSync, seen, credential := s.work.dbSync, s.work.seen, s.work.credential;
      phase, everReady, generated := s.phase, s.everReady, s.generated;
      start, history := s, [];
    }

    // -----------------------------------------------------------------------------------------
    // Gates

    /** `reconcilePlacement`. */
    method ReconcilePlacement(incumbent: bool)
      modifies `phase
      ensures View() == CheckPlacementStep(old(View()), incumbent)
    {
      var ok: bool;
      match EffectiveMode(dbSync.spec) {
        case DedicatedFollower => ok := true;
        case PrimarySidecar => ok := incumbent;
        case UnknownMode => ok := false;
      }
      phase := if ok then Placed else Blocked;
    }

    /** `acceptedManagedPostgresIdentity`: PVC, Deployment, Pod template, in this order. */
    method AcceptedManagedPostgresIdentity() returns (accepted: Fingerprint<PostgresIdentity>)
      ensures accepted == AcceptedPostgres(View())
    {
      if postgresPVC.Some? && postgresPVC.value.owner == ThisDBSync {
        accepted := postgresPVC.value.identity;
        if accepted != Unset {
          return;
        }
      }
      if postgresDeployment.None? || postgresDeployment.value.owner != ThisDBSync {
        return Unset;
      }
      accepted := postgresDeployment.value.identity;
      if accepted == Unset {
        accepted := postgresDeployment.value.templateIdentity;
      }
    }

    /** `validateAcceptedManagedPostgresIdentity`, skipped for an external database. */
    method ValidateAcceptedManagedPostgresIdentity()
      modifies `phase
      ensures View() == GatePostgresStep(old(View()))
    {
      var ok := true;
      if dbSync.spec.database.Managed? {
        var accepted := AcceptedManagedPostgresIdentity();
        ok := accepted == Unset || accepted == Digest(DesiredPostgres(Work(dbSync, seen, credential)));
      }
      phase := if ok then PostgresGated else Blocked;
    }

    /** `validateAcceptedDBSyncDatabaseIdentity`: also repairs the status mirror in place. */
    method ValidateAcceptedDBSyncDatabaseIdentity()
      modifies `phase, `dbSync
      ensures View() == GateIdentityStep(old(View()))
    {
      var accepted := AcceptedIdentity(statePVC);
      phase := if accepted == Unset || accepted == Digest(DesiredIdentity(dbSync.spec)) then IdentityGated else Blocked;
      if accepted != Unset && dbSync.status.acceptedIdentity != accepted {
        dbSync := dbSync.(status := dbSync.status.(acceptedIdentity := accepted));
      }
    }

    /** `currentAcceptedDBSyncPlacementMode` with `inferAcceptedDBSyncPlacementMode`. */
    method CurrentAcceptedDBSyncPlacementMode() returns (mode: Option<Mode>)
      ensures mode == AcceptedMode(View(), dbSync)
    {
      if dbSync.status.acceptedMode.Some? {
        return dbSync.status.acceptedMode;
      }
      mode := AcceptedModeOnPVC(statePVC);
      if mode.Some? {
        return;
      }
      if dbSync.status.acceptedIdentity == Unset && AcceptedIdentity(statePVC) == Unset {
        return None;
      }
      if Sidecar(dbSync.spec.network, true) in templates || Sidecar(dbSync.spec.network, true) in sidecarPods {
        return Some(PrimarySidecar);
      }
      if deployment.Some? && deployment.value.owner == ThisDBSync {
        return Some(DedicatedFollower);
      }
      if dbSync.status.placement.Some? {
        return Some(dbSync.status.placement.value.mode);
      }
      return None;
    }

    /** `validateAcceptedDBSyncPlacementMode`: also fills an empty accepted mode in place. */
    method ValidateAcceptedDBSyncPlacementMode()
      modifies `phase, `dbSync
      ensures View() == GatePlacementStep(old(View()))
    {
      var accepted := CurrentAcceptedDBSyncPlacementMode();
      phase := if accepted.None? || accepted.value == EffectiveMode(dbSync.spec) then PlacementGated else Blocked;
      if accepted.Some? && dbSync.status.acceptedMode.None? {
        dbSync := dbSync.(status := dbSync.status.(acceptedMode := accepted));
      }
    }

    method PerformGateCall(a: GateAction)
      requires GateEnabled(a, View())
      modifies `phase, `dbSync
      ensures View() == PerformGate(a, old(View()))
    {
      match a {
        case Fetch =>
          dbSync := live;
          phase := Fetched;
        case CheckPlacement(incumbent) => ReconcilePlacement(incumbent);
        case GatePostgres => ValidateAcceptedManagedPostgresIdentity();
        case GateIdentity => ValidateAcceptedDBSyncDatabaseIdentity();
        case GatePlacement => ValidateAcceptedDBSyncPlacementMode();
      }
    }

    // -----------------------------------------------------------------------------------------
    // Credentials

    /** `resolveExternalDatabase` on the validated password, empty where there is none. */
    method ResolveExternalDatabase(password: string)
      modifies `phase, `credential
      ensures View() == if DataProblem(password) then Goto(old(View()), Blocked)
                        else Resolve(old(View()), Secret(NoOwner, password, Unset, false))
    {
      if DataProblem(password) {
        phase := Blocked;
        return;
      }
      credential := Secret(NoOwner, password, Unset, false);
      phase := Resolved;
    }

    /** `validateProvidedManagedPostgresAuthSecret`. */
    method ValidateProvidedManagedPostgresAuthSecret()
      requires dbSync.spec.database.Managed? && dbSync.spec.database.authSecretRef.Some?
      modifies `phase, `credential
      ensures View() == ResolveProvidedStep(old(View()))
    {
      var name := dbSync.spec.database.authSecretRef.value;
      if TrimSpace(name) == "" {
        phase := Blocked;
        return;
      }
      if name !in secrets || secrets[name].deleting {
        phase := Blocked;
        return;
      }
      if DataProblem(secrets[name].password) {
        phase := Blocked;
        return;
      }
      credential := secrets[name];
      phase := Resolved;
    }

    /** `adoptRestoredManagedPostgresAuthSecret` up to its patch. */
    method AdoptRestoredManagedPostgresAuthSecret(current: Secret)
      requires dbSync.spec.database.Managed?
      modifies `phase, `seen
      ensures View() == ReadRestoredSecretStep(old(View()), current)
    {
      phase := Blocked;
      var accepted := AcceptedManagedPostgresIdentity();
      if accepted == Unset || DataProblem(current.password) {
        return;
      }
      var restored := PostgresIdentityFor(dbSync.spec.database.(authSecretRef := None), Digest(current.password));
      if accepted != Digest(restored) {
        return;
      }
      seen := current;
      phase := SecretSeen;
    }

    /** `ensureManagedPostgresAuthSecret` up to its patch: create, adopt, go on or refuse. */
    method EnsureManagedPostgresAuthSecret(newPassword: string)
      requires dbSync.spec.database.Managed?
      modifies `phase, `seen, `credential, `secrets, `generated
      ensures View() == ReadGeneratedSecretStep(old(View()), newPassword)
    {
      if GENERATED_AUTH_SECRET !in secrets {
        var accepted := AcceptedManagedPostgresIdentity();
        if accepted != Unset {
          phase := Blocked;
          return;
        }
        credential := Secret(ThisDBSync, newPassword, Digest(newPassword), false);
        secrets := secrets[GENERATED_AUTH_SECRET := credential];
        generated := generated + 1;
        phase := Resolved;
        return;
      }
      var current := secrets[GENERATED_AUTH_SECRET];
      if current.owner == NoOwner {
        AdoptRestoredManagedPostgresAuthSecret(current);
        return;
      }
      if current.owner != ThisDBSync {
        phase := Blocked;
        return;
      }
      if current.password != "" && current.fingerprint != Unset && current.fingerprint != Digest(current.password) {
        phase := Blocked;
        return;
      }
      seen := current;
      phase := SecretSeen;
    }

    /** `patchManagedPostgresAuthSecret`. The desired metadata is computed on a copy of the Secret as
        read; the server merges only what differs, and its reply replaces the copy. */
    method PatchManagedPostgresAuthSecret(drift: bool) returns (current: Secret, found: bool)
      modifies `secrets
      ensures var written := drift || seen.owner != ThisDBSync || seen.fingerprint != WantedFingerprint(seen);
              && found == (written ==> GENERATED_AUTH_SECRET in old(secrets))
              && (!written ==> secrets == old(secrets) && current == seen)
              && (written && !found ==> secrets == old(secrets))
              && (written && found ==>
                    && current == Patched(seen, old(secrets)[GENERATED_AUTH_SECRET])
                    && secrets == old(secrets)[GENERATED_AUTH_SECRET := current])
    {
      current := seen.(owner := ThisDBSync,
                       fingerprint := if seen.password != "" then Digest(seen.password) else Unset);
      found := true;
      if !drift && current == seen {
        return;
      }
      if GENERATED_AUTH_SECRET !in secrets {
        found := false;
        return;
      }
      var stored := secrets[GENERATED_AUTH_SECRET];
      if current.owner != seen.owner {
        stored := stored.(owner := current.owner);
      }
      if current.fingerprint != seen.fingerprint {
        stored := stored.(fingerprint := current.fingerprint);
      }
      secrets := secrets[GENERATED_AUTH_SECRET := stored];
      current := stored;
    }

    /** The patch and the checks that follow it in `resolveManagedDatabase`. */
    method AdoptPatchedAuthSecret(drift: bool)
      modifies `phase, `credential, `secrets
      ensures View() == PatchGeneratedSecretStep(old(View()), drift)
    {
      var current, found := PatchManagedPostgresAuthSecret(drift);
      if !found {
        phase := Idle;
      } else if DataProblem(current.password) || current.fingerprint == Unset {
        phase := Blocked;
      } else {
        credential := current;
        phase := Resolved;
      }
    }

    method PerformCredentialCall(a: CredentialAction)
      requires CredentialEnabled(a, View())
      modifies `phase, `seen, `credential, `secrets, `generated
      ensures View() == PerformCredential(a, old(View()))
    {
      match a {
        case ResolveExternal(password) => ResolveExternalDatabase(password);
        case ResolveProvided => ValidateProvidedManagedPostgresAuthSecret();
        case ReadGeneratedSecret(newPassword) => EnsureManagedPostgresAuthSecret(newPassword);
        case PatchGeneratedSecret(drift) => AdoptPatchedAuthSecret(drift);
      }
    }

    // -----------------------------------------------------------------------------------------
    // Handoff

    /** `suspendDBSyncDeploymentIfOwned`. */
    method SuspendDBSyncDeploymentIfOwned()
      modifies `deployment
      ensures deployment == Suspend(old(deployment))
    {
      if deployment.None? {
        return;
      }
      var current := deployment.value;
      if current.owner != ThisDBSync {
        return;
      }
      if current.replicas == 0 {
        return;
      }
      deployment := Some(current.(replicas := 0));
    }

    method PerformHandoffCall(a: HandoffAction)
      requires HandoffEnabled(a, View())
      modifies `phase, `deployment
      ensures View() == PerformHandoff(a, old(View()))
    {
      match a {
        case CheckSidecarGone =>
          phase := if SidecarGone(View(), dbSync.spec.network) then HandedOff else Waiting;
        case SuspendForHandoff =>
          SuspendDBSyncDeploymentIfOwned();
          phase := HandoffSuspended;
        case CheckDedicatedPodsGone =>
          phase := if dedicatedRunning then Waiting else HandedOff;
      }
    }

    // -----------------------------------------------------------------------------------------
    // Applies

    method ApplyManagedPostgresPVC()
      requires dbSync.spec.database.Managed?
      modifies `phase, `postgresPVC
      ensures View() == ApplyPostgresPVCStep(old(View()))
    {
      if postgresPVC.Some? && postgresPVC.value.owner != ThisDBSync {
        phase := Blocked;
        return;
      }
      postgresPVC := Some(PostgresPVC(ThisDBSync, Digest(DesiredPostgres(Work(dbSync, seen, credential)))));
      phase := PostgresPVCApplied;
    }

    method ApplyManagedPostgresDeployment()
      requires dbSync.spec.database.Managed?
      modifies `phase, `postgresDeployment
      ensures View() == ApplyPostgresDeploymentStep(old(View()))
    {
      if postgresDeployment.Some? && postgresDeployment.value.owner != ThisDBSync {
        phase := Blocked;
        return;
      }
      postgresDeployment :=
        Some(PostgresDeployment(ThisDBSync, Unset, Digest(DesiredPostgres(Work(dbSync, seen, credential)))));
      phase := PostgresApplied;
    }

    method ApplyDBSyncConfigMap()
      modifies `phase, `configMap
      ensures View() == ApplyConfigMapStep(old(View()))
    {
      if configMap.Some? && configMap.value.owner != ThisDBSync {
        phase := Blocked;
        return;
      }
      configMap := Some(ConfigMap(ThisDBSync, DesiredIdentity(dbSync.spec), EffectiveMode(dbSync.spec)));
      phase := ConfigMapApplied;
    }

    method ApplyDBSyncPGPassSecret()
      modifies `phase, `pgPass
      ensures View() == ApplyPGPassStep(old(View()))
    {
      if pgPass.Some? && pgPass.value.owner != ThisDBSync {
        phase := Blocked;
        return;
      }
      pgPass :=
        Some(PGPass(ThisDBSync, DesiredIdentity(dbSync.spec), EffectiveMode(dbSync.spec), credential.password));
      phase := PGPassApplied;
    }

    method ApplyDBSyncStatePVC()
      modifies `phase, `statePVC
      ensures View() == ApplyStatePVCStep(old(View()))
    {
      if statePVC.Some? && statePVC.value.owner != ThisDBSync {
        phase := Blocked;
        return;
      }
      statePVC := Some(StatePVC(ThisDBSync, Digest(DesiredIdentity(dbSync.spec)), Some(EffectiveMode(dbSync.spec))));
      phase := StatePVCApplied;
    }

    method ApplyDBSyncDeployment()
      modifies `phase, `deployment
      ensures View() == ApplyDeploymentStep(old(View()))
    {
      if deployment.Some? && deployment.value.owner != ThisDBSync {
        phase := Blocked;
        return;
      }
      deployment := Some(Deployment(ThisDBSync, 1, Digest(DesiredIdentity(dbSync.spec))));
      phase := DeploymentApplied;
    }

    method PerformApplyCall(a: ApplyAction)
      requires ApplyEnabled(a, View())
      modifies `phase, `postgresPVC, `postgresDeployment, `configMap, `pgPass, `statePVC, `deployment
      ensures View() == PerformApply(a, old(View()))
    {
      match a {
        case ApplyPostgresPVC => ApplyManagedPostgresPVC();
        case ApplyPostgresDeployment => ApplyManagedPostgresDeployment();
        case CheckPostgresReady(ready) =>
          phase := if ready then ReadyToApply else PostgresPending;
        case ApplyConfigMap => ApplyDBSyncConfigMap();
        case ApplyPGPass => ApplyDBSyncPGPassSecret();
        case ApplyStatePVC => ApplyDBSyncStatePVC();
        case ApplyDeployment => ApplyDBSyncDeployment();
      }
    }

    // -----------------------------------------------------------------------------------------
    // Reports

    method PatchStatus(status: Status)
      modifies `live, `phase
      ensures View() == Protocol.PatchStatus(old(View()), status)
    {
      live := live.(status := status);
      phase := Idle;
    }

    method PerformReportCall(a: ReportAction)
      requires ReportEnabled(a, View())
      modifies `phase, `live, `deployment
      ensures View() == PerformReport(a, old(View()))
    {
      match a {
        case PatchApplied => PatchStatus(AppliedStatus(dbSync));
        case PatchWaiting => PatchStatus(ConditionsStatus(dbSync));
        case PatchPostgresPending => PatchStatus(PostgresPendingStatus(dbSync, AcceptedIdentity(statePVC)));
        case Block => phase := Blocked;
        case SuspendBlocked =>
          SuspendDBSyncDeploymentIfOwned();
          phase := BlockedSuspended;
        case PatchBlocked => PatchStatus(ConditionsStatus(dbSync));
        case Fail => phase := Idle;
      }
    }

    // -----------------------------------------------------------------------------------------
    // One step

    method PerformCall(a: Action)
      requires Enabled(a, View()) && !a.Environment?
      modifies this
      ensures View() == Perform(a, old(View())) && history == old(history)
    {
      match a {
        case Gate(gate) => PerformGateCall(gate);
        case Credential(credential) => PerformCredentialCall(credential);
        case Handoff(handoff) => PerformHandoffCall(handoff);
        case Apply(apply) => PerformApplyCall(apply);
        case Report(report) => PerformReportCall(report);
      }
    }

    /** Books the step just performed: the offer the live object now makes and the history. */
    method Commit(a: Action, ghost before: State)
      requires Initial(start) && before == Run(start, history) && Enabled(a, before) && View() == Perform(a, before)
      modifies `everReady, `history
      ensures Valid() && history == old(history) + [a] && View() == Step(a, before)
    {
      var placement := live.status.placement;
      if placement.Some? && placement.value.sidecarNetwork.Some?
         && ReadyForAttachment(live, placement.value.sidecarNetwork.value)
      {
        everReady := everReady + {placement.value.sidecarNetwork.value};
      }
      RunConcat(start, history, [a]);
      assert [a][1..] == [] && Run(Step(a, before), []) == Step(a, before);
      history := history + [a];
    }

    /** One controller step, without interference. */
    method Call(a: Action)
      requires Valid() && Enabled(a, View()) && !a.Environment?
      modifies this
      ensures Valid() && history == old(history) + [a] && View() == Step(a, old(View()))
      ensures Leads(a, phase) && (a != Gate(Protocol.Fetch) ==> dbSync.spec == old(dbSync.spec))
    {
      ghost var before := View();
      PerformLeads(a, before);
      PerformCall(a);
      Commit(a, before);
    }

    /** The user, Kubernetes or the CardanoNetwork controller does one thing. */
    method Suffer(e: EnvironmentAction)
      requires Valid()
      modifies this
      ensures Valid() && history == old(history) + [Environment(e)] && View() == Step(Environment(e), old(View()))
      ensures phase == old(phase) && dbSync == old(dbSync)
    {
      ghost var before := View();
      DisturbLeavesTheReconcile(e, before);
      Become(Disturb(e, View()));
      Commit(Environment(e), before);
    }

    /** The cluster changes under the reconcile: first what belongs to db-sync, then the rest. */
    method Become(s: State)
      requires s.work == View().work && s.phase == phase && s.everReady == everReady && s.generated == generated
      modifies `live, `statePVC, `configMap, `pgPass, `deployment, `dedicatedRunning, `postgresPVC,
               `postgresDeployment, `secrets, `templates, `sidecarPods
      ensures View() == s
    {
      BecomeWorkload(s);
      BecomeSurroundings(s);
    }

    method BecomeWorkload(s: State)
      modifies `live, `statePVC, `configMap, `pgPass, `deployment, `dedicatedRunning
      ensures live == s.live && statePVC == s.statePVC && configMap == s.configMap && pgPass == s.pgPass
      ensures deployment == s.deployment && dedicatedRunning == s.dedicatedRunning
    {
      live, statePVC, configMap, pgPass := s.live, s.statePVC, s.configMap, s.pgPass;
      deployment, dedicatedRunning := s.deployment, s.dedicatedRunning;
    }

    method BecomeSurroundings(s: State)
      modifies `postgresPVC, `postgresDeployment, `secrets, `templates, `sidecarPods
      ensures postgresPVC == s.postgresPVC && postgresDeployment == s.postgresDeployment && secrets == s.secrets
      ensures templates == s.templates && sidecarPods == s.sidecarPods
    {
      postgresPVC, postgresDeployment, secrets := s.postgresPVC, s.postgresDeployment, s.secrets;
      templates, sidecarPods := s.templates, s.sidecarPods;
    }

    /** Any number of things happen before the reconcile's next call. */
    method Interfere()
      requires Valid()
      modifies this
      ensures Advanced() && phase == old(phase) && dbSync == old(dbSync)
    {
      var n: nat := *;
      while n > 0
        invariant Valid() && old(history) <= history && phase == old(phase) && dbSync == old(dbSync)
      {
        var e: EnvironmentAction := *;
        Suffer(e);
        n := n - 1;
      }
    }

    /** Things happen, and then the next call goes through or fails; a failed call ends the reconcile. */
    method Take(a: Action) returns (ok: bool)
      requires Valid() && Enabled(a, View()) && !a.Environment? && phase != Idle
      modifies this
      ensures Advanced() && if ok then Leads(a, phase) else phase == Idle
    {
      ghost var before := View();
      Interfere();
      ok := *;
      StillEnabled(a, before, View());
      Call(if ok then a else Report(Fail));
    }

    // -----------------------------------------------------------------------------------------
    // The reconcile

    /** `handleDBSyncWorkloadApplyError`: suspend the workload, report, stop. */
    method HandleDBSyncWorkloadApplyError()
      requires Valid() && phase == Blocked
      modifies this
      ensures Advanced() && phase == Idle
    {
      var ok := Take(Report(SuspendBlocked));
      if ok {
        ok := Take(Report(PatchBlocked));
      }
    }

    /** A call whose refusal is reported. */
    method TakeOrReport(a: Action) returns (ok: bool)
      requires Valid() && Enabled(a, View()) && !a.Environment? && phase != Idle
      modifies this
      ensures Advanced() && if ok then Leads(a, phase) && phase != Blocked && phase != Idle else phase == Idle
    {
      ok := Take(a);
      if phase == Blocked {
        HandleDBSyncWorkloadApplyError();
      }
      ok := phase != Idle;
    }

    /** `resolveDatabase`. */
    method ResolveDatabase(inputs: Inputs) returns (ok: bool)
      requires Valid() && phase == Placed && !DataProblem(inputs.newPassword)
      modifies this
      ensures Advanced() && phase == if ok then Resolved else Idle
    {
      hide Valid, Run, Initial;
      if dbSync.spec.database.External? {
        var password := ValidateExternalDatabaseSecret(inputs.externalRef, inputs.externalSecret);
        ok := TakeOrReport(Credential(ResolveExternal(if password.Some? then password.value else "")));
      } else if dbSync.spec.database.authSecretRef.Some? {
        ok := TakeOrReport(Credential(ResolveProvided));
      } else {
        ok := TakeOrReport(Credential(ReadGeneratedSecret(inputs.newPassword)));
        if phase == SecretSeen {
          ok := TakeOrReport(Credential(PatchGeneratedSecret(inputs.drift)));
        }
      }
    }

    /** `reconcileManagedPostgresResources` and what its callers do with the condition it returns. */
    method ReconcileManagedPostgresResources(ready: bool) returns (ok: bool)
      requires Valid() && phase == HandedOff && dbSync.spec.database.Managed?
      modifies this
      ensures Advanced() && phase == if ok then ReadyToApply else Idle
    {
      hide Valid, Run, Initial;
      ok := TakeOrReport(Apply(ApplyPostgresPVC));
      if !ok { return; }
      ok := TakeOrReport(Apply(ApplyPostgresDeployment));
      if !ok { return; }
      ok := TakeOrReport(Apply(CheckPostgresReady(ready)));
      if ok && !ready {
        var _ := Take(Report(PatchPostgresPending));
        ok := false;
      }
    }

    /** The applies both placements begin with: config, pgpass, state PVC. */
    method ApplyMaterial() returns (ok: bool)
      requires Valid() && Enabled(Apply(ApplyConfigMap), View()) && phase != Idle
      modifies this
      ensures Advanced() && phase == if ok then StatePVCApplied else Idle
    {
      hide Valid, Run, Initial;
      ok := TakeOrReport(Apply(ApplyConfigMap));
      if !ok { return; }
      ok := TakeOrReport(Apply(ApplyPGPass));
      if !ok { return; }
      ok := TakeOrReport(Apply(ApplyStatePVC));
    }

    /** The live status reports what the reconcile applied, and the state PVC carries it. */
    predicate Published()
      reads this
    {
      && live.status == AppliedStatus(dbSync)
      && statePVC == Some(StatePVC(ThisDBSync, Digest(DesiredIdentity(dbSync.spec)), Some(EffectiveMode(dbSync.spec))))
    }

    /** `patchWorkloadsAppliedStatus` or `patchPrimarySidecarResourcesAppliedStatus`, the last call. */
    method Publish() returns (ok: bool)
      requires Valid() && Enabled(Report(PatchApplied), View())
      modifies this
      ensures Advanced() && phase == Idle && (ok ==> Published())
    {
      ghost var before := View();
      Interfere();
      ok := *;
      StillEnabled(Report(PatchApplied), before, View());
      AppliedMeansLocked(start, history);
      Call(if ok then Report(PatchApplied) else Report(Fail));
    }

    /** `applyDBSyncWorkloadResources` and the status patch. */
    method ApplyDBSyncWorkloadResources() returns (ok: bool)
      requires Valid() && Enabled(Apply(ApplyConfigMap), View()) && phase != Idle
      requires EffectiveMode(dbSync.spec) != PrimarySidecar
      modifies this
      ensures Advanced() && phase == Idle && (ok ==> Published())
    {
      hide Valid, Run, Initial;
      ok := ApplyMaterial();
      if !ok { return; }
      ok := TakeOrReport(Apply(ApplyDeployment));
      if !ok { return; }
      ok := Publish();
    }

    /** `applyPrimarySidecarDBSyncResources` and the status patch that publishes the material. */
    method ApplyPrimarySidecarDBSyncResources() returns (ok: bool)
      requires Valid() && Enabled(Apply(ApplyConfigMap), View()) && phase != Idle
      requires EffectiveMode(dbSync.spec) == PrimarySidecar
      modifies this
      ensures Advanced() && phase == Idle && (ok ==> Published())
    {
      ok := ApplyMaterial();
      if !ok { return; }
      ok := Publish();
    }

    /** The three gates in their order. */
    method PassGates() returns (ok: bool)
      requires Valid() && phase == Resolved
      modifies this
      ensures Advanced() && phase == if ok then PlacementGated else Idle
    {
      hide Valid, Run, Initial;
      ok := TakeOrReport(Gate(GatePostgres));
      if !ok { return; }
      ok := TakeOrReport(Gate(GateIdentity));
      if !ok { return; }
      ok := TakeOrReport(Gate(GatePlacement));
    }

    /** The dedicated branch waits for the sidecar; the sidecar branch suspends the Deployment and waits
        for its Pods. */
    method HandOff() returns (ok: bool)
      requires Valid() && phase == PlacementGated
      modifies this
      ensures Advanced() && phase == if ok then HandedOff else Idle
    {
      hide Valid, Run, Initial;
      if EffectiveMode(dbSync.spec) == PrimarySidecar {
        ok := TakeOrReport(Handoff(SuspendForHandoff));
        if !ok { return; }
        ok := TakeOrReport(Handoff(CheckDedicatedPodsGone));
      } else {
        ok := TakeOrReport(Handoff(CheckSidecarGone));
      }
      if phase == Waiting {
        var _ := Take(Report(PatchWaiting));
        ok := false;
      }
    }

    /** `reconcileWorkloads` and `reconcilePrimarySidecarWorkloads`. */
    method ReconcileWorkloads(inputs: Inputs) returns (ok: bool)
      requires Valid() && phase == Resolved
      modifies this
      ensures Advanced() && phase == Idle && (ok ==> Published())
    {
      hide Valid, Run, Initial;
      ok := PassGates();
      if !ok { return; }
      ok := HandOff();
      if !ok { return; }
      if dbSync.spec.database.Managed? {
        ok := ReconcileManagedPostgresResources(inputs.postgresReady);
        if !ok { return; }
      }
      if EffectiveMode(dbSync.spec) == PrimarySidecar {
        ok := ApplyPrimarySidecarDBSyncResources();
      } else {
        ok := ApplyDBSyncWorkloadResources();
      }
    }

    /** `Reconcile`, from the fetch to the return. The checks of the referenced network, which only ever
        send the reconcile onto the blocked path, are the input `networkReady`. */
    method Reconcile(inputs: Inputs) returns (applied: bool)
      requires Valid() && phase == Idle && !DataProblem(inputs.newPassword) && Claims.Distinct(inputs.listed)
      modifies this
      ensures Valid() && phase == Idle && old(history) <= history
      ensures applied ==> Published()
    {
      hide Valid, Run, Initial;
      Interfere();
      applied := false;
      Call(Gate(Protocol.Fetch));
      var passes := FanOut.PassesPlacement(inputs.self, inputs.listed, dbSync.spec.network);
      var ok := TakeOrReport(Gate(CheckPlacement(passes)));
      if !ok { return; }
      ok := ResolveDatabase(inputs);
      if !ok { return; }
      if inputs.networkReady {
        applied := ReconcileWorkloads(inputs);
      } else {
        ok := TakeOrReport(Report(Block));
      }
    }

    /** What every sequence of reconciles and interferences keeps, whatever the inputs: no dedicated
        Pod beside a sidecar, sidecars of one network only, and a state PVC that never changes once
        this object owns it. */
    method ReconcileAll(inputs: seq<Inputs>)
      requires Valid() && phase == Idle
      requires forall i :: 0 <= i < |inputs| ==> !DataProblem(inputs[i].newPassword) && Claims.Distinct(inputs[i].listed)
      modifies this
      ensures Valid() && phase == Idle && old(history) <= history
      ensures dedicatedRunning ==> forall network :: !SidecarPresent(View(), network)
      ensures forall m, n :: SidecarPresent(View(), m) && SidecarPresent(View(), n) ==> m == n
      ensures old(Locked(View())) ==> statePVC == old(statePVC)
    {
      for i := 0 to |inputs|
        invariant Valid() && phase == Idle && old(history) <= history
      {
        var _ := Reconcile(inputs[i]);
      }
      PlacementExclusion(start, history);
      if old(Locked(View())) {
        PinHoldsSince(start, old(history), history);
      }
    }
  }

  /** The pin between two points of one history. */
  lemma PinHoldsSince(start: State, before: seq<Action>, after: seq<Action>)
    requires Initial(start) && before <= after && Locked(Run(start, before))
    ensures Run(start, after).statePVC == Run(start, before).statePVC
  {
    InitialHoldsLock(start);
    RunKeepsLock(start, before);
    assert after == before + after[|before|..];
    RunConcat(start, before, after[|before|..]);
    PinIsWriteOnce(Run(start, before), after[|before|..]);
  }

  /** When only the report is left to do, the state PVC carries what the reconcile asked for. */
  lemma AppliedMeansLocked(start: State, history: seq<Action>)
    requires Initial(start)
    ensures var s := Run(start, history);
            ReportEnabled(PatchApplied, s) ==>
              s.statePVC == Some(StatePVC(ThisDBSync, Digest(DesiredIdentity(s.work.dbSync.spec)),
                                          Some(EffectiveMode(s.work.dbSync.spec))))
  {
    InitialHoldsLock(start);
    RunKeepsLock(start, history);
  }

  /** Whether a call is next depends on the reconcile alone. */
  lemma StillEnabled(a: Action, s: State, t: State)
    requires Enabled(a, s) && !a.Environment?
    requires t.phase == s.phase && t.work.dbSync == s.work.dbSync
    ensures Enabled(a, t)
  {
  }
}
