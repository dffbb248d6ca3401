/** What every run of the reconcile protocol keeps: the annotations of the state PVC are a
    write-once lock, and therefore a dedicated db-sync Pod and a db-sync sidecar of the same
    CardanoDBSync never exist together. */
module Placement {
  import opened Fingerprints
  import opened Planner
  import opened Protocol

  // -------------------------------------------------------------------------------------------
  // The invariant

  /** The state PVC carries this object's accepted identity and placement. */
  predicate Locked(s: State) {
    s.statePVC.Some? && s.statePVC.value.owner == ThisDBSync
  }

  predicate LockedTo(s: State, mode: Mode) {
    Locked(s) && s.statePVC.value.mode == Some(mode)
  }

  /** Locked for the sidecar of this very network. */
  predicate LockedToSidecarOf(s: State, network: string) {
    && LockedTo(s, PrimarySidecar)
    && s.statePVC.value.identity.Digest? && s.statePVC.value.identity.of.networkName == network
  }

  predicate LockWellFormed(s: State) {
    Locked(s) ==> s.statePVC.value.identity.Digest? && s.statePVC.value.mode.Some?
  }

  /** A status may repeat the locked placement, and offers material only under a sidecar lock. */
  predicate StatusAgrees(s: State, status: Status) {
    && (Locked(s) && status.acceptedMode.Some? ==> status.acceptedMode == s.statePVC.value.mode)
    && (status.placement.Some? && status.placement.value.sidecarNetwork.Some? ==>
          LockedToSidecarOf(s, status.placement.value.sidecarNetwork.value))
  }

  predicate WorkloadsAgree(s: State) {
    && (s.deployment.Some? && s.deployment.value.owner == ThisDBSync ==>
          LockedTo(s, DedicatedFollower) && s.deployment.value.identity == s.statePVC.value.identity)
    && (s.dedicatedRunning ==> LockedTo(s, DedicatedFollower))
    && (forall network :: network in s.everReady ==> LockedToSidecarOf(s, network))
    && (forall sidecar :: sidecar in s.templates + s.sidecarPods && sidecar.ours ==> sidecar.network in s.everReady)
  }

  predicate PastPlacementGate(phase: Phase) {
    || phase == PlacementGated || phase == HandoffSuspended || phase == HandedOff
    || phase == PostgresPVCApplied || phase == PostgresApplied || phase == PostgresPending
    || phase == ReadyToApply || phase == ConfigMapApplied || phase == PGPassApplied
    || phase == StatePVCApplied || phase == DeploymentApplied
  }

  predicate PastIdentityGate(phase: Phase) {
    phase == IdentityGated || PastPlacementGate(phase)
  }

  /** Between the placement gate and the end of the reconcile, off the blocked path. */
  predicate Proceeding(phase: Phase) {
    phase != Idle && phase != Fetched && phase != Blocked && phase != BlockedSuspended
  }

  /** Past both gates, the reconcile asks for exactly what the lock carries. */
  predicate WorkCarriesPin(s: State) {
    PastPlacementGate(s.phase) && Locked(s) ==>
      && s.statePVC.value.identity == Digest(DesiredIdentity(s.work.dbSync.spec))
      && s.statePVC.value.mode == Some(EffectiveMode(s.work.dbSync.spec))
  }

  /** What the in-flight reconcile may rely on. */
  predicate WorkAgrees(s: State) {
    var x := s.work.dbSync;
    && (s.phase != Idle ==> StatusAgrees(s, x.status))
    && (s.phase != Idle && s.live.status.acceptedMode.Some? ==> x.status.acceptedMode == s.live.status.acceptedMode)
    && (PastIdentityGate(s.phase) && Locked(s) ==> s.statePVC.value.identity == Digest(DesiredIdentity(x.spec)))
    && WorkCarriesPin(s)
    && (PastPlacementGate(s.phase) ==> x.status.acceptedMode.None? || x.status.acceptedMode == Some(EffectiveMode(x.spec)))
    && (s.phase == StatePVCApplied || s.phase == DeploymentApplied ==> Locked(s))
    && (Proceeding(s.phase) ==> EffectiveMode(x.spec) != UnknownMode)
  }

  predicate LockInvariant(s: State) {
    LockWellFormed(s) && StatusAgrees(s, s.live.status) && WorkloadsAgree(s) && WorkAgrees(s)
  }

  // -------------------------------------------------------------------------------------------
  // Every action keeps it

  lemma ObserveKeepsLock(s: State)
    requires LockInvariant(s)
    ensures LockInvariant(Observe(s))
  {
  }

  predicate MovesPods(e: EnvironmentAction) {
    || e.StartDedicatedPod? || e.StopDedicatedPods? || e.StartSidecarPod? || e.StopSidecarPods?
    || e.Attach? || e.AttachPeer? || e.Detach?
  }

  lemma PodsKeepLock(e: EnvironmentAction, s: State)
    requires LockInvariant(s) && MovesPods(e)
    ensures LockInvariant(Disturb(e, s))
  {
  }

  predicate EditsDeployment(e: EnvironmentAction) {
    e.DeleteDeployment? || e.PutForeignDeployment? || e.ScaleDeployment? || e.PutForeignStatePVC?
  }

  lemma DeploymentEditsKeepLock(e: EnvironmentAction, s: State)
    requires LockInvariant(s) && EditsDeployment(e)
    ensures LockInvariant(Disturb(e, s))
  {
  }

  /** The same to the lock invariant: at most spec, generation and mirror of the live object differ, and
      what the invariant does not look at. */
  predicate SameForLock(s: State, t: State) {
    && t.live.status.acceptedMode == s.live.status.acceptedMode && t.live.status.placement == s.live.status.placement
    && t.statePVC == s.statePVC && t.deployment == s.deployment && t.dedicatedRunning == s.dedicatedRunning
    && t.templates == s.templates && t.sidecarPods == s.sidecarPods && t.everReady == s.everReady
    && t.phase == s.phase && t.work == s.work
  }

  lemma SameKeepsLock(s: State, t: State)
    requires LockInvariant(s) && SameForLock(s, t)
    ensures LockInvariant(t)
  {
  }

  lemma OtherEditsAreTheSame(e: EnvironmentAction, s: State)
    requires !EditsDeployment(e) && !MovesPods(e)
    ensures SameForLock(s, Disturb(e, s))
  {
  }

  lemma DisturbKeepsLock(e: EnvironmentAction, s: State)
    requires LockInvariant(s)
    ensures LockInvariant(Disturb(e, s))
  {
    if MovesPods(e) { PodsKeepLock(e, s); }
    else if EditsDeployment(e) { DeploymentEditsKeepLock(e, s); }
    else { OtherEditsAreTheSame(e, s); SameKeepsLock(s, Disturb(e, s)); }
  }

  /** Nothing the lock invariant looks at changed, and the reconcile claims nothing new. */
  predicate Quiet(s: State, t: State) {
    && t.live == s.live && t.statePVC == s.statePVC && t.deployment == s.deployment
    && t.dedicatedRunning == s.dedicatedRunning && t.templates == s.templates && t.sidecarPods == s.sidecarPods
    && t.everReady == s.everReady && t.work.dbSync == s.work.dbSync
    && (t.phase != Idle ==> s.phase != Idle)
    && (PastIdentityGate(t.phase) ==> PastIdentityGate(s.phase))
    && (PastPlacementGate(t.phase) ==> PastPlacementGate(s.phase))
    && (t.phase == StatePVCApplied || t.phase == DeploymentApplied ==> t.phase == s.phase)
    && (Proceeding(t.phase) ==> Proceeding(s.phase))
  }

  lemma QuietKeepsLock(s: State, t: State)
    requires LockInvariant(s) && Quiet(s, t)
    ensures LockInvariant(t)
  {
  }

  lemma FetchKeepsLock(s: State)
    requires LockInvariant(s) && s.phase == Idle
    ensures LockInvariant(PerformGate(Fetch, s))
  {
  }

  lemma CheckPlacementKeepsLock(s: State, incumbent: bool)
    requires LockInvariant(s) && s.phase == Fetched
    ensures LockInvariant(CheckPlacementStep(s, incumbent))
  {
    var t := CheckPlacementStep(s, incumbent);
    assert t == Goto(s, Placed) || t == Goto(s, Blocked);
    assert WorkCarriesPin(t) && WorkAgrees(t);
  }

  lemma GateIdentityKeepsLock(s: State)
    requires LockInvariant(s) && s.phase == PostgresGated
    ensures LockInvariant(GateIdentityStep(s))
  {
  }

  lemma GatePlacementKeepsLock(s: State)
    requires LockInvariant(s) && s.phase == IdentityGated
    ensures LockInvariant(GatePlacementStep(s))
  {
  }

  lemma GatesKeepLock(a: GateAction, s: State)
    requires LockInvariant(s) && GateEnabled(a, s)
    ensures LockInvariant(PerformGate(a, s))
  {
    match a
    case Fetch => FetchKeepsLock(s);
    case CheckPlacement(incumbent) => CheckPlacementKeepsLock(s, incumbent);
    case GatePostgres => QuietKeepsLock(s, GatePostgresStep(s));
    case GateIdentity => GateIdentityKeepsLock(s);
    case GatePlacement => GatePlacementKeepsLock(s);
  }

  lemma ReadGeneratedSecretIsQuiet(s: State, newPassword: string)
    requires s.phase == Placed && s.work.dbSync.spec.database.Managed?
    ensures Quiet(s, ReadGeneratedSecretStep(s, newPassword))
  {
  }

  lemma PatchGeneratedSecretIsQuiet(s: State, drift: bool)
    requires s.phase == SecretSeen
    ensures Quiet(s, PatchGeneratedSecretStep(s, drift))
  {
  }

  lemma ResolvingIsQuiet(a: CredentialAction, s: State)
    requires CredentialEnabled(a, s) && (a.ResolveExternal? || a.ResolveProvided?)
    ensures Quiet(s, PerformCredential(a, s))
  {
  }

  lemma CredentialsAreQuiet(a: CredentialAction, s: State)
    requires CredentialEnabled(a, s)
    ensures Quiet(s, PerformCredential(a, s))
  {
    hide Quiet, ReadGeneratedSecretStep, PatchGeneratedSecretStep;
    match a
    case ResolveExternal(_) => ResolvingIsQuiet(a, s);
    case ResolveProvided => ResolvingIsQuiet(a, s);
    case ReadGeneratedSecret(newPassword) => ReadGeneratedSecretIsQuiet(s, newPassword);
    case PatchGeneratedSecret(drift) => PatchGeneratedSecretIsQuiet(s, drift);
  }

  lemma HandoffKeepsLock(a: HandoffAction, s: State)
    requires LockInvariant(s) && HandoffEnabled(a, s)
    ensures LockInvariant(PerformHandoff(a, s))
  {
  }

  lemma ApplyStatePVCKeepsLock(s: State)
    requires LockInvariant(s) && s.phase == PGPassApplied
    ensures LockInvariant(ApplyStatePVCStep(s))
  {
  }

  lemma ApplyDeploymentKeepsLock(s: State)
    requires LockInvariant(s) && s.phase == StatePVCApplied && Dedicated(s)
    ensures LockInvariant(ApplyDeploymentStep(s))
  {
  }

  lemma OtherAppliesAreQuiet(a: ApplyAction, s: State)
    requires ApplyEnabled(a, s) && !a.ApplyStatePVC? && !a.ApplyDeployment?
    ensures Quiet(s, PerformApply(a, s))
  {
  }

  lemma AppliesKeepLock(a: ApplyAction, s: State)
    requires LockInvariant(s) && ApplyEnabled(a, s)
    ensures LockInvariant(PerformApply(a, s))
  {
    match a
    case ApplyStatePVC => ApplyStatePVCKeepsLock(s);
    case ApplyDeployment => ApplyDeploymentKeepsLock(s);
    case _ =>
      OtherAppliesAreQuiet(a, s);
      QuietKeepsLock(s, PerformApply(a, s));
  }

  lemma PatchesKeepLock(a: ReportAction, s: State)
    requires LockInvariant(s) && ReportEnabled(a, s)
    requires a.PatchApplied? || a.PatchWaiting? || a.PatchPostgresPending? || a.PatchBlocked?
    ensures LockInvariant(PerformReport(a, s))
  {
  }

  lemma LeavingIsQuiet(a: ReportAction, s: State)
    requires ReportEnabled(a, s) && (a.Block? || a.Fail?)
    ensures Quiet(s, PerformReport(a, s))
  {
  }

  lemma SuspendingKeepsLock(s: State)
    requires LockInvariant(s) && s.phase == Blocked
    ensures LockInvariant(s.(phase := BlockedSuspended, deployment := Suspend(s.deployment)))
  {
  }

  lemma ReportsKeepLock(a: ReportAction, s: State)
    requires LockInvariant(s) && ReportEnabled(a, s)
    ensures LockInvariant(PerformReport(a, s))
  {
    match a
    case Block =>
      LeavingIsQuiet(a, s);
      QuietKeepsLock(s, PerformReport(a, s));
    case Fail =>
      LeavingIsQuiet(a, s);
      QuietKeepsLock(s, PerformReport(a, s));
    case SuspendBlocked => SuspendingKeepsLock(s);
    case _ => PatchesKeepLock(a, s);
  }

  lemma StepKeepsLock(a: Action, s: State)
    requires LockInvariant(s)
    ensures LockInvariant(Step(a, s))
  {
    if Enabled(a, s) {
      PerformKeepsLock(a, s);
      ObserveKeepsLock(Perform(a, s));
    }
  }

  lemma PerformKeepsLock(a: Action, s: State)
    requires LockInvariant(s) && Enabled(a, s)
    ensures LockInvariant(Perform(a, s))
  {
    match a
    case Gate(gate) => GatesKeepLock(gate, s);
    case Credential(credential) =>
      CredentialsAreQuiet(credential, s);
      QuietKeepsLock(s, PerformCredential(credential, s));
    case Handoff(handoff) => HandoffKeepsLock(handoff, s);
    case Apply(apply) => AppliesKeepLock(apply, s);
    case Report(report) => ReportsKeepLock(report, s);
    case Environment(environment) => DisturbKeepsLock(environment, s);
  }

  lemma InitialHoldsLock(s: State)
    requires Initial(s)
    ensures LockInvariant(s)
  {
  }

  lemma {:induction false} RunKeepsLock(s: State, actions: seq<Action>)
    requires LockInvariant(s)
    ensures LockInvariant(Run(s, actions))
    decreases actions
  {
    if actions != [] {
      StepKeepsLock(actions[0], s);
      RunKeepsLock(Step(actions[0], s), actions[1..]);
    }
  }

  // -------------------------------------------------------------------------------------------
  // Main results

  /** A db-sync sidecar of this object is in the Pod template or in a running Pod of `network`. */
  predicate SidecarPresent(s: State, network: string) {
    Sidecar(network, true) in s.templates + s.sidecarPods
  }

  /** Placement exclusion over every run: never a dedicated Pod and a sidecar, and never sidecars in
      two networks, whatever the user edits, wherever reconciles stop, and however old the offer on
      which the CardanoNetwork controller acts. */
  lemma PlacementExclusion(s: State, actions: seq<Action>)
    requires Initial(s)
    ensures var t := Run(s, actions);
            && (t.dedicatedRunning ==> forall network :: !SidecarPresent(t, network))
            && (forall m, n :: SidecarPresent(t, m) && SidecarPresent(t, n) ==> m == n)
  {
    InitialHoldsLock(s);
    RunKeepsLock(s, actions);
  }

  /** Nothing but its own apply writes the locked PVC; config and pgpass may also be deleted, or be put in
      place by another owner. */
  predicate Untouched(s: State, t: State) {
    && (Locked(s) ==> t.statePVC == s.statePVC)
    && (t.configMap == s.configMap || t.configMap.None? || t.configMap.value.owner == OtherOwner)
    && (t.pgPass == s.pgPass || t.pgPass.None? || t.pgPass.value.owner == OtherOwner)
  }

  lemma CredentialsLeaveMaterial(a: CredentialAction, s: State)
    requires CredentialEnabled(a, s)
    ensures Untouched(s, PerformCredential(a, s))
  {
  }

  lemma PerformLeavesMaterial(a: Action, s: State)
    requires Enabled(a, s)
    requires a != Apply(ApplyStatePVC) && a != Apply(ApplyConfigMap) && a != Apply(ApplyPGPass)
    ensures Untouched(s, Perform(a, s))
  {
    match a
    case Gate(_) =>
    case Credential(credential) => CredentialsLeaveMaterial(credential, s);
    case Handoff(_) =>
    case Apply(_) =>
    case Report(_) =>
    case Environment(_) =>
  }

  lemma StepLeavesMaterial(a: Action, s: State)
    requires a != Apply(ApplyStatePVC) && a != Apply(ApplyConfigMap) && a != Apply(ApplyPGPass)
    ensures Untouched(s, Step(a, s))
  {
    if Enabled(a, s) {
      PerformLeavesMaterial(a, s);
    }
  }

  /** The lock is write-once: no step of a reachable run changes the annotations it carries. */
  lemma StepKeepsPin(a: Action, s: State)
    requires Locked(s) && WorkCarriesPin(s)
    ensures Step(a, s).statePVC == s.statePVC
  {
    if a != Apply(ApplyStatePVC) && a != Apply(ApplyConfigMap) && a != Apply(ApplyPGPass) {
      StepLeavesMaterial(a, s);
    }
  }

  lemma {:induction false} PinIsWriteOnce(s: State, actions: seq<Action>)
    requires LockInvariant(s) && Locked(s)
    ensures Run(s, actions).statePVC == s.statePVC
    decreases actions
  {
    if actions != [] {
      StepKeepsLock(actions[0], s);
      StepKeepsPin(actions[0], s);
      PinIsWriteOnce(Step(actions[0], s), actions[1..]);
    }
  }

  /** Config and pgpass material written between `s` and `t` carries the pinned identity and mode. */
  predicate MaterialCarriesPin(s: State, t: State)
    requires Locked(s)
  {
    var pin := s.statePVC.value;
    && (t.configMap != s.configMap && t.configMap.Some? && t.configMap.value.owner == ThisDBSync ==>
          Digest(t.configMap.value.identity) == pin.identity && Some(t.configMap.value.mode) == pin.mode)
    && (t.pgPass != s.pgPass && t.pgPass.Some? && t.pgPass.value.owner == ThisDBSync ==>
          Digest(t.pgPass.value.identity) == pin.identity && Some(t.pgPass.value.mode) == pin.mode)
  }

  /** The workload and the offers of `t` carry the pin: an owned Deployment only under a dedicated
      lock, material offered only to the pinned network under a sidecar lock. */
  ghost predicate WorkloadsCarryPin(t: State)
    requires Locked(t)
  {
    var pin := t.statePVC.value;
    && (t.deployment.Some? && t.deployment.value.owner == ThisDBSync ==>
          t.deployment.value.identity == pin.identity && pin.mode == Some(DedicatedFollower))
    && (forall network :: ReadyForAttachment(t.live, network) ==>
          pin.identity.Digest? && pin.identity.of.networkName == network && pin.mode == Some(PrimarySidecar))
  }

  /** The identity pin over every run: once the state PVC carries an identity, no step changes it,
      and every config, pgpass, PVC and Deployment apply and every offer carries it. */
  lemma IdentityPin(s: State, actions: seq<Action>, a: Action)
    requires Initial(s) && Locked(Run(s, actions))
    ensures var before, after := Run(s, actions), Step(a, Run(s, actions));
            && after.statePVC == before.statePVC
            && MaterialCarriesPin(before, after)
            && WorkloadsCarryPin(after)
  {
    InitialHoldsLock(s);
    RunKeepsLock(s, actions);
    var before := Run(s, actions);
    StepKeepsLock(a, before);
    StepKeepsPin(a, before);
    StepMaterialCarriesPin(a, before);
  }

  lemma StepMaterialCarriesPin(a: Action, s: State)
    requires Locked(s) && WorkCarriesPin(s)
    ensures MaterialCarriesPin(s, Step(a, s))
  {
    if a != Apply(ApplyStatePVC) && a != Apply(ApplyConfigMap) && a != Apply(ApplyPGPass) {
      StepLeavesMaterial(a, s);
    }
  }
}
