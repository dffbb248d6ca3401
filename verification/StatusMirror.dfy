/** `status.database.acceptedIdentityFingerprint` is documented as a mirror that takes no part in
    the acceptance decisions. The identity gate keeps that promise and repairs the mirror; the
    placement gate does not, and this module says exactly when. */
module StatusMirror {
  import opened Fingerprints
  import opened Planner
  import opened Protocol
  import opened Placement

  // -------------------------------------------------------------------------------------------
  // The identity gate

  function WithMirror(s: State, text: Fingerprint<DatabaseIdentity>): State {
    var x := s.work.dbSync;
    s.(work := s.work.(dbSync := x.(status := x.status.(acceptedIdentity := text))))
  }

  /** Whatever text the mirror holds, the gate takes the same branch; once an identity is accepted
      the outcome is the same down to the repaired mirror. */
  lemma IdentityGateIgnoresMirror(s: State, text: Fingerprint<DatabaseIdentity>)
    ensures GateIdentityStep(WithMirror(s, text)).phase == GateIdentityStep(s).phase
    ensures AcceptedIdentity(s.statePVC) != Unset ==>
              && GateIdentityStep(WithMirror(s, text)) == GateIdentityStep(s)
              && GateIdentityStep(s).work.dbSync.status.acceptedIdentity == AcceptedIdentity(s.statePVC)
  {
  }

  /** The phases in which the reconcile still holds the mirror it repaired at the identity gate. */
  predicate HoldsMirror(phase: Phase) {
    (PastIdentityGate(phase) && phase != StatePVCApplied && phase != DeploymentApplied) || phase == Waiting
  }

  /** Past the identity gate of a locked object, the reconcile's copy of the mirror is the pin. */
  predicate MirrorRepaired(s: State) {
    HoldsMirror(s.phase) && Locked(s) ==> s.work.dbSync.status.acceptedIdentity == s.statePVC.value.identity
  }

  lemma {:induction false} RunKeepsMirror(s: State, actions: seq<Action>)
    requires LockInvariant(s) && MirrorRepaired(s)
    ensures LockInvariant(Run(s, actions)) && MirrorRepaired(Run(s, actions))
    decreases actions
  {
    if actions != [] {
      StepKeepsLock(actions[0], s);
      StepKeepsMirror(actions[0], s);
      RunKeepsMirror(Step(actions[0], s), actions[1..]);
    }
  }

  lemma StepKeepsMirror(a: Action, s: State)
    requires LockWellFormed(s) && MirrorRepaired(s)
    ensures MirrorRepaired(Step(a, s))
  {
    if Enabled(a, s) {
      PerformKeepsMirror(a, s);
      ObserveKeepsMirror(Perform(a, s));
    }
  }

  lemma ObserveKeepsMirror(s: State)
    requires MirrorRepaired(s)
    ensures MirrorRepaired(Observe(s))
  {
  }

  lemma PerformKeepsMirror(a: Action, s: State)
    requires LockWellFormed(s) && MirrorRepaired(s) && Enabled(a, s)
    ensures MirrorRepaired(Perform(a, s))
  {
    match a
    case Gate(gate) => GatesKeepMirror(gate, s);
    case Credential(credential) => CredentialsPrecedeGates(credential, s);
    case Handoff(_) =>
    case Apply(apply) => AppliesKeepMirror(apply, s);
    case Report(report) => ReportsKeepMirror(report, s);
    case Environment(environment) => DisturbKeepsMirror(environment, s);
  }

  lemma GatesKeepMirror(a: GateAction, s: State)
    requires LockWellFormed(s) && MirrorRepaired(s) && GateEnabled(a, s)
    ensures MirrorRepaired(PerformGate(a, s))
  {
  }

  lemma ReportsKeepMirror(a: ReportAction, s: State)
    requires MirrorRepaired(s) && ReportEnabled(a, s)
    ensures MirrorRepaired(PerformReport(a, s))
  {
  }

  lemma DisturbKeepsMirror(e: EnvironmentAction, s: State)
    requires MirrorRepaired(s)
    ensures MirrorRepaired(Disturb(e, s))
  {
  }

  lemma AppliesKeepMirror(a: ApplyAction, s: State)
    requires LockWellFormed(s) && MirrorRepaired(s) && ApplyEnabled(a, s)
    ensures MirrorRepaired(PerformApply(a, s))
  {
  }

  lemma CredentialsPrecedeGates(a: CredentialAction, s: State)
    requires CredentialEnabled(a, s)
    ensures !HoldsMirror(PerformCredential(a, s).phase)
  {
  }

  /** Over every run: each status patch of a reconcile that came past the identity gate, on the
      success, the waiting and the Postgres-pending path, leaves the pin in the live mirror, whatever
      a user wrote there and whenever. */
  lemma PatchesRepairMirror(s: State, actions: seq<Action>, a: ReportAction)
    requires Initial(s) && Locked(Run(s, actions)) && ReportEnabled(a, Run(s, actions))
    requires a.PatchApplied? || a.PatchWaiting? || a.PatchPostgresPending?
    ensures Step(Report(a), Run(s, actions)).live.status.acceptedIdentity == Run(s, actions).statePVC.value.identity
  {
    InitialHoldsLock(s);
    RunKeepsMirror(s, actions);
    var t := Run(s, actions);
    if a.PatchApplied? {
      assert t.statePVC.value.identity == Digest(DesiredIdentity(t.work.dbSync.spec));
    }
  }

  // -------------------------------------------------------------------------------------------
  // The placement gate

  /** The gate lets the reconcile of `x` through. */
  predicate PlacementAccepted(s: State, x: DBSync) {
    AcceptedMode(s, x).None? || AcceptedMode(s, x).value == EffectiveMode(x.spec)
  }

  function EditMirror(x: DBSync, text: Fingerprint<DatabaseIdentity>): DBSync {
    x.(status := x.status.(acceptedIdentity := text))
  }

  /** An edit of the mirror changes the placement decision exactly when nothing is locked yet, no
      accepted mode is in the status, the edit turns an empty mirror into a non-empty one or back, and
      the workload shape or the last published placement speaks for another mode than the wanted one. */
  lemma MirrorDecidesPlacementIff(s: State, x: DBSync, text: Fingerprint<DatabaseIdentity>)
    requires LockInvariant(s)
    ensures PlacementAccepted(s, x) != PlacementAccepted(s, EditMirror(x, text)) <==>
              && !Locked(s) && x.status.acceptedMode.None?
              && (x.status.acceptedIdentity == Unset) != (text == Unset)
              && InferredMode(s, x).Some? && InferredMode(s, x).value != EffectiveMode(x.spec)
  {
  }

  /** State that carries an identity but no placement, as written before placements were recorded: the
      gate goes by the workload shape, then by the last published placement, whatever the mirror says. */
  lemma LegacyStateGoesByItsShape(s: State, x: DBSync, text: Fingerprint<DatabaseIdentity>)
    requires AcceptedIdentity(s.statePVC) != Unset && AcceptedModeOnPVC(s.statePVC).None? && x.status.acceptedMode.None?
    ensures PlacementAccepted(s, EditMirror(x, text)) <==>
              InferredMode(s, x).None? || InferredMode(s, x).value == EffectiveMode(x.spec)
  {
  }
}
