/** More consequences of the protocol's order of calls: only an incumbent ever offers material, what is
    published can be attached unless the spec has moved on, and a suspended workload stays down. */
module Incumbency {
  import opened Fingerprints
  import opened Protocol

  // -------------------------------------------------------------------------------------------
  // Only an incumbent publishes

  /** Past the placement check, off the blocked path. */
  predicate PastCheck(phase: Phase) {
    phase != Idle && phase != Fetched && phase != Blocked && phase != BlockedSuspended
  }

  /** The object was never the incumbent: it offers nothing and no sidecar reconcile is past the check. */
  predicate NeverIncumbent(s: State) {
    && s.everReady == {} && !s.live.status.material.ready
    && (PastCheck(s.phase) ==> Dedicated(s))
  }

  /** The reconcile comes no further past the check than it was, and nothing is published. */
  predicate Unpublished(s: State, t: State) {
    && t.everReady == s.everReady && t.live.status == s.live.status
    && t.work.dbSync.spec == s.work.dbSync.spec && (PastCheck(t.phase) ==> PastCheck(s.phase))
  }

  lemma CredentialsPublishNothing(a: CredentialAction, s: State)
    requires CredentialEnabled(a, s)
    ensures Unpublished(s, PerformCredential(a, s))
  {
  }

  lemma AppliesPublishNothing(a: ApplyAction, s: State)
    requires ApplyEnabled(a, s)
    ensures Unpublished(s, PerformApply(a, s))
  {
  }

  lemma GatesKeepNeverIncumbent(a: GateAction, s: State)
    requires NeverIncumbent(s) && GateEnabled(a, s) && a != CheckPlacement(true)
    ensures NeverIncumbent(PerformGate(a, s))
  {
  }

  lemma ReportsKeepNeverIncumbent(a: ReportAction, s: State)
    requires NeverIncumbent(s) && ReportEnabled(a, s)
    ensures NeverIncumbent(PerformReport(a, s))
  {
  }

  lemma DisturbKeepsNeverIncumbent(e: EnvironmentAction, s: State)
    requires NeverIncumbent(s)
    ensures NeverIncumbent(Disturb(e, s))
  {
  }

  lemma StepKeepsNeverIncumbent(a: Action, s: State)
    requires NeverIncumbent(s) && a != Gate(CheckPlacement(true))
    ensures NeverIncumbent(Step(a, s))
  {
    if Enabled(a, s) {
      match a
      case Gate(gate) => GatesKeepNeverIncumbent(gate, s);
      case Credential(credential) => CredentialsPublishNothing(credential, s);
      case Handoff(_) =>
      case Apply(apply) => AppliesPublishNothing(apply, s);
      case Report(report) => ReportsKeepNeverIncumbent(report, s);
      case Environment(environment) => DisturbKeepsNeverIncumbent(environment, s);
    }
  }

  /** An object that is never found to be the incumbent never offers material to any network, so no
      sidecar is ever attached for it. */
  lemma {:induction false} OnlyIncumbentsPublish(s: State, actions: seq<Action>)
    requires NeverIncumbent(s) && Gate(CheckPlacement(true)) !in actions
    ensures NeverIncumbent(Run(s, actions))
    ensures forall network :: !ReadyForAttachment(Run(s, actions).live, network)
    decreases actions
  {
    if actions != [] {
      StepKeepsNeverIncumbent(actions[0], s);
      OnlyIncumbentsPublish(Step(actions[0], s), actions[1..]);
    }
  }

  /** The status written at the end of a reconcile offers its material to the network of its spec, and to
      no other, exactly when it worked for a sidecar and the user has not edited the spec meanwhile. */
  lemma PublishedMaterialIsAttachableIff(s: State, network: string)
    requires ReportEnabled(PatchApplied, s)
    ensures ReadyForAttachment(Step(Report(PatchApplied), s).live, network) <==>
              && !Dedicated(s) && network == s.work.dbSync.spec.network
              && s.work.dbSync.generation >= s.live.generation
  {
    var t := Step(Report(PatchApplied), s);
    assert t.live.status == AppliedStatus(s.work.dbSync) && t.live.generation == s.live.generation;
  }

  // -------------------------------------------------------------------------------------------
  // A suspended workload stays down

  /** No dedicated Pod runs, and no owned Deployment asks for one. */
  predicate Down(s: State) {
    && !s.dedicatedRunning
    && (s.deployment.Some? && s.deployment.value.owner == ThisDBSync ==> s.deployment.value.replicas == 0)
  }

  predicate BringsUp(a: Action) {
    a == Apply(ApplyDeployment) || (a.Environment? && a.environment.ScaleDeployment?)
  }

  lemma CredentialsKeepDown(a: CredentialAction, s: State)
    requires CredentialEnabled(a, s) && Down(s)
    ensures Down(PerformCredential(a, s))
  {
  }

  lemma DisturbKeepsDown(e: EnvironmentAction, s: State)
    requires Down(s) && !e.ScaleDeployment?
    ensures Down(Disturb(e, s))
  {
  }

  lemma AppliesKeepDown(a: ApplyAction, s: State)
    requires ApplyEnabled(a, s) && Down(s) && !a.ApplyDeployment?
    ensures Down(PerformApply(a, s))
  {
  }

  lemma StepKeepsDown(a: Action, s: State)
    requires Down(s) && !BringsUp(a)
    ensures Down(Step(a, s))
  {
    if Enabled(a, s) {
      match a
      case Gate(_) =>
      case Credential(credential) => CredentialsKeepDown(credential, s);
      case Handoff(_) =>
      case Apply(apply) => AppliesKeepDown(apply, s);
      case Report(_) =>
      case Environment(environment) => DisturbKeepsDown(environment, s);
    }
  }

  /** After a degraded reconcile has suspended the workload and its Pods have stopped, none starts again
      before a reconcile applies the Deployment anew or the user scales it. */
  lemma {:induction false} SuspendedStaysDown(s: State, actions: seq<Action>)
    requires s.phase == Blocked && forall a :: a in actions ==> !BringsUp(a)
    ensures var stopped := Step(Environment(StopDedicatedPods), Step(Report(SuspendBlocked), s));
            Down(stopped) && Down(Run(stopped, actions))
  {
    var suspended := Step(Report(SuspendBlocked), s);
    assert suspended.deployment == Suspend(s.deployment);
    RunKeepsDown(Step(Environment(StopDedicatedPods), suspended), actions);
  }

  lemma {:induction false} RunKeepsDown(s: State, actions: seq<Action>)
    requires Down(s) && forall a :: a in actions ==> !BringsUp(a)
    ensures Down(Run(s, actions))
    decreases actions
  {
    if actions != [] {
      StepKeepsDown(actions[0], s);
      RunKeepsDown(Step(actions[0], s), actions[1..]);
    }
  }
}
