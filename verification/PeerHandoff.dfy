/** A consequence of `primarySidecarDBSyncGone` looking for any db-sync container: a claim that lost the
    placement conflict and moved to a dedicated follower, as its condition message advises, is held back
    for as long as the incumbent's sidecar stays attached to the network. */
module PeerHandoff {
  import opened Fingerprints
  import opened Protocol
  import opened Placement

  /** Past the check for the sidecar, or on the sidecar branch. */
  predicate PastHandoff(phase: Phase) {
    PastPlacementGate(phase) && phase != PlacementGated
  }

  /** The object refers to `network`, where a peer's sidecar is attached. */
  predicate PeerAttached(s: State, network: string) {
    s.live.spec.network == network && Sidecar(network, false) in s.templates
  }

  ghost predicate PeerStaysAttached(s: State, actions: seq<Action>, network: string)
    decreases actions
  {
    PeerAttached(s, network) && (actions != [] ==> PeerStaysAttached(Step(actions[0], s), actions[1..], network))
  }

  /** The reconcile works for this network and is not past the handoff as a dedicated follower. */
  predicate HeldBack(s: State, network: string) {
    && (s.phase != Idle ==> s.work.dbSync.spec.network == network)
    && (PastHandoff(s.phase) ==> !Dedicated(s))
  }

  /** The reconcile's spec stays and the handoff is not passed. */
  predicate StaysBefore(s: State, t: State) {
    && (t.phase != Idle ==> s.phase != Idle)
    && t.work.dbSync.spec == s.work.dbSync.spec
    && (PastHandoff(t.phase) ==> PastHandoff(s.phase))
  }

  lemma StayingKeeps(s: State, t: State, network: string)
    requires HeldBack(s, network) && StaysBefore(s, t)
    ensures HeldBack(t, network)
  {
  }

  lemma GatesStayBefore(a: GateAction, s: State)
    requires GateEnabled(a, s) && !a.Fetch?
    ensures StaysBefore(s, PerformGate(a, s))
  {
  }

  lemma CredentialsStayBefore(a: CredentialAction, s: State)
    requires CredentialEnabled(a, s)
    ensures StaysBefore(s, PerformCredential(a, s))
  {
  }

  lemma AppliesStayBefore(a: ApplyAction, s: State)
    requires ApplyEnabled(a, s)
    ensures StaysBefore(s, PerformApply(a, s))
  {
  }

  lemma ReportsStayBefore(a: ReportAction, s: State)
    requires ReportEnabled(a, s)
    ensures StaysBefore(s, PerformReport(a, s))
  {
  }

  lemma DisturbanceStaysBefore(e: EnvironmentAction, s: State)
    ensures StaysBefore(s, Disturb(e, s))
  {
  }

  lemma HandoffHolds(a: HandoffAction, s: State, network: string)
    requires HeldBack(s, network) && PeerAttached(s, network) && HandoffEnabled(a, s)
    ensures HeldBack(PerformHandoff(a, s), network)
  {
    assert Sidecar(network, false) in s.templates + s.sidecarPods;
    assert !SidecarGone(s, network);
  }

  lemma PerformHolds(a: Action, s: State, network: string)
    requires HeldBack(s, network) && PeerAttached(s, network) && Enabled(a, s) && a != Gate(Fetch)
    ensures HeldBack(Perform(a, s), network)
  {
    hide HeldBack, StaysBefore, PerformGate, PerformCredential, PerformHandoff, PerformApply, PerformReport, Disturb;
    match a
    case Gate(gate) => GatesStayBefore(gate, s); StayingKeeps(s, Perform(a, s), network);
    case Credential(credential) => CredentialsStayBefore(credential, s); StayingKeeps(s, Perform(a, s), network);
    case Handoff(handoff) => HandoffHolds(handoff, s, network);
    case Apply(apply) => AppliesStayBefore(apply, s); StayingKeeps(s, Perform(a, s), network);
    case Report(report) => ReportsStayBefore(report, s); StayingKeeps(s, Perform(a, s), network);
    case Environment(environment) => DisturbanceStaysBefore(environment, s); StayingKeeps(s, Perform(a, s), network);
  }

  lemma StepHolds(a: Action, s: State, network: string)
    requires HeldBack(s, network) && PeerAttached(s, network)
    ensures HeldBack(Step(a, s), network)
  {
    if Enabled(a, s) && a != Gate(Fetch) {
      PerformHolds(a, s, network);
    }
  }

  /** While a peer's sidecar stays attached, no reconcile of a dedicated follower gets past the handoff:
      none of its db-sync objects is ever applied. */
  lemma {:induction false} ForeignSidecarHoldsDedicatedBack(s: State, actions: seq<Action>, network: string)
    requires s.phase == Idle && PeerStaysAttached(s, actions, network)
    ensures var t := Run(s, actions);
            Dedicated(t) ==> !ApplyEnabled(ApplyConfigMap, t) && !ApplyEnabled(ApplyDeployment, t)
  {
    RunHolds(s, actions, network);
  }

  lemma {:induction false} RunHolds(s: State, actions: seq<Action>, network: string)
    requires HeldBack(s, network) && PeerStaysAttached(s, actions, network)
    ensures HeldBack(Run(s, actions), network)
    decreases actions
  {
    if actions != [] {
      StepHolds(actions[0], s, network);
      RunHolds(Step(actions[0], s), actions[1..], network);
    }
  }

  // -------------------------------------------------------------------------------------------
  // Whatever happens in between

  /** Whether the last handoff check of a dedicated reconcile found no db-sync container of its network. */
  ghost function LastCheckFoundNone(s: State, actions: seq<Action>, found: bool): bool
    decreases actions
  {
    if actions == [] then found
    else LastCheckFoundNone(Step(actions[0], s), actions[1..], FoundAfter(actions[0], s, found))
  }

  ghost predicate FoundAfter(a: Action, s: State, found: bool) {
    if a == Handoff(CheckSidecarGone) && Enabled(a, s) then SidecarGone(s, s.work.dbSync.spec.network) else found
  }

  /** A dedicated reconcile past the handoff found none. */
  predicate PastOnlyIf(s: State, found: bool) {
    PastHandoff(s.phase) && Dedicated(s) ==> found
  }

  lemma StayingKeepsFound(s: State, t: State, found: bool)
    requires PastOnlyIf(s, found) && StaysBefore(s, t)
    ensures PastOnlyIf(t, found)
  {
  }

  lemma HandoffsFind(a: HandoffAction, s: State, found: bool)
    requires HandoffEnabled(a, s) && PastOnlyIf(s, found)
    ensures PastOnlyIf(PerformHandoff(a, s), FoundAfter(Handoff(a), s, found))
  {
    hide SidecarGone;
  }

  lemma PerformFinds(a: Action, s: State, found: bool)
    requires PastOnlyIf(s, found) && Enabled(a, s)
    ensures PastOnlyIf(Perform(a, s), FoundAfter(a, s, found))
  {
    hide PastOnlyIf, StaysBefore, PerformCredential, PerformHandoff, PerformApply, PerformReport, Disturb, SidecarGone;
    match a
    case Gate(gate) =>
      if gate.Fetch? {
        FetchFinds(s, found);
      } else {
        GatesStayBefore(gate, s);
        StayingKeepsFound(s, Perform(a, s), found);
      }
    case Credential(credential) => CredentialsStayBefore(credential, s); StayingKeepsFound(s, Perform(a, s), found);
    case Handoff(handoff) => HandoffsFind(handoff, s, found);
    case Apply(apply) => AppliesStayBefore(apply, s); StayingKeepsFound(s, Perform(a, s), found);
    case Report(report) => ReportsStayBefore(report, s); StayingKeepsFound(s, Perform(a, s), found);
    case Environment(environment) => DisturbanceStaysBefore(environment, s); StayingKeepsFound(s, Perform(a, s), found);
  }

  lemma FetchFinds(s: State, found: bool)
    ensures PastOnlyIf(PerformGate(Fetch, s), found)
  {
  }

  lemma {:induction false} RunFinds(s: State, actions: seq<Action>, found: bool)
    requires PastOnlyIf(s, found)
    ensures PastOnlyIf(Run(s, actions), LastCheckFoundNone(s, actions, found))
    decreases actions
  {
    hide Perform, Enabled, FoundAfter, PastHandoff, Dedicated;
    if actions != [] {
      var t := Step(actions[0], s);
      StepFinds(actions[0], s, found);
      RunFinds(t, actions[1..], FoundAfter(actions[0], s, found));
    }
  }

  lemma StepFinds(a: Action, s: State, found: bool)
    requires PastOnlyIf(s, found)
    ensures PastOnlyIf(Step(a, s), FoundAfter(a, s, found))
  {
    hide Perform, SidecarGone, PastHandoff;
    if Enabled(a, s) {
      PerformFinds(a, s, found);
    }
  }

  /** In every run, with any interference between any two calls: where a dedicated reconcile may apply anything,
      the handoff check it made found no db-sync container of its network. */
  lemma DedicatedAppliesOnlyAfterRelease(s: State, actions: seq<Action>, a: ApplyAction)
    requires s.phase == Idle
    requires ApplyEnabled(a, Run(s, actions)) && Dedicated(Run(s, actions))
    ensures LastCheckFoundNone(s, actions, false)
  {
    hide Run, LastCheckFoundNone;
    RunFinds(s, actions, false);
  }
}
